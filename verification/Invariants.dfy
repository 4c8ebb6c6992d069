/** What must agree after every step: descriptors, subscriptions, usernames, roles and resting orders. */
module Invariants {
  import opened Sequences
  import opened Protocol
  import opened Sockets
  import opened Exchange
  import B = Book

  // ----- descriptors and connections

  /**
  Open descriptors denote different connections, and are exactly those of live sessions and of dropped
  ones waiting to be closed, which are never the same.  A connection has been closed, once, exactly when
  no descriptor denotes it any more.  No descriptor was ever closed or written to that was not open.
  */
  ghost predicate Descriptors(s: State) {
    var k := s.kernel;
    && (forall fd :: fd in s.sessions ==> fd in k.table && fd !in s.closedFds)
    && (forall fd :: fd in s.closedFds ==> fd in k.table)
    && (forall fd :: fd in k.table ==> fd in s.sessions || fd in s.closedFds)
    && Distinct(s.closedFds)
    && Connections(k)
    && s.listener !in k.table
    && |s.hist.queued| == |s.hist.chunks| == |s.hist.handled| == |k.wire|
  }

  ghost predicate Connections(k: Kernel) {
    && (forall fd :: fd in k.table ==> k.table[fd] < |k.wire| && k.table[fd] !in k.closed)
    && (forall x, y :: x in k.table && y in k.table && x != y ==> k.table[x] != k.table[y])
    && Distinct(k.closed)
    && (forall w :: w in k.closed ==> w < |k.wire|)
    && (forall w :: 0 <= w < |k.wire| ==> w in k.closed || Denoted(k, w))
    && !k.fault
  }

  ghost predicate Denoted(k: Kernel, w: nat) {
    exists fd :: fd in k.table && k.table[fd] == w
  }

  // ----- the server's own tables

  /** A descriptor is in an instrument's subscriber set exactly when its live session lists the instrument. */
  ghost predicate Subscriptions(s: State) {
    forall i, fd :: fd in SubscribersOf(s, i) <==> fd in s.sessions && i in s.sessions[fd].subscriptions
  }

  predicate HasName(s: State, fd: int, name: string) {
    fd in s.sessions && s.sessions[fd].loggedIn && s.sessions[fd].username == name
  }

  /** The usernames in use are those of the logged-in sessions, one session each. */
  ghost predicate Names(s: State) {
    && (forall name :: name in s.usernames ==> exists fd :: HasName(s, fd, name))
    && (forall fd, name :: HasName(s, fd, name) ==> name in s.usernames)
    && (forall x, y, name :: HasName(s, x, name) && HasName(s, y, name) ==> x == y)
  }

  predicate Role(ses: Session) {
    && (ses.role == Trader <==> ses.loggedIn)
    && (ses.subscriptions != {} ==> ses.role == MarketData)
    && (ses.loggedIn ==> Plain(ses.username))
  }

  predicate Roles(s: State) {
    forall fd :: fd in s.sessions ==> Role(s.sessions[fd])
  }

  /** A resting order belongs to a live logged-in session, on the very connection that submitted it. */
  predicate Owned(s: State, o: B.Order) {
    && o.owner in s.sessions && s.sessions[o.owner].loggedIn
    && o.id in s.hist.submitter && s.hist.submitter[o.id] == Who(s, o.owner)
  }

  ghost predicate Orders(s: State) {
    && s.book == B.Run(s.hist.ops).book
    && forall o :: o in s.book.resting ==> Owned(s, o)
  }

  ghost predicate Tables(s: State) {
    Keyed(s) && Descriptors(s) && Subscriptions(s) && Names(s) && Roles(s) && Orders(s)
  }

  lemma RoleOf(s: State, fd: int)
    requires Tables(s) && fd in s.sessions
    ensures Role(s.sessions[fd])
  {
    hide Descriptors, Subscriptions, Names, Orders;
  }

  lemma BookOf(s: State)
    requires Tables(s)
    ensures s.book == B.Run(s.hist.ops).book
  {
    hide Descriptors, Subscriptions, Names, Roles;
  }

  // ----- neither input nor output touches them

  predicate SameMember(a: Session, b: Session) {
    && a.fd == b.fd && a.role == b.role && a.username == b.username && a.loggedIn == b.loggedIn
    && a.subscriptions == b.subscriptions
  }

  ghost predicate SameMembers(s: State, t: State) {
    && t.sessions.Keys == s.sessions.Keys
    && (forall fd :: fd in s.sessions ==> SameMember(t.sessions[fd], s.sessions[fd]))
    && t.subscribers == s.subscribers && t.usernames == s.usernames && t.closedFds == s.closedFds
    && t.book == s.book && t.listener == s.listener
    && t.kernel.table == s.kernel.table && t.kernel.closed == s.kernel.closed && t.kernel.fault == s.kernel.fault
    && |t.kernel.wire| == |s.kernel.wire| && |t.hist.queued| == |s.hist.queued|
    && |t.hist.chunks| == |s.hist.chunks| && |t.hist.handled| == |s.hist.handled|
    && t.hist.submitter == s.hist.submitter && t.hist.ops == s.hist.ops
  }

  lemma SameMembersNames(s: State, t: State)
    requires Names(s) && t.usernames == s.usernames
    requires forall fd, name :: HasName(t, fd, name) <==> HasName(s, fd, name)
    ensures Names(t)
  {
    forall name | name in t.usernames ensures exists fd :: HasName(t, fd, name) {
      var fd :| HasName(s, fd, name);
      assert HasName(t, fd, name);
    }
  }

  lemma SameMembersOrders(s: State, t: State)
    requires Orders(s) && t.book == s.book && t.hist.ops == s.hist.ops
    requires forall o :: Owned(s, o) ==> Owned(t, o)
    ensures Orders(t)
  {
  }

  lemma SameMembersTables(s: State, t: State)
    requires Tables(s) && SameMembers(s, t)
    ensures Tables(t)
  {
    SameMembersLists(s, t);
    hide Names, Orders;
    forall i, fd ensures fd in SubscribersOf(t, i) <==> fd in t.sessions && i in t.sessions[fd].subscriptions {
      assert SubscribersOf(t, i) == SubscribersOf(s, i);
    }
  }

  lemma SameMembersLists(s: State, t: State)
    requires Names(s) && Orders(s) && SameMembers(s, t)
    ensures Names(t) && Orders(t)
  {
    hide Names, Orders;
    assert forall fd, name :: HasName(t, fd, name) <==> HasName(s, fd, name);
    assert forall o :: Owned(s, o) ==> Owned(t, o);
    SameMembersNames(s, t);
    SameMembersOrders(s, t);
  }

  /** Output, in particular, leaves the input side alone as well. */
  ghost predicate SameClients(s: State, t: State) {
    && SameMembers(s, t) && t.paused == s.paused
    && (forall fd :: fd in s.sessions ==> SameClient(t.sessions[fd], s.sessions[fd]))
    && t.hist == s.hist.(queued := t.hist.queued)
  }

  // ----- dropping a session

  lemma DropDescriptors(s: State, fd: int)
    requires Descriptors(s) && Keyed(s)
    ensures Descriptors(Drop(s, fd)) && Keyed(Drop(s, fd))
  {
    hide B.Apply;
  }

  lemma DropSubscriptions(s: State, fd: int)
    requires Subscriptions(s)
    ensures Subscriptions(Drop(s, fd))
  {
    hide B.Apply;
    var t := Drop(s, fd);
    if fd in s.sessions {
      var ses := s.sessions[fd];
      forall i, x ensures x in SubscribersOf(t, i) <==> x in t.sessions && i in t.sessions[x].subscriptions {
        assert x in SubscribersOf(s, i) <==> x in s.sessions && i in s.sessions[x].subscriptions;
        assert SubscribersOf(t, i) == SubscribersOf(s, i) - (if i in ses.subscriptions then {fd} else {});
      }
    }
  }

  lemma DropNames(s: State, fd: int)
    requires Names(s)
    ensures Names(Drop(s, fd))
  {
    hide B.Apply;
    var t := Drop(s, fd);
    assert forall x, name :: HasName(t, x, name) ==> HasName(s, x, name);
    assert fd in s.sessions && s.sessions[fd].loggedIn ==> HasName(s, fd, s.sessions[fd].username);
    forall name | name in t.usernames ensures exists x :: HasName(t, x, name) {
      var x :| HasName(s, x, name);
      assert HasName(t, x, name);
    }
  }

  lemma DropOrders(s: State, fd: int)
    requires Orders(s)
    ensures Orders(Drop(s, fd))
  {
    if fd in s.sessions {
      var t, op := Drop(s, fd), B.RemoveOwner(fd);
      RunAppend(s.hist.ops, op);
      forall o | o in t.book.resting ensures Owned(t, o) {
        B.SelectMembers(s.book.resting, B.Not(B.Owner(fd)), o);
        assert Owned(s, o);
      }
    }
  }

  lemma RunAppend(ops: seq<B.Op>, op: B.Op)
    ensures B.Run(ops + [op]).book == B.Apply(B.Run(ops).book, op).book
  {
    assert (ops + [op])[..|ops|] == ops;
  }

  lemma DropTables(s: State, fd: int)
    requires Tables(s)
    ensures Tables(Drop(s, fd))
  {
    DropDescriptors(s, fd);
    DropSubscriptions(s, fd);
    DropNames(s, fd);
    DropOrders(s, fd);
    hide B.Apply, Orders, Names, Subscriptions, Descriptors;
  }

  // ----- a flush is an update of output, followed by a drop or not

  lemma FlushTables(s: State, fd: int)
    requires Tables(s) && fd in s.sessions
    ensures Tables(Flush(s, fd))
  {
    var w := WriteOut(Pending(s.sessions[fd]), s.sends);
    var t := Written(s, fd, w);
    WrittenSame(s, fd, w);
    SameMembersTables(s, t);
    if w.failed {
      DropTables(t, fd);
    } else {
      SettleTables(t, fd);
    }
  }

  lemma WrittenSame(s: State, fd: int, w: Writing)
    requires fd in s.sessions && w.count <= Pending(s.sessions[fd]) && Keyed(s) && Descriptors(s)
    ensures SameClients(s, Written(s, fd, w))
  {
  }

  lemma UpdateSame(s: State, fd: int, ses: Session, loop: map<int, Interest>)
    requires fd in s.sessions && SameClient(ses, s.sessions[fd])
    ensures SameClients(s, Update(s, fd, ses)) && SameClients(s, Update(s, fd, ses).(loop := loop))
  {
  }

  lemma CompactSame(ses: Session)
    ensures var c := Compact(ses); c.fd == ses.fd && SameClient(c, ses) && SameClient(Rearmed(c), ses)
    ensures Unsent(Compact(ses)) == Unsent(ses) && Unsent(Rearmed(Compact(ses))) == Unsent(ses)
  {
  }

  /** A flush that is not cut short either keeps the session, with other output, or drops it. */
  lemma SettleCases(s: State, fd: int)
    requires fd in s.sessions && s.sessions[fd].fd == fd
    ensures var ses, t := Compact(s.sessions[fd]), Settle(s, fd);
            && SameClients(s, Update(s, fd, ses))
            && if Finished(ses) then t == Drop(Update(s, fd, ses), fd)
               else SameClients(s, t)
  {
    hide SameClients, Compact, Rearmed, Finished, Drop, SameClient, Update;
    var ses := Compact(s.sessions[fd]);
    CompactSame(s.sessions[fd]);
    UpdateSame(s, fd, ses, s.loop);
    UpdateSame(s, fd, Rearmed(ses), s.loop);
    UpdateSame(s, fd, Rearmed(ses), s.loop[fd := Wanted(ses)]);
  }

  lemma SettleTables(s: State, fd: int)
    requires Tables(s) && fd in s.sessions
    ensures Tables(Settle(s, fd))
  {
    SettleCases(s, fd);
    hide Tables, SameClients, Compact, Finished, Drop, Settle;
    var t := Update(s, fd, Compact(s.sessions[fd]));
    SameMembersTables(s, t);
    DropTables(t, fd);
    if !Finished(Compact(s.sessions[fd])) {
      SameMembersTables(s, Settle(s, fd));
    }
  }

  lemma SendToTables(s: State, fd: int, r: Response)
    requires Tables(s)
    ensures Tables(SendTo(s, fd, r))
  {
    if fd in s.sessions {
      EnqueueSame(s, fd, r);
      hide Tables, SameMembers, SameClients, Flush, Enqueue;
      assert SameMembers(s, Enqueue(s, fd, r));
      SameMembersTables(s, Enqueue(s, fd, r));
      FlushTables(Enqueue(s, fd, r), fd);
    }
  }

  lemma EnqueueSame(s: State, fd: int, r: Response)
    requires fd in s.sessions
    ensures var t := Enqueue(s, fd, r); SameClients(s, t) && SameMembers(s, t) && fd in t.sessions
  {
    hide Render;
  }

  // ----- commands

  lemma LoggedInNames(s: State, fd: int, name: string)
    requires Names(s) && fd in s.sessions && name !in s.usernames && !s.sessions[fd].loggedIn
    ensures Names(LoggedIn(s, fd, name))
  {
    var t := LoggedIn(s, fd, name);
    assert forall x, n :: HasName(t, x, n) <==> HasName(s, x, n) || (x == fd && n == name);
    forall n | n in t.usernames ensures exists x :: HasName(t, x, n) {
      if n == name {
        assert HasName(t, fd, name);
      } else {
        var x :| HasName(s, x, n);
        assert HasName(t, x, n);
      }
    }
  }

  lemma LoggedInTables(s: State, fd: int, name: string)
    requires Tables(s) && fd in s.sessions && name !in s.usernames && Plain(name)
    requires !s.sessions[fd].loggedIn && s.sessions[fd].role != MarketData
    ensures Tables(LoggedIn(s, fd, name))
  {
    var t := LoggedIn(s, fd, name);
    assert Role(s.sessions[fd]);
    assert forall o :: Owned(s, o) ==> Owned(t, o);
    LoggedInNames(s, fd, name);
    SameMembersOrders(s, t);
    hide Names, Orders;
    forall i, x ensures x in SubscribersOf(t, i) <==> x in t.sessions && i in t.sessions[x].subscriptions {
      assert SubscribersOf(t, i) == SubscribersOf(s, i);
    }
  }

  ghost predicate SameSubscriber(s: State, t: State, fd: int, instrument: string) {
    && fd in s.sessions && t.sessions.Keys == s.sessions.Keys
    && (forall x :: x in s.sessions && x != fd ==> t.sessions[x] == s.sessions[x])
    && t.sessions[fd] == s.sessions[fd].(role := MarketData, subscriptions := t.sessions[fd].subscriptions)
    && (forall i :: i != instrument ==> (i in t.sessions[fd].subscriptions <==> i in s.sessions[fd].subscriptions))
    && (forall i, x :: i != instrument || x != fd ==> (x in SubscribersOf(t, i) <==> x in SubscribersOf(s, i)))
    && (fd in SubscribersOf(t, instrument) <==> instrument in t.sessions[fd].subscriptions)
    && t.usernames == s.usernames && t.closedFds == s.closedFds && t.book == s.book && t.listener == s.listener
    && t.kernel == s.kernel && t.hist == s.hist.(tape := t.hist.tape)
  }

  lemma SubscriberTables(s: State, t: State, fd: int, instrument: string)
    requires Tables(s) && SameSubscriber(s, t, fd, instrument)
    requires !s.sessions[fd].loggedIn
    ensures Tables(t)
  {
    SubscriberLists(s, t, fd, instrument);
    SubscriberSets(s, t, fd, instrument);
    hide Names, Orders, Subscriptions, SubscribersOf;
  }

  lemma SubscriberSets(s: State, t: State, fd: int, instrument: string)
    requires Subscriptions(s) && SameSubscriber(s, t, fd, instrument)
    ensures Subscriptions(t)
  {
    hide SubscribersOf;
  }

  lemma SubscriberLists(s: State, t: State, fd: int, instrument: string)
    requires Names(s) && Orders(s) && SameSubscriber(s, t, fd, instrument)
    ensures Names(t) && Orders(t)
  {
    hide Names, Orders;
    assert forall x, n :: HasName(t, x, n) <==> HasName(s, x, n);
    assert forall o :: Owned(s, o) ==> Owned(t, o);
    SameMembersNames(s, t);
    SameMembersOrders(s, t);
  }

  lemma SubscribedTables(s: State, fd: int, instrument: string)
    requires Tables(s) && fd in s.sessions && !s.sessions[fd].loggedIn
    ensures Tables(Subscribed(s, fd, instrument))
  {
    hide Tables;
    assert SameSubscriber(s, Subscribed(s, fd, instrument), fd, instrument);
    SubscriberTables(s, Subscribed(s, fd, instrument), fd, instrument);
  }

  lemma DepartedTables(s: State, fd: int, instrument: string)
    requires Tables(s) && fd in s.sessions && !s.sessions[fd].loggedIn
    ensures Tables(Departed(s, fd, instrument))
  {
    hide Tables;
    assert SameSubscriber(s, Departed(s, fd, instrument), fd, instrument);
    SubscriberTables(s, Departed(s, fd, instrument), fd, instrument);
  }

  /** An order left in the book by a match is one that was there, or the taker's remainder. */
  lemma {:induction false} MatchOrigin(orders: seq<B.Order>, taker: B.Order, o: B.Order)
    requires o in B.Match(orders, taker).orders
    ensures exists p :: p in orders && p.id == o.id && p.owner == o.owner
    decreases |orders|
  {
    if orders != [] && taker.quantity > 0 {
      var q := if B.Crosses(orders[0], taker) then B.FillOf(orders[0], taker).quantity else 0;
      var rest := B.Match(orders[1..], B.Reduced(taker, q)).orders;
      assert B.Reduced(taker, 0) == taker;
      assert orders[0] in orders;
      if o in rest {
        MatchOrigin(orders[1..], B.Reduced(taker, q), o);
        var p :| p in orders[1..] && p.id == o.id && p.owner == o.owner;
        assert p in orders;
      } else {
        assert o.id == orders[0].id && o.owner == orders[0].owner;
      }
    } else {
      assert o in orders;
    }
  }

  lemma SubmittedTables(s: State, fd: int, op: B.Op)
    requires Tables(s) && fd in s.sessions && s.sessions[fd].loggedIn && op.Add? && op.owner == fd
    ensures Tables(Submitted(s, fd, op))
  {
    var t := Submitted(s, fd, op);
    assert t.sessions == s.sessions && t.subscribers == s.subscribers;
    var taker := B.Taker(s.book, op);
    B.RunWellFormed(s.hist.ops);
    RunAppend(s.hist.ops, op);
    forall o | o in t.book.resting ensures Owned(t, o) {
      if o in B.Match(s.book.resting, taker).orders {
        MatchOrigin(s.book.resting, taker, o);
        var p :| p in s.book.resting && p.id == o.id && p.owner == o.owner;
        assert Owned(s, p);
        var i :| 0 <= i < |s.book.resting| && s.book.resting[i] == p;
        B.AscendingAt(s.book.resting, 1, s.book.nextId, i);
      }
    }
    BookOnly(s, t);
  }

  lemma CancelledTables(s: State, op: B.Op)
    requires Tables(s) && op.Cancel?
    ensures Tables(BookStep(s, op))
  {
    var t := BookStep(s, op);
    RunAppend(s.hist.ops, op);
    forall o | o in t.book.resting ensures Owned(t, o) {
      B.SelectMembers(s.book.resting, B.Not(B.Withdrawal(op)), o);
      assert Owned(s, o);
    }
    BookOnly(s, t);
  }

  /** A change to the book alone. */
  lemma BookOnly(s: State, t: State)
    requires Tables(s) && Orders(t)
    requires t == s.(book := t.book, hist := s.hist.(submitter := t.hist.submitter, ops := t.hist.ops))
    ensures Tables(t)
  {
    hide Orders;
    forall i ensures SubscribersOf(t, i) == SubscribersOf(s, i) {}
    assert forall x, name :: HasName(t, x, name) <==> HasName(s, x, name);
  }
}
