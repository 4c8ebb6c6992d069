/** What an order's executions mean for everyone else: who is told of them, and when some are not. */
module Publishing {
  import opened Protocol
  import opened Sockets
  import opened Exchange
  import opened Loop
  import opened Invariants
  import opened Announcements
  import opened Safety
  import opened Effects
  import opened OrderBooks
  import B = Book

  // ----- one order

  /** The answer to the submitter, before anything else it hears. */
  function Ack(fd: int, x: int, id: int): seq<Response> {
    if x == fd then [OrderAccepted(id)] else []
  }

  /** The executions of an order that a client submits. */
  function ExecutionsOf(s: State, fd: int, cmd: ParsedCommand): seq<TradeExecution> {
    Executions(B.Apply(s.book, OrderOp(fd, cmd)).fills)
  }

  /** The server once the order is in the book and the submitter has been answered. */
  function Acknowledged(s: State, fd: int, cmd: ParsedCommand): State {
    SendTo(Submitted(s, fd, OrderOp(fd, cmd)), fd, OrderAccepted(s.book.nextId))
  }

  /**
  An accepted order: the submitter is acknowledged first; then every connection still there has been told,
  in execution order, of every published execution that concerns it, and of nothing else.  If the submitter
  survives, all executions were published; if not, a non-empty prefix of them.  A connection lost on the
  way was told a prefix of that, and a descriptor without a session nothing.
  */
  lemma OrderIsPublished(s: State, fd: int, cmd: ParsedCommand, x: int) returns (k: nat)
    requires Sound(s) && fd in s.sessions && TradingBar(s, fd, cmd.kind) == [] && x in s.kernel.table
    ensures k == Published(Acknowledged(s, fd, cmd), fd, ExecutionsOf(s, fd, cmd))
    ensures var t, xs := HandleOrder(s, fd, cmd), ExecutionsOf(s, fd, cmd);
            && k <= |xs| && (xs != [] ==> k > 0) && (fd in t.sessions ==> k == |xs|)
            && Told(s, t, x, Ack(fd, x, s.book.nextId) + Notices(s, x, xs[..k]))
  {
    hide Sound, SendTo, PublishAll, Submitted, B.Apply, Executions, Tables, Told, Apart, TradingBar;
    var op := OrderOp(fd, cmd);
    var xs := Executions(B.Apply(s.book, op).fills);
    var r := OrderAccepted(s.book.nextId);
    var u := Submitted(s, fd, op);
    var t := SendTo(u, fd, r);
    k := Published(t, fd, xs);
    SubmittedTables(s, fd, op) by { SoundBasics(s); LoggedInTrader(s, fd, cmd.kind); }
    SubmittedOnly(s, fd, op);
    TablesApart(u);
    SubmittedTold(s, u, x);
    SendToTold(u, fd, r, x);
    SendToTables(u, fd, r);
    assert x in t.kernel.table by { SendToMail(u, fd, r, x); }
    PublishAllTold(t, fd, xs, x);
    ToldChains(s, u, t, x, [], Ack(fd, x, s.book.nextId));
    assert [] + Ack(fd, x, s.book.nextId) == Ack(fd, x, s.book.nextId);
    var v := PublishAll(t, fd, xs);
    ToldKept(s, t, x, Ack(fd, x, s.book.nextId));
    ToldChains(s, t, v, x, Ack(fd, x, s.book.nextId), Notices(t, x, xs[..k]));
    SameNotices(s, t, x, xs[..k]);
    if x !in t.sessions {
      assert Ack(fd, x, s.book.nextId) + [] == Ack(fd, x, s.book.nextId);
      ToldKept(t, v, x, Notices(t, x, xs[..k]));
      ToldWidens(s, v, x, Ack(fd, x, s.book.nextId), Notices(s, x, xs[..k]));
    }
  }

  // ----- when all of them are published

  /** Publishing every execution, whoever is lost on the way. */
  function PublishEach(s: State, xs: seq<TradeExecution>): State
    decreases |xs|
  {
    if xs == [] then s else PublishEach(Publish(s, xs[0]), xs[1..])
  }

  /** If the client is a party to an execution, its socket tolerates what it is told of it. */
  predicate ToleratesNotice(s: State, fd: int, x: TradeExecution) {
    var bought, sold := Bought(x.instrument, x.quantity, x.price), Sold(x.instrument, x.quantity, x.price);
    var t := SendTo(s, x.buyer, bought);
    && (x.buyer == fd && fd in s.sessions ==> Tolerates(s.sessions[fd], s.sends, bought))
    && (x.seller == fd && fd in t.sessions ==> Tolerates(t.sessions[fd], t.sends, sold))
  }

  lemma NotifiedSpares(s: State, fd: int, x: TradeExecution)
    requires Keyed(s) && fd in s.sessions
    ensures fd in Notified(s, x).sessions <==> ToleratesNotice(s, fd, x)
  {
    hide SendTo, Tolerates, Keyed;
    var bought, sold := Bought(x.instrument, x.quantity, x.price), Sold(x.instrument, x.quantity, x.price);
    var t := SendTo(s, x.buyer, bought);
    SendToSpares(s, x.buyer, bought, fd);
    SendToOnward(s, x.buyer, bought);
    SendToSpares(t, x.seller, sold, fd);
  }

  /** Only a response of its own can cost a client its session. */
  lemma SendToSpares(s: State, to: int, r: Response, fd: int)
    requires Keyed(s)
    ensures fd in SendTo(s, to, r).sessions <==> fd in s.sessions && (to == fd ==> Tolerates(s.sessions[fd], s.sends, r))
  {
    hide SendTo, Tolerates;
    SendToFrame(s, to, r);
    if to == fd && fd in s.sessions {
      SurvivesExactlyWhen(s, fd, r);
    }
  }

  /** A client that is not subscribed cannot lose its session to an announcement. */
  lemma SpreadSpares(s: State, fd: int, x: TradeExecution)
    requires Tables(s) && fd in s.sessions && x.instrument !in s.sessions[fd].subscriptions
    ensures fd in Spread(s, x).sessions
  {
    assert fd !in SubscribersOf(s, x.instrument);
    TablesApart(s);
    assert Apart(NextHint(s)) && fd in s.kernel.table;
    hide FanOut, Enumerate, Tables, Apart;
    if x.instrument in s.subscribers {
      var targets := Enumerate(Hint(s), s.subscribers[x.instrument]);
      EnumerateAll(Hint(s), s.subscribers[x.instrument]);
      FanOutMail(NextHint(s), targets, Trade(x.instrument, x.quantity, x.price), fd);
    }
  }

  /** Who is not subscribed survives the publishing of an execution exactly when it tolerates its own part of it. */
  lemma PublishSpares(s: State, fd: int, x: TradeExecution)
    requires Tables(s) && Keyed(s) && fd in s.sessions && x.instrument !in s.sessions[fd].subscriptions
    ensures fd in Publish(s, x).sessions <==> ToleratesNotice(s, fd, x)
  {
    hide Notified, Spread, Tables, Keyed, ToleratesNotice;
    var u := Notified(s, x);
    var v := Announce(u, x);
    NotifiedSpares(s, fd, x);
    NotifiedOnward(s, x);
    NotifiedTables(s, x);
    AnnounceOnward(u, x);
    SpreadOnward(v, x);
    if fd in u.sessions {
      NotifiedClient(s, fd, x);
      SpreadSpares(v, fd, x);
    }
  }

  lemma NotifiedClient(s: State, fd: int, x: TradeExecution)
    requires Tables(s) && fd in Notified(s, x).sessions
    ensures fd in s.sessions && Announce(Notified(s, x), x).sessions == Notified(s, x).sessions
    ensures Notified(s, x).sessions[fd].subscriptions == s.sessions[fd].subscriptions
  {
    hide SendTo, Tables, Apart, Told;
    TablesApart(s);
    NotifiedTold(s, x, fd) by { KeysOpen(s, x, fd); }
    ToldKept(s, Notified(s, x), fd, (if fd == x.buyer then [Bought(x.instrument, x.quantity, x.price)] else [])
                                    + (if fd == x.seller then [Sold(x.instrument, x.quantity, x.price)] else []));
  }

  lemma KeysOpen(s: State, x: TradeExecution, fd: int)
    requires Apart(s) && fd in Notified(s, x).sessions
    ensures fd in s.kernel.table
  {
    hide Notified;
    NotifiedOnward(s, x);
  }

  /** From any state with the submitter in it, all are published exactly when it tolerates its part of all but the last. */
  lemma {:induction false} AllPublishedFrom(s: State, fd: int, xs: seq<TradeExecution>)
    requires Tables(s) && Keyed(s) && fd in s.sessions && s.sessions[fd].loggedIn
    ensures Published(s, fd, xs) == |xs| <==>
            forall j :: 0 <= j < |xs| - 1 ==> ToleratesNotice(PublishEach(s, xs[..j]), fd, xs[j])
    decreases |xs|
  {
    hide Publish, Tables, Keyed, ToleratesNotice;
    if |xs| > 1 {
      var t, rest := Publish(s, xs[0]), xs[1..];
      assert PublishEach(s, xs[..0]) == s;
      RoleOf(s, fd);
      PublishSpares(s, fd, xs[0]);
      if fd in t.sessions {
        PublishTables(s, xs[0]);
        PublishOnward(s, xs[0]);
        AllPublishedFrom(t, fd, rest);
        forall j | 1 <= j < |xs| ensures PublishEach(s, xs[..j]) == PublishEach(t, rest[..j - 1]) && xs[j] == rest[j - 1] {
          assert xs[..j][1..] == rest[..j - 1];
        }
        assert forall j :: 0 <= j < |rest| - 1 ==> rest[j] == xs[j + 1] && PublishEach(t, rest[..j]) == PublishEach(s, xs[..j + 1]);
      } else {
        assert Published(s, fd, xs) == 1;
        assert !ToleratesNotice(PublishEach(s, xs[..0]), fd, xs[0]);
      }
    }
  }

  /**
  All executions of an order are published if and only if there is at most one, or the submitter's socket
  tolerates the acknowledgement and its own part of every execution before the last.
  */
  lemma AllPublishedIff(s: State, fd: int, cmd: ParsedCommand)
    requires Sound(s) && fd in s.sessions && TradingBar(s, fd, cmd.kind) == []
    ensures var t, xs := Acknowledged(s, fd, cmd), ExecutionsOf(s, fd, cmd);
            Published(t, fd, xs) == |xs| <==>
            || |xs| <= 1
            || (&& Tolerates(s.sessions[fd], s.sends, OrderAccepted(s.book.nextId))
                && forall j :: 0 <= j < |xs| - 1 ==> ToleratesNotice(PublishEach(t, xs[..j]), fd, xs[j]))
  {
    hide Sound, SendTo, Publish, PublishEach, Submitted, ExecutionsOf, Tables, Tolerates, ToleratesNotice, TradingBar, Keyed;
    var op, r, xs := OrderOp(fd, cmd), OrderAccepted(s.book.nextId), ExecutionsOf(s, fd, cmd);
    var u := Submitted(s, fd, op);
    var t := SendTo(u, fd, r);
    AcknowledgedBasics(s, fd, cmd);
    if |xs| > 1 {
      if fd in t.sessions {
        AllPublishedFrom(t, fd, xs);
      } else {
        PublishOnward(t, xs[0]);
      }
    }
  }

  /** The acknowledgement leaves the tables in agreement, and the submitter there exactly when it tolerates it. */
  lemma AcknowledgedBasics(s: State, fd: int, cmd: ParsedCommand)
    requires Sound(s) && fd in s.sessions && TradingBar(s, fd, cmd.kind) == []
    ensures var t := Acknowledged(s, fd, cmd);
            && Tables(t) && Keyed(t)
            && (fd in t.sessions <==> Tolerates(s.sessions[fd], s.sends, OrderAccepted(s.book.nextId)))
            && (fd in t.sessions ==> t.sessions[fd].loggedIn)
  {
    hide Sound, SendTo, Submitted, Tables, Tolerates, Keyed;
    var op, r := OrderOp(fd, cmd), OrderAccepted(s.book.nextId);
    var u := Submitted(s, fd, op);
    SoundBasics(s);
    LoggedInTrader(s, fd, cmd.kind);
    SubmittedTables(s, fd, op);
    SubmittedOnward(s, fd, op);
    SubmittedOnly(s, fd, op);
    SubmittedSends(s, fd, op);
    SendToTables(u, fd, r);
    SendToOnward(u, fd, r);
    SendToSpares(u, fd, r, fd);
  }

  lemma SubmittedSends(s: State, fd: int, op: B.Op)
    ensures Submitted(s, fd, op).sends == s.sends
  {
    hide B.Apply;
  }

  lemma {:induction false} NoticesConcat(s: State, x: int, a: seq<TradeExecution>, b: seq<TradeExecution>)
    ensures Notices(s, x, a + b) == Notices(s, x, a) + Notices(s, x, b)
    decreases |a|
  {
    hide Notice;
    if a == [] {
      assert a + b == b;
    } else {
      assert (a + b)[0] == a[0] && (a + b)[1..] == a[1..] + b;
      NoticesConcat(s, x, a[1..], b);
    }
  }

  /** A client still there has been told of everything that concerns it exactly when no unpublished execution does. */
  lemma ToldEverythingIff(s: State, fd: int, cmd: ParsedCommand, x: int)
    requires Sound(s) && fd in s.sessions && TradingBar(s, fd, cmd.kind) == [] && x in HandleOrder(s, fd, cmd).sessions
    ensures var t, xs := HandleOrder(s, fd, cmd), ExecutionsOf(s, fd, cmd);
            Mailed(s, t, x, Ack(fd, x, s.book.nextId) + Notices(s, x, xs)) <==>
            Notices(s, x, xs[Published(Acknowledged(s, fd, cmd), fd, xs)..]) == []
  {
    hide Sound, Tables, HandleOrder, ExecutionsOf, Acknowledged, TradingBar, Notices, Published, Mail, SameSession, Keyed, Onward;
    SoundBasics(s);
    HandleOrderOnward(s, fd, cmd);
    NotNew(s, HandleOrder(s, fd, cmd), x);
    LiveIsOpen(s, x);
    var xs, ack := ExecutionsOf(s, fd, cmd), Ack(fd, x, s.book.nextId);
    var k := OrderIsPublished(s, fd, cmd, x);
    NoticesConcat(s, x, xs[..k], xs[k..]);
    assert xs[..k] + xs[k..] == xs;
    var told, untold := Notices(s, x, xs[..k]), Notices(s, x, xs[k..]);
    assert Mail(s, x) + (ack + (told + untold)) == Mail(s, x) + (ack + told) + untold;
  }

  lemma NotNew(s: State, t: State, x: int)
    requires Onward(s, t) && x in t.sessions
    ensures x in s.sessions
  {
  }

  // ----- a counterparty that is never told

  /** When the acknowledgement is not tolerated, only the first execution is published. */
  lemma LostSubmitterPublishesOne(s: State, fd: int, cmd: ParsedCommand)
    requires Sound(s) && fd in s.sessions && TradingBar(s, fd, cmd.kind) == []
    requires !Tolerates(s.sessions[fd], s.sends, OrderAccepted(s.book.nextId))
    ensures ExecutionsOf(s, fd, cmd) != [] ==> Published(Acknowledged(s, fd, cmd), fd, ExecutionsOf(s, fd, cmd)) == 1
  {
    hide Sound, Acknowledged, Publish, ExecutionsOf, Tables, Tolerates, TradingBar, Keyed;
    var t, xs := Acknowledged(s, fd, cmd), ExecutionsOf(s, fd, cmd);
    AcknowledgedBasics(s, fd, cmd);
    if xs != [] {
      PublishOnward(t, xs[0]);
    }
  }

  /**
  When the submitter is lost with the acknowledgement, whoever has no part in the first execution is told
  nothing at all of this order, although the book has executed all of it.
  */
  lemma CounterpartyNotTold(s: State, fd: int, cmd: ParsedCommand, x: int)
    requires Sound(s) && fd in s.sessions && TradingBar(s, fd, cmd.kind) == []
    requires !Tolerates(s.sessions[fd], s.sends, OrderAccepted(s.book.nextId))
    requires x in s.sessions && x != fd && ExecutionsOf(s, fd, cmd) != []
    requires Notice(s, x, ExecutionsOf(s, fd, cmd)[0]) == []
    ensures Mail(HandleOrder(s, fd, cmd), x) == Mail(s, x) && x in HandleOrder(s, fd, cmd).sessions
  {
    hide Sound, Tables, HandleOrder, ExecutionsOf, Acknowledged, Tolerates, TradingBar, Notice, Published, Mail, SameSession;
    BystanderStays(s, fd, cmd, x);
    var xs := ExecutionsOf(s, fd, cmd);
    LiveIsOpen(s, x);
    LostSubmitterPublishesOne(s, fd, cmd);
    var k := OrderIsPublished(s, fd, cmd, x);
    assert xs[..1][1..] == [] && Notices(s, x, xs[..1]) == [];
    assert Mail(s, x) + [] == Mail(s, x);
  }

  /** Whoever is told nothing is not at risk. */
  lemma BystanderStays(s: State, fd: int, cmd: ParsedCommand, x: int)
    requires Sound(s) && fd in s.sessions && TradingBar(s, fd, cmd.kind) == []
    requires !Tolerates(s.sessions[fd], s.sends, OrderAccepted(s.book.nextId))
    requires x in s.sessions && x != fd && ExecutionsOf(s, fd, cmd) != []
    requires Notice(s, x, ExecutionsOf(s, fd, cmd)[0]) == []
    ensures x in HandleOrder(s, fd, cmd).sessions
  {
    hide Sound, Tables, ExecutionsOf, TradingBar, SendTo, Publish, Submitted, Tolerates, ToleratesNotice, Onward;
    var e, t := ExecutionsOf(s, fd, cmd)[0], Acknowledged(s, fd, cmd);
    SoundBasics(s);
    AcknowledgedBasics(s, fd, cmd);
    AcknowledgedClient(s, fd, cmd, x);
    assert s.sessions[x].fd == x;
    assert x != e.buyer && x != e.seller && e.instrument !in s.sessions[x].subscriptions;
    hide Keyed, Acknowledged, Notice;
    NotAParty(t, x, e);
    PublishSpares(t, x, e);
    assert fd !in Publish(t, e).sessions by { PublishOnward(t, e); StillGone(t, Publish(t, e), fd); }
    assert HandleOrder(s, fd, cmd) == Publish(t, e) by { OnlyFirst(s, fd, cmd); }
  }

  lemma StillGone(s: State, t: State, fd: int)
    requires Onward(s, t) && fd !in s.sessions
    ensures fd !in t.sessions
  {
  }

  lemma OnlyFirst(s: State, fd: int, cmd: ParsedCommand)
    requires fd in s.sessions && TradingBar(s, fd, cmd.kind) == [] && ExecutionsOf(s, fd, cmd) != []
    requires fd !in Publish(Acknowledged(s, fd, cmd), ExecutionsOf(s, fd, cmd)[0]).sessions
    ensures HandleOrder(s, fd, cmd) == Publish(Acknowledged(s, fd, cmd), ExecutionsOf(s, fd, cmd)[0])
  {
    hide TradingBar, SendTo, Publish, Submitted, Executions, B.Apply;
  }

  lemma NotAParty(s: State, x: int, e: TradeExecution)
    requires x != e.buyer && x != e.seller
    ensures ToleratesNotice(s, x, e)
  {
    hide SendTo;
  }

  lemma AcknowledgedClient(s: State, fd: int, cmd: ParsedCommand, x: int)
    requires Keyed(s) && x in s.sessions && x != fd
    ensures var t := Acknowledged(s, fd, cmd); x in t.sessions && t.sessions[x] == s.sessions[x]
  {
    hide SendTo, Submitted;
    var op, r := OrderOp(fd, cmd), OrderAccepted(s.book.nextId);
    SubmittedOnly(s, fd, op);
    SubmittedOnward(s, fd, op);
    SendToFrame(Submitted(s, fd, op), fd, r);
  }

  lemma LiveIsOpen(s: State, x: int)
    requires Sound(s) && x in s.sessions
    ensures x in s.kernel.table
  {
    hide Tape, Subscriptions, Names, Roles, Orders;
  }

  /** A socket that fails does not tolerate anything. */
  lemma FailureNotTolerated(ses: Session, sends: seq<SendOutcome>, r: Response)
    requires sends != [] && sends[0].SendFailed?
    ensures !Tolerates(ses, sends, r)
  {
    hide Text;
    assert |Render(r)| > 0;
  }

  lemma LoggedInTrader(s: State, fd: int, kind: CommandType)
    requires fd in s.sessions && TradingBar(s, fd, kind) == []
    ensures s.sessions[fd].loggedIn
  {
  }

  lemma SubmittedTold(s: State, t: State, x: int)
    requires t.sessions == s.sessions && t.kernel == s.kernel && t.hist.queued == s.hist.queued
    ensures Told(s, t, x, [])
  {
    assert Mail(s, x) + [] == Mail(s, x);
  }

  // ----- notices reach the connections that submitted the orders

  /** The descriptor a fill is credited to on the resting side. */
  function MakerOf(op: B.Op, f: B.Fill): int
    requires op.Add?
  {
    if op.side == B.Buy then f.seller else f.buyer
  }

  lemma {:induction false} FillMaker(orders: seq<B.Order>, taker: B.Order, j: nat)
    requires j < |B.Match(orders, taker).fills|
    ensures var f := B.Match(orders, taker).fills[j];
            && (if taker.side == B.Buy then f.buyer else f.seller) == taker.owner && f.taker == taker.id
            && exists o :: o in orders && o.id == f.maker && o.owner == if taker.side == B.Buy then f.seller else f.buyer
    decreases |orders|
  {
    var head := orders[0];
    if B.Crosses(head, taker) {
      var fill := B.FillOf(head, taker);
      var rest := B.Match(orders[1..], B.Reduced(taker, fill.quantity)).fills;
      assert B.Match(orders, taker).fills == [fill] + rest;
      if j == 0 {
        assert head in orders;
      } else {
        FillMaker(orders[1..], B.Reduced(taker, fill.quantity), j - 1);
        var o :| o in orders[1..] && o.id == rest[j - 1].maker && o.owner == if taker.side == B.Buy then rest[j - 1].seller else rest[j - 1].buyer;
        assert o in orders;
      }
    } else {
      FillMaker(orders[1..], taker, j);
      var f := B.Match(orders, taker).fills[j];
      var o :| o in orders[1..] && o.id == f.maker && o.owner == if taker.side == B.Buy then f.seller else f.buyer;
      assert o in orders;
    }
  }

  /** Both parties of every execution are live, on the very connections that submitted the two orders. */
  lemma FillsReachSubmitters(s: State, fd: int, op: B.Op, j: nat)
    requires Tables(s) && fd in s.sessions && op.Add? && op.owner == fd && j < |B.Apply(s.book, op).fills|
    ensures var f, t := B.Apply(s.book, op).fills[j], Submitted(s, fd, op);
            && MakerOf(op, f) in t.sessions
            && f.maker in t.hist.submitter && t.hist.submitter[f.maker] == Who(t, MakerOf(op, f))
            && f.taker in t.hist.submitter && t.hist.submitter[f.taker] == Who(t, fd)
            && (f.buyer == fd || f.seller == fd)
  {
    hide Descriptors, Subscriptions, Names, Roles;
    var taker := B.Taker(s.book, op);
    var f := B.Match(s.book.resting, taker).fills[j];
    FillMaker(s.book.resting, taker, j);
    var o :| o in s.book.resting && o.id == f.maker && o.owner == if taker.side == B.Buy then f.seller else f.buyer;
    assert Owned(s, o);
    B.RunWellFormed(s.hist.ops);
    var i :| 0 <= i < |s.book.resting| && s.book.resting[i] == o;
    B.AscendingAt(s.book.resting, 1, s.book.nextId, i);
  }
}
