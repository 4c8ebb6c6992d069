/**
The exchange server as it runs: one object whose methods update its tables in place.  Each method is
proved to take the state where the function of the same name takes it.
*/
module Servers {
  import opened Sequences
  import opened Protocol
  import opened Framing
  import opened Sockets
  import opened OrderBooks
  import B = Book
  import X = Exchange
  import R = Loop
  import S = Safety
  import T = Lifetimes
  import D = Departures

  lemma TransmitTwice(k: X.Kernel, fd: int, a: string, b: string)
    ensures X.Transmit(X.Transmit(k, fd, a), fd, b) == X.Transmit(k, fd, a + b)
  {
    if fd in k.table {
      var w := k.table[fd];
      if w < |k.wire| {
        assert k.wire[w] + a + b == k.wire[w] + (a + b);
        assert k.wire[w := k.wire[w] + a][w := k.wire[w] + a + b] == k.wire[w := k.wire[w] + (a + b)];
      }
    }
  }

  lemma HandedMore(k: X.Kernel, fd: int, out: string, n: nat, m: nat)
    requires n + m <= |out|
    ensures X.Handed(X.Handed(k, fd, out[..n]), fd, out[n..][..m]) == X.Handed(k, fd, out[..n + m])
  {
    hide X.Transmit;
    assert out[..n] + out[n..][..m] == out[..n + m];
    if n > 0 && m > 0 {
      TransmitTwice(k, fd, out[..n], out[n..][..m]);
    } else if n == 0 {
      assert out[n..][..m] == out[..n + m];
    }
  }

  lemma AdvancedMore(ses: X.Session, n: nat, m: nat)
    requires n + m <= X.Pending(ses)
    ensures var a := X.Advanced(ses, n);
            && X.Pending(a) == X.Pending(ses) - n && a.fd == ses.fd && |X.Unsent(ses)| == X.Pending(ses)
            && X.Advanced(a, m) == X.Advanced(ses, n + m) && X.Unsent(a) == X.Unsent(ses)[n..]
  {
  }

  /** One more successful send is one longer write. */
  lemma WroteMore(s: X.State, fd: int, n: nat, m: nat, sends: seq<SendOutcome>, rest: seq<SendOutcome>)
    requires fd in s.sessions && n + m <= X.Pending(s.sessions[fd])
    ensures var t := X.Written(s, fd, X.Writing(n, sends, false));
            && fd in t.sessions && m <= X.Pending(t.sessions[fd])
            && X.Written(t, fd, X.Writing(m, rest, false)) == X.Written(s, fd, X.Writing(n + m, rest, false))
  {
    hide X.Handed, X.Unsent, X.Advanced, X.Pending;
    var ses := s.sessions[fd];
    AdvancedMore(ses, n, m);
    HandedMore(s.kernel, ses.fd, X.Unsent(ses), n, m);
    UpdateTwice(s.sessions, fd, X.Advanced(ses, n), X.Advanced(ses, n + m));
  }

  lemma UpdateTwice(sessions: map<int, X.Session>, fd: int, a: X.Session, b: X.Session)
    ensures sessions[fd := a][fd := b] == sessions[fd := b]
  {
  }

  lemma SomeName(names: set<string>)
    ensures names == {} || exists name :: name in names
  {
    if forall name :: name !in names {
      assert names == {};
    }
  }

  method AnyName(names: set<string>) returns (name: string)
    requires names != {}
    ensures name in names
  {
    SomeName(names);
    name :| name in names;
  }

  class ExchangeServer {
    const listener: int
    const book: OrderBook
    var sessions: map<int, X.Session>
    var subscribers: map<string, set<int>>
    var usernames: set<string>
    var closedFds: seq<int>
    var paused: bool
    var loop: map<int, Interest>
    var sends: seq<SendOutcome>
    var orders: seq<seq<int>>
    var kernel: X.Kernel
    ghost var hist: X.History

    ghost function Now(): X.State
      reads this, book
    {
      X.State(sessions, subscribers, usernames, closedFds, book.Abs(), paused, loop, listener, sends, orders, kernel, hist)
    }

    ghost predicate Valid()
      reads this, book
    {
      book.Valid()
    }

    constructor (listener: int, sends: seq<SendOutcome>, orders: seq<seq<int>>)
      ensures Valid() && fresh(book) && Now() == X.Initial(listener, sends, orders)
    {
      this.listener, this.sends, this.orders := listener, sends, orders;
      book := new OrderBook();
      sessions, subscribers, usernames, closedFds := map[], map[], {}, [];
      paused, loop := false, map[listener := Interest(true, false)];
      kernel, hist := X.Kernel(map[], [], [], false), X.History([], [], [], map[], [], []);
    }

    // ----- connection lifecycle

    method Drop(fd: int)
      requires Valid()
      modifies this, book
      ensures Valid() && Now() == X.Drop(old(Now()), fd)
      ensures fd in old(sessions) ==> OnlyOthers(Now().book.resting, old(Now()).book.resting, fd)
    {
      hide X.Drop, OnlyOthers;
      DropOthers(Now(), fd);
      Detach(fd);
    }

    /** Takes a session out of every table. */
    method Detach(fd: int)
      requires Valid()
      modifies this, book
      ensures Valid() && Now() == X.Drop(old(Now()), fd)
    {
      hide X.Unsubscribed, X.BookStep;
      if fd !in sessions {
        return;
      }
      var ses: X.Session := sessions[fd];
      Unsubscribe(fd, ses.subscriptions);
      if ses.loggedIn {
        usernames := usernames - {ses.username};
      }
      WithdrawOrders(fd);
      DropRest(old(Now()), Now(), fd);
      sessions := sessions - {fd};
      loop := loop - {fd};
      closedFds := closedFds + [fd];
    }

    /** Of the orders before, exactly those of other clients. */
    static ghost predicate OnlyOthers(after: seq<B.Order>, before: seq<B.Order>, fd: int) {
      forall o :: o in after <==> o in before && o.owner != fd
    }

    static lemma DropOthers(s: X.State, fd: int)
      ensures fd in s.sessions ==> OnlyOthers(X.Drop(s, fd).book.resting, s.book.resting, fd)
    {
      hide X.Drop;
      if fd in s.sessions {
        forall o ensures o in X.Drop(s, fd).book.resting <==> o in s.book.resting && o.owner != fd {
          D.DropTakesOwnOrders(s, fd, o);
        }
      }
    }

    method WithdrawOrders(fd: int)
      requires Valid()
      modifies this`hist, book
      ensures Valid() && Now() == X.BookStep(old(Now()), B.RemoveOwner(fd))
    {
      hide B.Apply, B.WellFormed, Listed, IndexSound, Represents;
      book.RemoveOrdersOf(fd);
      hist := hist.(ops := hist.ops + [B.RemoveOwner(fd)]);
    }

    /** Withdrawing orders concerns the book and its history only. */
    static lemma DropRest(s: X.State, t: X.State, fd: int)
      requires t == X.BookStep(s.(subscribers := t.subscribers, usernames := t.usernames), B.RemoveOwner(fd))
      ensures var u := X.BookStep(s, B.RemoveOwner(fd));
              t.book == u.book && t.hist == u.hist && t == u.(subscribers := t.subscribers, usernames := t.usernames)
    {
      hide B.Apply;
    }

    /** Erases a descriptor from the subscriber set of every instrument given. */
    method Unsubscribe(fd: int, instruments: set<string>)
      modifies this`subscribers
      ensures subscribers == X.Unsubscribed(old(subscribers), instruments, fd)
    {
      hide X.Unsubscribed;
      var todo := instruments;
      UnsubscribeNone(subscribers, fd);
      assert instruments - todo == {};
      while todo != {}
        invariant todo <= instruments
        invariant subscribers == X.Unsubscribed(old(subscribers), instruments - todo, fd)
        decreases |todo|
      {
        var i := AnyName(todo);
        UnsubscribeOne(old(subscribers), instruments - todo, i, fd);
        assert instruments - (todo - {i}) == (instruments - todo) + {i};
        subscribers := subscribers[i := (if i in subscribers then subscribers[i] else {}) - {fd}];
        todo := todo - {i};
      }
      assert instruments - {} == instruments;
    }

    lemma UnsubscribeNone(m: map<string, set<int>>, fd: int)
      ensures X.Unsubscribed(m, {}, fd) == m
    {
      var u := X.Unsubscribed(m, {}, fd);
      assert u.Keys == m.Keys;
      forall i | i in m ensures u[i] == m[i] {
        assert m[i] - {} == m[i];
      }
    }

    lemma UnsubscribeOne(m: map<string, set<int>>, done: set<string>, i: string, fd: int)
      ensures var u := X.Unsubscribed(m, done, fd);
              X.Unsubscribed(m, done + {i}, fd) == u[i := (if i in u then u[i] else {}) - {fd}]
    {
      var u, v := X.Unsubscribed(m, done, fd), X.Unsubscribed(m, done + {i}, fd);
      var w := u[i := (if i in u then u[i] else {}) - {fd}];
      assert v.Keys == w.Keys;
      forall k | k in v ensures v[k] == w[k] {}
    }

    method PauseAccepting()
      requires Valid()
      modifies this
      ensures Valid() && Now() == X.PauseAccepting(old(Now()))
    {
      if paused {
        return;
      }
      paused := true;
      loop := loop[listener := Interest(false, false)];
    }

    method ResumeAccepting(due: bool)
      requires Valid()
      modifies this
      ensures Valid() && Now() == X.ResumeAccepting(old(Now()), due)
    {
      if !paused || !due {
        return;
      }
      paused := false;
      loop := loop[listener := Interest(true, false)];
    }

    method AcceptPending(accepts: seq<AcceptOutcome>)
      requires Valid()
      modifies this
      ensures Valid() && Now() == X.AcceptPending(old(Now()), accepts)
    {
      hide X.OpenFd, X.Close;
      var i := 0;
      while i < |accepts|
        invariant Valid() && i <= |accepts|
        invariant X.AcceptPending(Now(), accepts[i..]) == X.AcceptPending(old(Now()), accepts)
      {
        assert accepts[i..][0] == accepts[i] && accepts[i..][1..] == accepts[i + 1..];
        match accepts[i] {
          case Connected(fd, registered) =>
            if fd < 0 || fd == listener || fd in kernel.table {
              return;
            }
            Admit(fd);
            if registered {
              loop := loop[fd := Interest(true, false)];
            } else {
              sessions := sessions - {fd};
              kernel := X.Close(kernel, fd);
            }
          case AcceptWouldBlock => return;
          case Exhausted =>
            PauseAccepting();
            return;
          case AcceptFailed => return;
        }
        i := i + 1;
      }
    }

    method Admit(fd: int)
      requires Valid()
      modifies this
      ensures Valid() && Now() == X.Admit(old(Now()), fd)
    {
      kernel := X.OpenFd(kernel, fd);
      if fd !in sessions {
        sessions := sessions[fd := X.NewSession(fd)];
      }
      hist := hist.(queued := hist.queued + [[]], chunks := hist.chunks + [[]], handled := hist.handled + [[]]);
    }

    method ReapClosed()
      requires Valid()
      modifies this
      ensures Valid() && Now() == X.ReapClosed(old(Now()))
    {
      CloseEach(closedFds);
      closedFds := [];
    }

    method CloseEach(fds: seq<int>)
      requires Valid()
      modifies this`kernel
      ensures Valid() && kernel == X.CloseAll(old(kernel), fds)
    {
      var i := 0;
      while i < |fds|
        invariant Valid() && i <= |fds| && X.CloseAll(kernel, fds[i..]) == X.CloseAll(old(kernel), fds)
      {
        assert fds[i..][0] == fds[i] && fds[i..][1..] == fds[i + 1..];
        kernel := X.Close(kernel, fds[i]);
        i := i + 1;
      }
    }

    method ShutdownAll()
      requires Valid()
      modifies this
      ensures Valid() && Now() == X.ShutdownAll(old(Now()))
    {
      hide X.CloseAll, X.Enumerate;
      var fds := X.Enumerate(if orders == [] then [] else orders[0], sessions.Keys);
      if orders != [] {
        orders := orders[1..];
      }
      CloseEach(fds);
      sessions := map[];
      ReapClosed();
    }

    // ----- output path

    method SendTo(fd: int, r: Response)
      requires Valid()
      modifies this, book
      ensures Valid() && Now() == X.SendTo(old(Now()), fd, r)
    {
      hide X.Flush, Render;
      if fd !in sessions {
        return;
      }
      var ses: X.Session := sessions[fd];
      sessions := sessions[fd := ses.(outbuf := ses.outbuf + Render(r))];
      hist := hist.(queued := X.Extend(hist.queued, X.Who(Now(), fd), [r]));
      Flush(fd);
    }

    /** The send loop of a flush. */
    method Write(fd: int) returns (failed: bool)
      requires Valid() && fd in sessions
      modifies this`sessions, this`sends, this`kernel
      ensures Valid() && fd in sessions
      ensures var w := X.WriteOut(X.Pending(old(sessions)[fd]), old(sends));
              failed == w.failed && Now() == X.Written(old(Now()), fd, w)
    {
      hide X.Written, X.WriteOut;
      ghost var was := Now();
      ghost var n: nat := 0;
      var blocked := false;
      failed := false;
      WroteNothing(was, fd);
      while X.Pending(sessions[fd]) > 0 && !blocked && !failed
        invariant Valid() && fd in sessions && n <= X.Pending(was.sessions[fd])
        invariant Now() == X.Written(was, fd, X.Writing(n, sends, false))
        invariant X.Pending(sessions[fd]) == X.Pending(was.sessions[fd]) - n
        invariant X.WriteOut(X.Pending(was.sessions[fd]), was.sends) ==
                  if blocked || failed then X.Writing(n, sends, failed)
                  else More(n, X.WriteOut(X.Pending(sessions[fd]), sends))
        decreases |sends|, !blocked
      {
        WriteStep(X.Pending(sessions[fd]), sends, n);
        if sends == [] {
          blocked := true;
        } else if sends[0].Wrote? && sends[0].count > 0 {
          var m := if sends[0].count < X.Pending(sessions[fd]) then sends[0].count else X.Pending(sessions[fd]);
          WroteMore(was, fd, n, m, sends, sends[1..]);
          PutBytes(fd, m);
          n := n + m;
        } else {
          DropOutcome(was, fd, n, sends);
          blocked, failed := sends[0].SendWouldBlock?, sends[0].SendFailed? || sends[0].Wrote?;
          sends := sends[1..];
        }
      }
      WriteStep(X.Pending(sessions[fd]), sends, n);
      WrittenIgnoresFailure(was, fd, n, sends, failed);
    }

    static function More(n: nat, w: X.Writing): X.Writing {
      w.(count := n + w.count)
    }

    /** What the next answer of the socket makes of a write that has got n bytes so far. */
    static lemma WriteStep(pending: nat, sends: seq<SendOutcome>, n: nat)
      ensures var w := More(n, X.WriteOut(pending, sends));
              if pending == 0 || sends == [] then w == X.Writing(n, sends, false)
              else match sends[0]
                case Wrote(count) =>
                  if count == 0 then w == X.Writing(n, sends[1..], true)
                  else var m := if count < pending then count else pending;
                       w == More(n + m, X.WriteOut(pending - m, sends[1..]))
                case SendInterrupted => w == More(n, X.WriteOut(pending, sends[1..]))
                case SendWouldBlock => w == X.Writing(n, sends[1..], false)
                case SendFailed => w == X.Writing(n, sends[1..], true)
    {
    }

    lemma WroteNothing(s: X.State, fd: int)
      requires fd in s.sessions
      ensures X.Written(s, fd, X.Writing(0, s.sends, false)) == s
    {
    }

    lemma WrittenIgnoresFailure(s: X.State, fd: int, n: nat, sends: seq<SendOutcome>, failed: bool)
      requires fd in s.sessions && n <= X.Pending(s.sessions[fd])
      ensures X.Written(s, fd, X.Writing(n, sends, failed)) == X.Written(s, fd, X.Writing(n, sends, false))
    {
    }

    lemma DropOutcome(s: X.State, fd: int, n: nat, sends: seq<SendOutcome>)
      requires fd in s.sessions && n <= X.Pending(s.sessions[fd]) && sends != []
      ensures var t := X.Written(s, fd, X.Writing(n, sends, false));
              X.Written(s, fd, X.Writing(n, sends[1..], false)) == t.(sends := sends[1..])
    {
    }

    /** A successful send: the bytes go out and the buffer's start moves past them. */
    method PutBytes(fd: int, m: nat)
      requires Valid() && fd in sessions && 0 < m <= X.Pending(sessions[fd]) && sends != []
      modifies this`sessions, this`sends, this`kernel
      ensures Valid() && Now() == X.Written(old(Now()), fd, X.Writing(m, old(sends)[1..], false))
      ensures fd in sessions && X.Pending(sessions[fd]) == X.Pending(old(sessions)[fd]) - m && sends == old(sends)[1..]
    {
      var ses: X.Session := sessions[fd];
      sends := sends[1..];
      kernel := X.Transmit(kernel, ses.fd, X.Unsent(ses)[..m]);
      sessions := sessions[fd := ses.(outStart := ses.outStart + m)];
    }

    method Flush(fd: int)
      requires Valid() && fd in sessions
      modifies this, book
      ensures Valid() && Now() == X.Flush(old(Now()), fd)
    {
      hide X.Written, X.WriteOut, X.Settle, X.Drop;
      var own := sessions[fd].fd;
      var failed := Write(fd);
      if failed {
        Drop(own);
      } else {
        Settle(fd);
      }
    }

    /** Moves the unwritten part of the output to the front, once enough of it lies behind. */
    method Compact(ses: X.Session) returns (c: X.Session)
      ensures c == X.Compact(ses)
    {
      c := ses;
      if X.Pending(c) == 0 {
        c := c.(outbuf := "", outStart := 0);
      } else if c.outStart > READ_CHUNK {
        c := c.(outbuf := c.outbuf[c.outStart..], outStart := 0);
      }
    }

    /** What a flush does once the socket takes no more. */
    method Settle(fd: int)
      requires Valid() && fd in sessions
      modifies this, book
      ensures Valid() && Now() == X.Settle(old(Now()), fd)
    {
      hide X.Drop, X.Compact;
      var ses := Compact(sessions[fd]);
      var pending := X.Pending(ses);
      if pending > X.MAX_OUTPUT || (pending == 0 && ses.closing) {
        sessions := sessions[fd := ses];
        Drop(ses.fd);
        return;
      }
      var wantRead, wantWrite := !ses.closing, pending > 0;
      if wantRead != ses.readInterest || wantWrite != ses.writeInterest {
        loop := loop[ses.fd := Interest(wantRead, wantWrite)];
      }
      ses := ses.(backlogged := pending > 0, readInterest := wantRead, writeInterest := wantWrite);
      sessions := sessions[fd := ses];
    }

    // ----- protocol

    method BeginOrderlyClose(fd: int)
      requires Valid()
      modifies this, book
      ensures Valid() && Now() == X.BeginOrderlyClose(old(Now()), fd)
    {
      hide X.Drop;
      if fd !in sessions {
        return;
      }
      var ses: X.Session := sessions[fd];
      ses := ses.(closing := true, inbuf := "");
      sessions := sessions[fd := ses];
      if X.Pending(ses) == 0 {
        Drop(fd);
        return;
      }
      sessions := sessions[fd := ses.(readInterest := false, writeInterest := true)];
      loop := loop[fd := Interest(false, true)];
    }

    method RejectWrongRole(fd: int, required: ClientRole, kind: CommandType) returns (rejected: bool)
      requires Valid() && fd in sessions
      modifies this, book
      ensures Valid() && rejected == X.WrongRole(old(Now()), fd, required)
      ensures Now() == if rejected then X.Refuse(old(Now()), fd, NotPermitted(kind, old(sessions)[fd].role)) else old(Now())
    {
      hide X.SendTo;
      var role := sessions[fd].role;
      rejected := role != Undecided && role != required;
      if rejected {
        SendTo(fd, Error(NotPermitted(kind, role)));
      }
    }

    method HandleLogin(fd: int, cmd: ParsedCommand)
      requires Valid() && fd in sessions && |cmd.args| == 1
      modifies this, book
      ensures Valid() && Now() == X.HandleLogin(old(Now()), fd, cmd)
    {
      hide X.SendTo;
      var rejected := RejectWrongRole(fd, Trader, cmd.kind);
      if rejected {
        return;
      }
      var ses: X.Session := sessions[fd];
      var username := cmd.args[0];
      if ses.loggedIn {
        SendTo(fd, Error(AlreadyLoggedIn(ses.username)));
      } else if username in usernames {
        SendTo(fd, Error(UsernameTaken(username)));
      } else {
        sessions := sessions[fd := ses.(role := Trader, username := username, loggedIn := true)];
        usernames := usernames + {username};
        SendTo(fd, Ok);
      }
    }

    method HandleSubscription(fd: int, cmd: ParsedCommand)
      requires Valid() && fd in sessions
      modifies this, book
      ensures Valid() && Now() == X.HandleSubscription(old(Now()), fd, cmd)
    {
      hide X.SendTo, X.Subscribed, X.Departed;
      var rejected := RejectWrongRole(fd, MarketData, cmd.kind);
      if rejected {
        return;
      }
      var subscribing := cmd.kind == Subscribe;
      if !subscribing && cmd.instrument !in sessions[fd].subscriptions {
        SendTo(fd, Error(NotSubscribed(cmd.instrument)));
        return;
      }
      if subscribing {
        Join(fd, cmd.instrument);
      } else {
        Leave(fd, cmd.instrument);
      }
      SendTo(fd, Ok);
    }

    method Join(fd: int, instrument: string)
      requires Valid() && fd in sessions && sessions[fd].role != Trader
      modifies this`sessions, this`subscribers, this`hist
      ensures Valid() && Now() == X.Subscribed(old(Now()), fd, instrument)
    {
      hide X.Enrolled;
      var members := if instrument in subscribers then subscribers[instrument] else {};
      Enroll(fd, instrument, sessions[fd].subscriptions + {instrument}, members + {fd}, X.Joined(X.Who(Now(), fd), instrument));
    }

    method Leave(fd: int, instrument: string)
      requires Valid() && fd in sessions && sessions[fd].role != Trader
      modifies this`sessions, this`subscribers, this`hist
      ensures Valid() && Now() == X.Departed(old(Now()), fd, instrument)
    {
      hide X.Enrolled;
      var members := if instrument in subscribers then subscribers[instrument] else {};
      Enroll(fd, instrument, sessions[fd].subscriptions - {instrument}, members - {fd}, X.Parted(X.Who(Now(), fd), instrument));
    }

    /** The first subscription fixes the role. */
    method Enroll(fd: int, instrument: string, subscriptions: set<string>, members: set<int>, ghost note: X.Note)
      requires Valid() && fd in sessions && sessions[fd].role != Trader
      modifies this`sessions, this`subscribers, this`hist
      ensures Valid() && Now() == X.Enrolled(old(Now()), fd, instrument, subscriptions, members, note)
    {
      var ses: X.Session := sessions[fd];
      var role := if ses.role == Undecided then MarketData else ses.role;
      sessions := sessions[fd := ses.(role := role, subscriptions := subscriptions)];
      subscribers := subscribers[instrument := members];
      hist := hist.(tape := hist.tape + [note]);
    }

    /** Tells whether a client may trade, and tells the client if not. */
    method RequireLoggedInTrader(fd: int, kind: CommandType) returns (ok: bool)
      requires Valid() && fd in sessions
      modifies this, book
      ensures Valid() && ok == (X.TradingBar(old(Now()), fd, kind) == [])
      ensures Now() == if ok then old(Now()) else X.Refuse(old(Now()), fd, X.TradingBar(old(Now()), fd, kind)[0])
    {
      hide X.SendTo;
      var rejected := RejectWrongRole(fd, Trader, kind);
      if rejected {
        return false;
      }
      ok := sessions[fd].loggedIn;
      if !ok {
        SendTo(fd, Error(NotLoggedIn));
      }
    }

    method HandleOrder(fd: int, cmd: ParsedCommand)
      requires Valid() && fd in sessions
      modifies this, book
      ensures Valid() && Now() == X.HandleOrder(old(Now()), fd, cmd)
    {
      hide X.SendTo, X.PublishAll, X.TradingBar, B.Apply, Executions;
      var ok := RequireLoggedInTrader(fd, cmd.kind);
      if !ok {
        return;
      }
      var orderId, executions := Submit(fd, cmd);
      SendTo(fd, OrderAccepted(orderId));
      PublishAll(fd, executions);
    }

    /** Enters an order into the book. */
    method Submit(fd: int, cmd: ParsedCommand) returns (orderId: int, executions: seq<TradeExecution>)
      requires Valid()
      modifies this`hist, book
      ensures Valid() && Now() == X.Submitted(old(Now()), fd, X.OrderOp(fd, cmd))
      ensures orderId == old(Now()).book.nextId
      ensures executions == Executions(B.Apply(old(Now()).book, X.OrderOp(fd, cmd)).fills)
    {
      hide B.Apply, Executions, B.WellFormed, Listed, IndexSound, Represents;
      var side := if cmd.kind == BuyCommand then B.Buy else B.Sell;
      ghost var who := X.Who(Now(), fd);
      orderId, executions := book.AddOrder(fd, cmd.instrument, side, cmd.quantity, cmd.price);
      hist := hist.(submitter := hist.submitter[orderId := who], ops := hist.ops + [X.OrderOp(fd, cmd)]);
    }

    /** Publishes execution after execution until the submitter is found gone. */
    method PublishAll(fd: int, executions: seq<TradeExecution>)
      requires Valid()
      modifies this, book
      ensures Valid() && Now() == X.PublishAll(old(Now()), fd, executions)
    {
      hide X.Publish;
      var i := 0;
      while i < |executions|
        invariant Valid() && i <= |executions|
        invariant X.PublishAll(Now(), fd, executions[i..]) == X.PublishAll(old(Now()), fd, executions)
      {
        assert executions[i..][0] == executions[i] && executions[i..][1..] == executions[i + 1..];
        Publish(executions[i]);
        if fd !in sessions {
          return;
        }
        i := i + 1;
      }
    }

    method Publish(x: TradeExecution)
      requires Valid()
      modifies this, book
      ensures Valid() && Now() == X.Publish(old(Now()), x)
    {
      hide X.SendTo, X.FanOut, X.Enumerate;
      SendTo(x.buyer, Bought(x.instrument, x.quantity, x.price));
      SendTo(x.seller, Sold(x.instrument, x.quantity, x.price));
      hist := hist.(tape := hist.tape + [X.Announced(x.instrument, x.quantity, x.price)]);
      if x.instrument !in subscribers {
        return;
      }
      var targets := X.Enumerate(if orders == [] then [] else orders[0], subscribers[x.instrument]);
      if orders != [] {
        orders := orders[1..];
      }
      FanOut(targets, Trade(x.instrument, x.quantity, x.price));
    }

    /** Delivers to a copy of the subscriber set. */
    method FanOut(targets: seq<int>, r: Response)
      requires Valid()
      modifies this, book
      ensures Valid() && Now() == X.FanOut(old(Now()), targets, r)
    {
      hide X.SendTo;
      var i := 0;
      while i < |targets|
        invariant Valid() && i <= |targets|
        invariant X.FanOut(Now(), targets[i..], r) == X.FanOut(old(Now()), targets, r)
      {
        assert targets[i..][0] == targets[i] && targets[i..][1..] == targets[i + 1..];
        SendTo(targets[i], r);
        i := i + 1;
      }
    }

    method HandleCancel(fd: int, cmd: ParsedCommand)
      requires Valid() && fd in sessions
      modifies this, book
      ensures Valid() && Now() == X.HandleCancel(old(Now()), fd, cmd)
    {
      hide X.SendTo, X.TradingBar, X.CancelAnswer, B.Apply, B.WellFormed, Listed, IndexSound, Represents;
      var ok := RequireLoggedInTrader(fd, cmd.kind);
      if !ok {
        return;
      }
      ghost var was := Now();
      var done, known := book.CancelOrder(cmd.orderId, fd);
      hist := hist.(ops := hist.ops + [B.Cancel(cmd.orderId, fd)]);
      CancelAnswerIs(was.book, fd, cmd.orderId, done, known);
      if done {
        SendTo(fd, OrderCancelled(cmd.orderId));
      } else if known {
        SendTo(fd, Error(AnothersOrder(cmd.orderId)));
      } else {
        SendTo(fd, Error(NoSuchOrder(cmd.orderId)));
      }
    }

    static lemma CancelAnswerIs(b: B.Book, fd: int, id: int, done: bool, known: bool)
      requires known <==> exists o :: o in b.resting && o.id == id
      requires done <==> exists o :: o in b.resting && B.Meets(o, B.Own(id, fd))
      ensures X.CancelAnswer(b, fd, id) ==
              if done then OrderCancelled(id) else if known then Error(AnothersOrder(id)) else Error(NoSuchOrder(id))
    {
      var mine := B.Select(b.resting, B.Own(id, fd));
      forall o ensures o in mine <==> o in b.resting && B.Meets(o, B.Own(id, fd)) {
        B.SelectMembers(b.resting, B.Own(id, fd), o);
      }
      if mine != [] {
        var o := mine[0];
        assert o in mine;
      }
      if i :| 0 <= i < |b.resting| && b.resting[i].id == id {
        var o := b.resting[i];
        assert o in b.resting;
      }
      if o :| o in b.resting && o.id == id {
        var i :| 0 <= i < |b.resting| && b.resting[i] == o;
      }
    }

    method HandleMessage(fd: int, line: string)
      requires Valid() && fd in sessions
      modifies this, book
      ensures Valid() && Now() == X.HandleMessage(old(Now()), fd, line)
    {
      hide X.SendTo, X.HandleLogin, X.HandleSubscription, X.HandleOrder, X.HandleCancel, X.BeginOrderlyClose, Parse,
           IsValidInstrument, IsWord, PlainReason;
      var cmd := Parse(line);
      ParseWellParsed(line);
      if !cmd.valid {
        SendTo(fd, Error(cmd.error));
        return;
      }
      match cmd.kind {
        case Quit => BeginOrderlyClose(fd);
        case Login => HandleLogin(fd, cmd);
        case Subscribe => HandleSubscription(fd, cmd);
        case Unsubscribe => HandleSubscription(fd, cmd);
        case BuyCommand => HandleOrder(fd, cmd);
        case SellCommand => HandleOrder(fd, cmd);
        case CancelCommand => HandleCancel(fd, cmd);
        case Unknown => assert false;
      }
    }

    // ----- input path

    /** A line may end in a carriage return, which is not part of it. */
    static method Strip(raw: string) returns (line: string)
      ensures line == StripCr(raw)
    {
      line := raw;
      if line != "" && line[|line| - 1] == '\r' {
        line := line[..|line| - 1];
      }
    }

    /** Takes the first complete line off a session's buffer. */
    method TakeLine(fd: int) returns (line: string)
      requires Valid() && fd in sessions && Newline(sessions[fd].inbuf) < |sessions[fd].inbuf|
      modifies this`sessions, this`hist
      ensures Valid() && Now() == R.TakeLine(old(Now()), fd) && line == FirstLine(old(sessions)[fd].inbuf)
    {
      hide Newline, StripCr;
      var ses: X.Session := sessions[fd];
      line := Strip(ses.inbuf[..Newline(ses.inbuf)]);
      hist := hist.(handled := X.Extend(hist.handled, X.Who(Now(), fd), [line]));
      sessions := sessions[fd := ses.(inbuf := ses.inbuf[Newline(ses.inbuf) + 1..])];
    }

    /** Handles every complete line of a session's buffer; false if there is no more to read. */
    method ConsumeMessages(fd: int) returns (more: bool)
      requires Valid() && X.Keyed(Now())
      modifies this, book
      ensures Valid() && R.Consumed(Now(), more) == R.ConsumeMessages(old(Now()), fd)
    {
      hide X.HandleMessage, X.SendTo, X.BeginOrderlyClose, X.Keyed, R.TakeLine, R.Onward, Newline;
      while true
        invariant Valid() && X.Keyed(Now()) && R.ConsumeMessages(Now(), fd) == R.ConsumeMessages(old(Now()), fd)
        decreases if fd in sessions then |sessions[fd].inbuf| else 0
      {
        if fd !in sessions {
          return false;
        }
        var inbuf := sessions[fd].inbuf;
        if Newline(inbuf) == |inbuf| {
          more := |inbuf| <= MAX_LINE;
          if !more {
            SendTo(fd, Error(LineTooLong));
            BeginOrderlyClose(fd);
          }
          return;
        }
        ghost var was := Now();
        T.TakeLineKeyed(was, fd);
        var line := TakeLine(fd);
        TakenBuffer(was, fd);
        R.HandleMessageOnward(Now(), fd, line);
        HandleMessage(fd, line);
        if fd !in sessions {
          return false;
        }
        if sessions[fd].closing {
          return true;
        }
      }
    }

    static lemma TakenBuffer(s: X.State, fd: int)
      requires fd in s.sessions && Newline(s.sessions[fd].inbuf) < |s.sessions[fd].inbuf|
      ensures var t := R.TakeLine(s, fd);
              fd in t.sessions && |t.sessions[fd].inbuf| < |s.sessions[fd].inbuf|
    {
    }

    method Receive(fd: int, bytes: string)
      requires Valid() && fd in sessions
      modifies this`sessions, this`hist
      ensures Valid() && Now() == R.Receive(old(Now()), fd, bytes)
    {
      var ses: X.Session := sessions[fd];
      hist := hist.(chunks := X.Extend(hist.chunks, X.Who(Now(), fd), [bytes]));
      sessions := sessions[fd := ses.(inbuf := ses.inbuf + bytes)];
    }

    method OnReadable(fd: int, recvs: seq<RecvOutcome>)
      requires Valid() && X.Keyed(Now())
      modifies this, book
      ensures Valid() && Now() == R.OnReadable(old(Now()), fd, recvs)
    {
      hide X.BeginOrderlyClose, X.Drop, R.ConsumeMessages, R.Receive, X.Keyed;
      var i := 0;
      while i < |recvs|
        invariant Valid() && X.Keyed(Now()) && i <= |recvs|
        invariant R.OnReadable(Now(), fd, recvs[i..]) == R.OnReadable(old(Now()), fd, recvs)
      {
        assert recvs[i..][0] == recvs[i] && recvs[i..][1..] == recvs[i + 1..];
        if fd !in sessions || sessions[fd].closing {
          return;
        }
        match recvs[i] {
          case Received(bytes) =>
            if bytes == "" {
              BeginOrderlyClose(fd);
              return;
            }
            var chunk := Clip(bytes, READ_CHUNK);
            ReceiveKeyed(Now(), fd, chunk);
            Receive(fd, chunk);
            var more := ConsumeMessages(fd);
            if !more || |chunk| < READ_CHUNK {
              return;
            }
          case RecvInterrupted =>
          case RecvWouldBlock => return;
          case RecvFailed =>
            Drop(fd);
            return;
        }
        i := i + 1;
      }
    }

    static lemma ReceiveKeyed(s: X.State, fd: int, bytes: string)
      requires X.Keyed(s) && fd in s.sessions
      ensures X.Keyed(R.Receive(s, fd, bytes))
    {
    }

    method OnWritable(fd: int)
      requires Valid()
      modifies this, book
      ensures Valid() && Now() == if fd in old(sessions) then X.Flush(old(Now()), fd) else old(Now())
    {
      hide X.Flush;
      if fd in sessions {
        Flush(fd);
      }
    }

    // ----- the loop

    method ProcessEvent(r: R.Ready)
      requires Valid() && X.Keyed(Now())
      modifies this, book
      ensures Valid() && Now() == R.ProcessEvent(old(Now()), r)
    {
      hide X.AcceptPending, X.Flush, X.Drop, R.OnReadable, X.Keyed;
      var fd := r.event.fd;
      if fd == listener {
        AcceptPending(r.accepts);
        return;
      }
      if fd !in sessions {
        return;
      }
      S.FlushOnward(Now(), fd);
      if r.event.writable {
        OnWritable(fd);
      }
      if fd !in sessions {
        return;
      }
      if r.event.readable {
        OnReadable(fd, r.recvs);
      }
      if fd !in sessions {
        return;
      }
      if r.event.hangup {
        Drop(fd);
      }
    }

    /**
    One turn of the loop, which keeps every invariant of the server; the descriptors it dropped are closed
    only after its last event.
    */
    method Turn(b: R.Batch)
      requires Valid() && X.Keyed(Now()) && S.Invariant(Now())
      modifies this, book
      ensures Valid() && Now() == R.Turn(old(Now()), b) && S.Invariant(Now())
    {
      hide R.ProcessEvent, X.ReapClosed, R.Reported, S.Invariant;
      S.TurnInvariant(Now(), b);
      var ready := R.Reported(b.ready, loop);
      ResumeAccepting(b.due);
      ghost var was := Now();
      var i := 0;
      while i < |ready|
        invariant Valid() && X.Keyed(Now()) && i <= |ready|
        invariant R.ProcessAll(Now(), ready[i..]) == R.ProcessAll(was, ready)
      {
        assert ready[i..][0] == ready[i] && ready[i..][1..] == ready[i + 1..];
        ProcessEvent(ready[i]);
        i := i + 1;
      }
      ReapClosed();
    }

    /**
    A whole run, from start to shutdown: it ends where the state machine says, with every connection ever
    accepted closed exactly once, and nothing ever closed or written that was not open.
    */
    method Run(batches: seq<R.Batch>)
      requires Valid() && Now() == X.Initial(listener, sends, orders)
      modifies this, book
      ensures Valid()
      ensures X.Keyed(old(Now())) && Now() == X.ShutdownAll(R.Turns(old(Now()), batches))
      ensures (forall fd :: fd !in kernel.table) && !kernel.fault
      ensures Distinct(kernel.closed) && forall w :: w in kernel.closed <==> 0 <= w < |R.Turns(old(Now()), batches).kernel.wire|
    {
      hide R.Turn, X.ShutdownAll, S.Invariant;
      ghost var was := Now();
      S.InitialInvariant(listener, sends, orders);
      var i := 0;
      assert batches[..0] == [];
      while i < |batches|
        invariant Valid() && X.Keyed(Now()) && S.Invariant(Now()) && X.Keyed(was) && i <= |batches| && Now() == R.Turns(was, batches[..i])
      {
        assert batches[..i + 1][..i] == batches[..i];
        Turn(batches[i]);
        i := i + 1;
      }
      assert batches[..|batches|] == batches;
      T.ShutdownClosesEverything(Now());
      ShutdownAll();
    }
  }
}
