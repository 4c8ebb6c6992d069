/** Every command but QUIT and an accepted order is answered exactly once, to the requester alone. */
module Answers {
  import opened Protocol
  import opened Exchange
  import opened Loop
  import opened Invariants
  import opened Announcements
  import opened Safety
  import OrderBooks
  import B = Book
  import L = Ledger

  // ----- every other command is answered once

  /** A command of the other role, from a client whose role is decided. */
  predicate Barred(ses: Session, kind: CommandType) {
    || (ses.role == Trader && (kind == Subscribe || kind == Unsubscribe))
    || (ses.role == MarketData && (kind == Login || kind == BuyCommand || kind == SellCommand || kind == CancelCommand))
  }

  predicate IsTrading(kind: CommandType) {
    kind == BuyCommand || kind == SellCommand || kind == CancelCommand
  }

  /** From s to t only the requester's connection was queued anything, namely one response. */
  predicate Answered(s: State, t: State, fd: int, x: int, r: Response) {
    Who(t, x) == Who(s, x) && Mailed(s, t, x, if x == fd then [r] else [])
  }

  lemma AnsweredAfter(s: State, u: State, fd: int, x: int, r: Response)
    requires Tables(s) && Tables(u) && fd in s.sessions && x in s.kernel.table
    requires u.sessions.Keys == s.sessions.Keys && u.kernel == s.kernel && u.hist.queued == s.hist.queued
    ensures Answered(s, SendTo(u, fd, r), fd, x, r)
  {
    hide SendTo, Tables, Apart;
    TablesApart(u);
    SendToMail(u, fd, r, x);
  }

  /** A command of the other role is refused, and nothing else happens. */
  lemma BarredRefused(s: State, fd: int, cmd: ParsedCommand)
    requires fd in s.sessions && WellParsed(cmd) && cmd.valid && Barred(s.sessions[fd], cmd.kind)
    ensures HandleCommand(s, fd, cmd) == Refuse(s, fd, NotPermitted(cmd.kind, s.sessions[fd].role))
  {
    hide SendTo, BookStep, LoggedIn, Subscribed, Departed, PublishAll, Submitted;
  }

  /**
  Apart from QUIT and accepted orders, a command is answered with exactly one response, to the requester
  alone; and a command of the other role with a refusal.
  */
  lemma CommandAnswered(s: State, fd: int, cmd: ParsedCommand, x: int) returns (r: Response)
    requires Sound(s) && fd in s.sessions && WellParsed(cmd) && x in s.kernel.table
    requires cmd.valid ==> cmd.kind != Quit
    requires cmd.valid && (cmd.kind == BuyCommand || cmd.kind == SellCommand) ==> TradingBar(s, fd, cmd.kind) != []
    ensures Answered(s, HandleCommand(s, fd, cmd), fd, x, r)
    ensures cmd.valid && Barred(s.sessions[fd], cmd.kind) ==> r == Error(NotPermitted(cmd.kind, s.sessions[fd].role))
    ensures !cmd.valid ==> r == Error(cmd.error)
    ensures cmd.valid && s.sessions[fd].role == Undecided && IsTrading(cmd.kind) ==> r == Error(NotLoggedIn)
  {
    SoundBasics(s);
    hide Sound, SendTo, Tables, Answered, CancelAnswer, BookStep, HandleLogin, HandleSubscription, TradingBar, Keyed,
         IsValidInstrument;
    if !cmd.valid {
      r := Error(cmd.error);
      AnsweredAfter(s, s, fd, x, r);
    } else if Barred(s.sessions[fd], cmd.kind) {
      r := Error(NotPermitted(cmd.kind, s.sessions[fd].role));
      BarredRefused(s, fd, cmd);
      AnsweredAfter(s, s, fd, x, r);
    } else {
      r := PermittedAnswered(s, fd, cmd, x);
    }
  }

  lemma PermittedAnswered(s: State, fd: int, cmd: ParsedCommand, x: int) returns (r: Response)
    requires Tables(s) && fd in s.sessions && WellParsed(cmd) && x in s.kernel.table
    requires cmd.valid && cmd.kind != Quit && !Barred(s.sessions[fd], cmd.kind)
    requires cmd.kind == BuyCommand || cmd.kind == SellCommand ==> TradingBar(s, fd, cmd.kind) != []
    ensures Answered(s, HandleCommand(s, fd, cmd), fd, x, r)
    ensures s.sessions[fd].role == Undecided && IsTrading(cmd.kind) ==> r == Error(NotLoggedIn)
  {
    hide SendTo, Tables, Answered, HandleLogin, HandleSubscription, TradingBar, WellParsed, HandleCancel, HandleOrder;
    if cmd.kind == Login {
      r := LoginAnswered(s, fd, cmd, x);
    } else if cmd.kind == Subscribe || cmd.kind == Unsubscribe {
      r := SubscriptionAnswered(s, fd, cmd, x);
    } else {
      assert cmd.kind != Unknown by { NeverUnknown(cmd); }
      r := TradingAnswered(s, fd, cmd, x);
    }
  }

  lemma NeverUnknown(cmd: ParsedCommand)
    requires WellParsed(cmd) && cmd.valid
    ensures cmd.kind != Unknown
  {
  }

  lemma TradingAnswered(s: State, fd: int, cmd: ParsedCommand, x: int) returns (r: Response)
    requires Tables(s) && fd in s.sessions && x in s.kernel.table && IsTrading(cmd.kind)
    requires cmd.kind != CancelCommand ==> TradingBar(s, fd, cmd.kind) != []
    ensures Answered(s, if cmd.kind == CancelCommand then HandleCancel(s, fd, cmd) else HandleOrder(s, fd, cmd), fd, x, r)
    ensures s.sessions[fd].role == Undecided ==> r == Error(NotLoggedIn)
  {
    hide SendTo, Tables, Answered, TradingBar, HandleCancel, HandleOrder, CancelAnswer;
    BarOf(s, fd, cmd.kind);
    if TradingBar(s, fd, cmd.kind) != [] {
      r := Error(TradingBar(s, fd, cmd.kind)[0]);
      AnsweredAfter(s, s, fd, x, r);
      BarAnswered(s, fd, cmd);
    } else {
      r := CancelAnswer(s.book, fd, cmd.orderId);
      CancelAnswered(s, fd, cmd, x);
    }
  }

  lemma BarOf(s: State, fd: int, kind: CommandType)
    requires Tables(s) && fd in s.sessions
    ensures s.sessions[fd].role == Undecided ==> TradingBar(s, fd, kind) == [NotLoggedIn]
  {
    hide Descriptors, Subscriptions, Names, Orders;
    assert Role(s.sessions[fd]);
  }

  lemma BarAnswered(s: State, fd: int, cmd: ParsedCommand)
    requires fd in s.sessions && TradingBar(s, fd, cmd.kind) != []
    ensures HandleCancel(s, fd, cmd) == HandleOrder(s, fd, cmd) == SendTo(s, fd, Error(TradingBar(s, fd, cmd.kind)[0]))
  {
    hide SendTo, TradingBar;
  }

  lemma CancelAnswered(s: State, fd: int, cmd: ParsedCommand, x: int)
    requires Tables(s) && fd in s.sessions && x in s.kernel.table && TradingBar(s, fd, cmd.kind) == []
    ensures Answered(s, HandleCancel(s, fd, cmd), fd, x, CancelAnswer(s.book, fd, cmd.orderId))
  {
    hide SendTo, Tables, Answered, CancelAnswer, BookStep, TradingBar;
    var op := B.Cancel(cmd.orderId, fd);
    CancelledTables(s, op);
    SubmittedOnly(s, fd, op);
    AnsweredAfter(s, BookStep(s, op), fd, x, CancelAnswer(s.book, fd, cmd.orderId));
  }

  lemma SubscribedOnly(s: State, fd: int, name: string)
    requires fd in s.sessions
    ensures var u := Subscribed(s, fd, name);
            u.sessions.Keys == s.sessions.Keys && u.kernel == s.kernel && u.hist.queued == s.hist.queued
    ensures var u := Departed(s, fd, name);
            u.sessions.Keys == s.sessions.Keys && u.kernel == s.kernel && u.hist.queued == s.hist.queued
    ensures var u := LoggedIn(s, fd, name);
            u.sessions.Keys == s.sessions.Keys && u.kernel == s.kernel && u.hist.queued == s.hist.queued
  {
  }

  lemma LoginAnswered(s: State, fd: int, cmd: ParsedCommand, x: int) returns (r: Response)
    requires Tables(s) && fd in s.sessions && WellParsed(cmd) && cmd.valid && cmd.kind == Login && x in s.kernel.table
    requires s.sessions[fd].role != MarketData
    ensures Answered(s, HandleLogin(s, fd, cmd), fd, x, r)
    ensures r == if s.sessions[fd].loggedIn then Error(AlreadyLoggedIn(s.sessions[fd].username))
                 else if cmd.args[0] in s.usernames then Error(UsernameTaken(cmd.args[0])) else Ok
  {
    hide SendTo, Tables, Answered, LoggedIn;
    var ses, name := s.sessions[fd], cmd.args[0];
    WordPlain(name);
    if !ses.loggedIn && name !in s.usernames {
      LoggedInTables(s, fd, name);
      SubscribedOnly(s, fd, name);
      r := Ok;
      AnsweredAfter(s, LoggedIn(s, fd, name), fd, x, r);
    } else {
      r := Error(if ses.loggedIn then AlreadyLoggedIn(ses.username) else UsernameTaken(name));
      AnsweredAfter(s, s, fd, x, r);
    }
  }

  lemma SubscriptionAnswered(s: State, fd: int, cmd: ParsedCommand, x: int) returns (r: Response)
    requires Tables(s) && fd in s.sessions && x in s.kernel.table && s.sessions[fd].role != Trader
    ensures Answered(s, HandleSubscription(s, fd, cmd), fd, x, r)
    ensures r == if cmd.kind == Subscribe || cmd.instrument in s.sessions[fd].subscriptions then Ok
                 else Error(NotSubscribed(cmd.instrument))
  {
    hide SendTo, Tables, Answered, Subscribed, Departed;
    RoleOf(s, fd);
    SubscribedOnly(s, fd, cmd.instrument);
    if cmd.kind == Subscribe {
      r := Ok;
      SubscribedTables(s, fd, cmd.instrument);
      AnsweredAfter(s, Subscribed(s, fd, cmd.instrument), fd, x, r);
    } else if cmd.instrument in s.sessions[fd].subscriptions {
      r := Ok;
      DepartedTables(s, fd, cmd.instrument);
      AnsweredAfter(s, Departed(s, fd, cmd.instrument), fd, x, r);
    } else {
      r := Error(NotSubscribed(cmd.instrument));
      AnsweredAfter(s, s, fd, x, r);
    }
  }

  /** A resting order with this id. */
  predicate Rests(b: B.Book, id: int) {
    exists i :: 0 <= i < |b.resting| && b.resting[i].id == id
  }

  /**
  A cancel succeeds exactly when an order with that id is resting and was submitted by this very connection,
  whatever descriptor numbers have been reused; then that order and no other leaves the book.
  */
  lemma CancelIsExact(s: State, fd: int, id: int, other: int)
    requires Tables(s) && fd in s.sessions
    ensures var a, b := CancelAnswer(s.book, fd, id), BookStep(s, B.Cancel(id, fd)).book;
            && (a == OrderCancelled(id) <==>
                  Rests(s.book, id) && id in s.hist.submitter && s.hist.submitter[id] == Who(s, fd))
            && (a == Error(NoSuchOrder(id)) <==> !Rests(s.book, id))
            && (a == OrderCancelled(id) ==> !Rests(b, id))
            && (a != OrderCancelled(id) ==> b == s.book)
            && (other != id ==> L.QuantityOf(b.resting, other) == L.QuantityOf(s.book.resting, other))
  {
    hide Subscriptions, Names, Roles, B.Run, B.Select;
    var own := B.Own(id, fd);
    var mine, rest := B.Select(s.book.resting, own), B.Select(s.book.resting, B.Not(own));
    forall o | o in s.book.resting && o.id == id ensures o.owner == fd <==> s.hist.submitter[id] == Who(s, fd) {
      assert Owned(s, o);
    }
    MineOrNone(s.book.resting, own);
    if mine != [] {
      var o := mine[0];
      assert o in mine;
      B.SelectMembers(s.book.resting, own, o);
      var i :| 0 <= i < |s.book.resting| && s.book.resting[i] == o;
      OnlyMine(s, id, fd, o);
    } else if i :| 0 <= i < |s.book.resting| && s.book.resting[i].id == id {
      var o := s.book.resting[i];
      assert o in s.book.resting;
      B.SelectMembers(s.book.resting, own, o);
    }
    L.QuantitySplit(s.book.resting, own, other);
    if other != id {
      OtherIds(s.book.resting, own, other);
    }
  }

  lemma MineOrNone(orders: seq<B.Order>, p: B.Pick)
    ensures B.Select(orders, p) == [] ==> B.Select(orders, B.Not(p)) == orders
  {
    if B.Select(orders, p) == [] {
      forall j | 0 <= j < |orders| ensures !B.Meets(orders[j], p) {
        var o := orders[j];
        assert o in orders;
        B.SelectMembers(orders, p, o);
      }
      OrderBooks.SelectNone(orders, p);
    }
  }

  /** Ids are unique, so when the requester's order is taken out none with that id is left. */
  lemma OnlyMine(s: State, id: int, fd: int, o: B.Order)
    requires Orders(s) && o in s.book.resting && o.id == id && o.owner == fd
    ensures !Rests(BookStep(s, B.Cancel(id, fd)).book, id)
  {
    var b := BookStep(s, B.Cancel(id, fd)).book;
    B.RunWellFormed(s.hist.ops);
    forall i | 0 <= i < |b.resting| ensures b.resting[i].id != id {
      var q := b.resting[i];
      assert q in b.resting;
      B.SelectMembers(s.book.resting, B.Not(B.Own(id, fd)), q);
      if q.id == id {
        OrderBooks.OnlyOne(s.book.resting, s.book.nextId, q, o);
      }
    }
  }

  lemma {:induction false} OtherIds(orders: seq<B.Order>, p: B.Pick, other: int)
    requires p.Own? && p.id != other
    ensures L.QuantityOf(B.Select(orders, p), other) == 0
  {
    if orders != [] {
      OtherIds(orders[1..], p, other);
      L.QuantityConcat(if B.Meets(orders[0], p) then [orders[0]] else [], B.Select(orders[1..], p), other);
    }
  }
}
