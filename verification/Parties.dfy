/** Who trades with whom, for how much, and what it leaves in the book: an order in terms of its own command. */
module Parties {
  import opened Protocol
  import opened Exchange
  import opened Invariants
  import opened Announcements
  import opened Safety
  import opened OrderBooks
  import P = Publishing
  import B = Book
  import L = Ledger

  // ----- one match

  /** The resting order behind the j-th fill, and what it loses by it. */
  lemma {:induction false} FillTakes(orders: seq<B.Order>, lo: int, hi: int, taker: B.Order, j: nat) returns (o: B.Order)
    requires B.Ascending(orders, lo, hi) && j < |B.Match(orders, taker).fills|
    ensures o in orders && o.id < hi && lo <= o.id
    ensures Deals(ExecutionOf(B.Match(orders, taker).fills[j]), o, taker.owner, taker.instrument, taker.side, taker.price)
    ensures var m := B.Match(orders, taker);
            && m.fills[j].instrument == taker.instrument && m.fills[j].price == taker.price
            && 0 < m.fills[j].quantity == L.QuantityOf(orders, o.id) - L.QuantityOf(m.orders, o.id)
    decreases |orders|
  {
    hide L.QuantityOf;
    var head := orders[0];
    var crossed := B.Crosses(head, taker);
    if crossed && j == 0 {
      o := head;
      assert o in orders;
      HeadLoss(orders, lo, hi, taker);
    } else {
      var q := Filled(head, taker);
      assert B.Reduced(taker, 0) == taker;
      o := FillTakes(orders[1..], head.id + 1, hi, B.Reduced(taker, q), if crossed then j - 1 else j);
      assert o in orders;
      OthersLoss(orders, lo, hi, taker, o.id);
    }
  }

  /** What a match fills of the first order of the list. */
  function Filled(head: B.Order, taker: B.Order): int {
    if B.Crosses(head, taker) then B.FillOf(head, taker).quantity else 0
  }

  lemma MatchSplits(orders: seq<B.Order>, lo: int, hi: int, taker: B.Order) returns (rest: seq<B.Order>)
    requires B.Ascending(orders, lo, hi) && orders != [] && taker.quantity > 0
    ensures rest == B.Match(orders[1..], B.Reduced(taker, Filled(orders[0], taker))).orders
    ensures B.Match(orders, taker).orders == B.Kept(orders[0], Filled(orders[0], taker)) + rest
    ensures B.Ascending(rest, orders[0].id + 1, hi)
  {
    var q := Filled(orders[0], taker);
    rest := B.Match(orders[1..], B.Reduced(taker, q)).orders;
    assert B.Reduced(taker, 0) == taker;
    B.AscendingMatch(orders[1..], orders[0].id + 1, hi, B.Reduced(taker, q));
  }

  lemma HeadLoss(orders: seq<B.Order>, lo: int, hi: int, taker: B.Order)
    requires B.Ascending(orders, lo, hi) && orders != [] && taker.quantity > 0
    ensures var id := orders[0].id;
            L.QuantityOf(orders, id) - L.QuantityOf(B.Match(orders, taker).orders, id) == Filled(orders[0], taker)
  {
    var head := orders[0];
    var rest := MatchSplits(orders, lo, hi, taker);
    hide B.Match, Filled;
    L.QuantityConcat(B.Kept(head, Filled(head, taker)), rest, head.id);
    L.FreshQuantity(orders[1..], head.id + 1, hi, head.id);
    L.FreshQuantity(rest, head.id + 1, hi, head.id);
  }

  lemma OthersLoss(orders: seq<B.Order>, lo: int, hi: int, taker: B.Order, id: int)
    requires B.Ascending(orders, lo, hi) && orders != [] && taker.quantity > 0 && id != orders[0].id
    ensures var rest := B.Match(orders[1..], B.Reduced(taker, Filled(orders[0], taker))).orders;
            && L.QuantityOf(orders, id) == L.QuantityOf(orders[1..], id)
            && L.QuantityOf(B.Match(orders, taker).orders, id) == L.QuantityOf(rest, id)
  {
    var head := orders[0];
    var rest := MatchSplits(orders, lo, hi, taker);
    hide B.Match, Filled;
    L.QuantityConcat(B.Kept(head, Filled(head, taker)), rest, id);
  }

  /** The quantity of all executions together. */
  function Total(xs: seq<TradeExecution>): int {
    if xs == [] then 0 else xs[0].quantity + Total(xs[1..])
  }

  /** What is not executed is what remains. */
  lemma {:induction false} FillsTotal(orders: seq<B.Order>, taker: B.Order)
    ensures var m := B.Match(orders, taker); Total(Executions(m.fills)) == taker.quantity - m.remaining
    decreases |orders|
  {
    if orders != [] && taker.quantity > 0 {
      if B.Crosses(orders[0], taker) {
        var fill := B.FillOf(orders[0], taker);
        var rest := B.Match(orders[1..], B.Reduced(taker, fill.quantity));
        FillsTotal(orders[1..], B.Reduced(taker, fill.quantity));
        assert Executions([fill] + rest.fills)[1..] == Executions(rest.fills);
      } else {
        FillsTotal(orders[1..], taker);
      }
    }
  }

  // ----- an order of a client

  /** The book once the order has been matched and what is left of it rests. */
  function BookAfter(s: State, fd: int, cmd: ParsedCommand): B.Book {
    Submitted(s, fd, OrderOp(fd, cmd)).book
  }

  /** A command that the parser accepts as an order. */
  predicate IsOrder(cmd: ParsedCommand) {
    cmd.valid && WellParsed(cmd) && (cmd.kind == BuyCommand || cmd.kind == SellCommand)
  }

  /**
  Every execution of a BUY has the submitter as its buyer, and as its seller the owner of an order that was
  resting on the sell side at the command's instrument and price and that loses exactly the executed quantity;
  and the other way round for a SELL.
  */
  lemma ExecutionParties(s: State, fd: int, cmd: ParsedCommand, j: nat) returns (o: B.Order)
    requires Tables(s) && IsOrder(cmd) && j < |P.ExecutionsOf(s, fd, cmd)|
    ensures o in s.book.resting && o.instrument == cmd.instrument && o.price == cmd.price
    ensures o.side == if cmd.kind == BuyCommand then B.Sell else B.Buy
    ensures var x := P.ExecutionsOf(s, fd, cmd)[j];
            && x.buyer == (if cmd.kind == BuyCommand then fd else o.owner)
            && x.seller == (if cmd.kind == BuyCommand then o.owner else fd)
            && x.instrument == cmd.instrument && x.price == cmd.price
            && 0 < x.quantity == L.QuantityOf(s.book.resting, o.id) - L.QuantityOf(BookAfter(s, fd, cmd).resting, o.id)
  {
    BookOf(s);
    hide Tables, WellParsed, B.Run, B.Match;
    var b, taker := s.book, B.Taker(s.book, OrderOp(fd, cmd));
    B.RunWellFormed(s.hist.ops);
    var m := B.Match(b.resting, taker);
    o := FillTakes(b.resting, 1, b.nextId, taker, j);
    L.QuantityConcat(m.orders, B.Remainder(taker, m.remaining), o.id);
  }

  function RestingOrder(id: int, fd: int, cmd: ParsedCommand, quantity: int): B.Order {
    B.Order(id, fd, cmd.instrument, if cmd.kind == BuyCommand then B.Buy else B.Sell, quantity, cmd.price)
  }

  /**
  What is not executed rests under the acknowledged id, as the command said; an order that is executed
  completely does not rest.
  */
  lemma RemainderRests(s: State, fd: int, cmd: ParsedCommand)
    requires Tables(s) && IsOrder(cmd)
    ensures var left, after := cmd.quantity - Total(P.ExecutionsOf(s, fd, cmd)), BookAfter(s, fd, cmd).resting;
            && left >= 0
            && L.QuantityOf(after, s.book.nextId) == left
            && (left > 0 ==> after != [] && after[|after| - 1] == RestingOrder(s.book.nextId, fd, cmd, left))
    ensures BookAfter(s, fd, cmd).nextId == s.book.nextId + 1
  {
    BookOf(s);
    hide Tables, B.Run, B.Match;
    var b, taker := s.book, B.Taker(s.book, OrderOp(fd, cmd));
    B.RunWellFormed(s.hist.ops);
    var m := B.Match(b.resting, taker);
    FillsTotal(b.resting, taker);
    L.MatchRemaining(b.resting, 1, b.nextId, taker);
    B.AscendingMatch(b.resting, 1, b.nextId, taker);
    L.FreshQuantity(m.orders, 1, b.nextId, b.nextId);
    L.QuantityConcat(m.orders, B.Remainder(taker, m.remaining), b.nextId);
  }

  // ----- what the two are told

  /** The submitter of a BUY is told BOUGHT, and SOLD as well only if it traded with itself; of a SELL, SOLD. */
  lemma SubmitterNotice(s: State, fd: int, cmd: ParsedCommand, j: nat)
    requires Tables(s) && IsOrder(cmd) && fd in s.sessions && s.sessions[fd].loggedIn && j < |P.ExecutionsOf(s, fd, cmd)|
    ensures var x := P.ExecutionsOf(s, fd, cmd)[j];
            var bought, sold := Bought(cmd.instrument, x.quantity, cmd.price), Sold(cmd.instrument, x.quantity, cmd.price);
            Notice(s, fd, x) == if x.buyer == x.seller then [bought, sold] else if cmd.kind == BuyCommand then [bought] else [sold]
  {
    assert s.sessions[fd].fd == fd;
    RoleOf(s, fd);
    hide Tables, P.ExecutionsOf, WellParsed;
    var o := ExecutionParties(s, fd, cmd, j);
  }

  /** The other party of a BUY is live and is told SOLD; of a SELL, BOUGHT. */
  lemma CounterpartyNotice(s: State, fd: int, cmd: ParsedCommand, j: nat)
    requires Tables(s) && IsOrder(cmd) && j < |P.ExecutionsOf(s, fd, cmd)|
    ensures var x := P.ExecutionsOf(s, fd, cmd)[j];
            var other := if cmd.kind == BuyCommand then x.seller else x.buyer;
            var bought, sold := Bought(cmd.instrument, x.quantity, cmd.price), Sold(cmd.instrument, x.quantity, cmd.price);
            && other in s.sessions
            && (other != fd ==> Notice(s, other, x) == if cmd.kind == BuyCommand then [sold] else [bought])
  {
    var o := ExecutionParties(s, fd, cmd, j);
    OwnerLive(s, o);
    RoleOf(s, o.owner);
    assert s.sessions[o.owner].fd == o.owner;
    hide Tables, P.ExecutionsOf, WellParsed;
  }

  lemma OwnerLive(s: State, o: B.Order)
    requires Tables(s) && o in s.book.resting
    ensures o.owner in s.sessions && s.sessions[o.owner].loggedIn
  {
    hide Descriptors, Subscriptions, Names, Roles;
    assert Owned(s, o);
  }

  /** What a surviving submitter of an order that executes is queued first: the acknowledgement, then BOUGHT or SOLD. */
  lemma FirstNotices(s: State, fd: int, cmd: ParsedCommand) returns (more: seq<Response>)
    requires Sound(s) && fd in s.sessions && TradingBar(s, fd, cmd.kind) == [] && IsOrder(cmd)
    requires P.ExecutionsOf(s, fd, cmd) != [] && fd in HandleOrder(s, fd, cmd).sessions
    ensures var x := P.ExecutionsOf(s, fd, cmd)[0];
            var bought, sold := Bought(cmd.instrument, x.quantity, cmd.price), Sold(cmd.instrument, x.quantity, cmd.price);
            Mail(HandleOrder(s, fd, cmd), fd) ==
            Mail(s, fd) + [OrderAccepted(s.book.nextId)]
            + (if x.buyer == x.seller then [bought, sold] else if cmd.kind == BuyCommand then [bought] else [sold]) + more
  {
    hide Sound, Tables, HandleOrder, P.ExecutionsOf, P.Acknowledged, Mail, SameSession, Notice, IsOrder, Published;
    var xs, ack := P.ExecutionsOf(s, fd, cmd), [OrderAccepted(s.book.nextId)];
    SoundBasics(s);
    P.LoggedInTrader(s, fd, cmd.kind);
    P.LiveIsOpen(s, fd);
    var k := P.OrderIsPublished(s, fd, cmd, fd);
    SubmitterNotice(s, fd, cmd, 0);
    assert xs[..k] == xs && xs == [xs[0]] + xs[1..];
    more := Notices(s, fd, xs[1..]);
    assert Notices(s, fd, xs) == Notice(s, fd, xs[0]) + more;
    assert Mail(s, fd) + (ack + (Notice(s, fd, xs[0]) + more)) == Mail(s, fd) + ack + Notice(s, fd, xs[0]) + more;
  }
}
