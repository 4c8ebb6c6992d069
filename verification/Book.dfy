/**
The order book as one list of resting orders in arrival order.  The matching engine keeps a FIFO
list per instrument and side; every such list, and every price level, is a selection of this one.
*/
module Book {

  datatype Side = Buy | Sell

  function Opposite(side: Side): Side {
    if side == Buy then Sell else Buy
  }

  datatype Order = Order(id: int, owner: int, instrument: string, side: Side, quantity: int, price: int)

  /** One execution, together with the ids of the resting and of the incoming order. */
  datatype Fill = Fill(maker: int, taker: int, buyer: int, seller: int, instrument: string, quantity: int, price: int)

  datatype Book = Book(nextId: int, resting: seq<Order>)

  const EMPTY_BOOK := Book(1, [])

  // ----- selections of orders

  /** Criteria by which orders are selected. */
  datatype Pick =
    | Queue(side: Side, instrument: string)
    | Level(side: Side, instrument: string, price: int)
    | Own(id: int, owner: int)
    | Owner(owner: int)
    | Not(pick: Pick)

  predicate Meets(o: Order, p: Pick) {
    match p
    case Queue(side, instrument) => o.side == side && o.instrument == instrument
    case Level(side, instrument, price) => o.side == side && o.instrument == instrument && o.price == price
    case Own(id, owner) => o.id == id && o.owner == owner
    case Owner(owner) => o.owner == owner
    case Not(q) => !Meets(o, q)
  }

  function Select(orders: seq<Order>, p: Pick): seq<Order> {
    if orders == [] then []
    else (if Meets(orders[0], p) then [orders[0]] else []) + Select(orders[1..], p)
  }

  // ----- matching

  datatype Matched = Matched(orders: seq<Order>, remaining: int, fills: seq<Fill>)

  predicate Crosses(resting: Order, taker: Order) {
    Meets(resting, Level(Opposite(taker.side), taker.instrument, taker.price))
  }

  function Min(a: int, b: int): int {
    if a < b then a else b
  }

  function FillOf(resting: Order, taker: Order): Fill {
    var buyer := if taker.side == Buy then taker.owner else resting.owner;
    var seller := if taker.side == Buy then resting.owner else taker.owner;
    Fill(resting.id, taker.id, buyer, seller, taker.instrument, Min(taker.quantity, resting.quantity), taker.price)
  }

  function Reduced(o: Order, q: int): Order {
    o.(quantity := o.quantity - q)
  }

  /** What is left of a resting order after a fill: nothing, or the order in its place with less to fill. */
  function Kept(o: Order, q: int): seq<Order> {
    if o.quantity == q then [] else [Reduced(o, q)]
  }

  /** Walks the list, filling the incoming order from every resting order it crosses. */
  function Match(orders: seq<Order>, taker: Order): Matched {
    if orders == [] || taker.quantity <= 0 then Matched(orders, taker.quantity, [])
    else if !Crosses(orders[0], taker) then
      var m := Match(orders[1..], taker);
      Matched([orders[0]] + m.orders, m.remaining, m.fills)
    else
      var fill := FillOf(orders[0], taker);
      var m := Match(orders[1..], Reduced(taker, fill.quantity));
      Matched(Kept(orders[0], fill.quantity) + m.orders, m.remaining, [fill] + m.fills)
  }

  // ----- operations

  datatype Op =
    | Add(owner: int, instrument: string, side: Side, quantity: int, price: int)
    | Cancel(id: int, requester: int)
    | RemoveOwner(owner: int)

  function Taker(b: Book, op: Op): Order
    requires op.Add?
  {
    Order(b.nextId, op.owner, op.instrument, op.side, op.quantity, op.price)
  }

  /** The orders an operation takes out of the book without executing them. */
  function Withdrawal(op: Op): Pick
    requires !op.Add?
  {
    match op
    case Cancel(id, requester) => Own(id, requester)
    case RemoveOwner(owner) => Owner(owner)
  }

  datatype Effect = Effect(book: Book, fills: seq<Fill>, submitted: seq<Order>, withdrawn: seq<Order>)

  /** The unmatched part of an incoming order joins the end of the list. */
  function Remainder(taker: Order, remaining: int): seq<Order> {
    if remaining > 0 then [taker.(quantity := remaining)] else []
  }

  function Apply(b: Book, op: Op): Effect {
    if op.Add? then
      var taker := Taker(b, op);
      var m := Match(b.resting, taker);
      Effect(Book(b.nextId + 1, m.orders + Remainder(taker, m.remaining)), m.fills, Remainder(taker, op.quantity), [])
    else
      var w := Withdrawal(op);
      Effect(b.(resting := Select(b.resting, Not(w))), [], [], Select(b.resting, w))
  }

  /** A whole run: the final book and everything executed, submitted and withdrawn on the way. */
  function Run(ops: seq<Op>): Effect {
    if ops == [] then Effect(EMPTY_BOOK, [], [], [])
    else
      var before := Run(ops[..|ops| - 1]);
      var e := Apply(before.book, ops[|ops| - 1]);
      Effect(e.book, before.fills + e.fills, before.submitted + e.submitted, before.withdrawn + e.withdrawn)
  }

  // ----- order of arrival

  /** Ids strictly increase along the list and lie in [lo, hi); every quantity is positive. */
  predicate Ascending(orders: seq<Order>, lo: int, hi: int) {
    orders == [] ||
    (lo <= orders[0].id < hi && orders[0].quantity > 0 && Ascending(orders[1..], orders[0].id + 1, hi))
  }

  predicate WellFormed(b: Book) {
    Ascending(b.resting, 1, b.nextId) && b.nextId >= 1
  }

  lemma {:induction false} AscendingWeaken(orders: seq<Order>, lo: int, hi: int, lo': int, hi': int)
    requires Ascending(orders, lo, hi) && lo' <= lo && hi <= hi'
    ensures Ascending(orders, lo', hi')
  {
    if orders != [] {
      AscendingWeaken(orders[1..], orders[0].id + 1, hi, orders[0].id + 1, hi');
    }
  }

  lemma {:induction false} AscendingAt(orders: seq<Order>, lo: int, hi: int, i: nat)
    requires Ascending(orders, lo, hi) && i < |orders|
    ensures lo <= orders[i].id < hi && orders[i].quantity > 0
    ensures forall j :: 0 <= j < i ==> orders[j].id < orders[i].id
  {
    if i > 0 {
      AscendingAt(orders[1..], orders[0].id + 1, hi, i - 1);
      forall j | 0 <= j < i ensures orders[j].id < orders[i].id {
        if j > 0 {
          assert orders[j] == orders[1..][j - 1];
        }
      }
    }
  }

  /** Two resting orders with the same id are the same order. */
  lemma AscendingUnique(orders: seq<Order>, lo: int, hi: int, i: nat, j: nat)
    requires Ascending(orders, lo, hi) && i < |orders| && j < |orders|
    requires orders[i].id == orders[j].id
    ensures i == j
  {
    if i < j {
      AscendingAt(orders, lo, hi, j);
    } else {
      AscendingAt(orders, lo, hi, i);
    }
  }

  lemma {:induction false} AscendingAppend(orders: seq<Order>, lo: int, hi: int, o: Order)
    requires Ascending(orders, lo, hi) && lo <= hi <= o.id && o.quantity > 0
    ensures Ascending(orders + [o], lo, o.id + 1)
  {
    if orders == [] {
      assert orders + [o] == [o];
    } else {
      assert (orders + [o])[1..] == orders[1..] + [o];
      AscendingAppend(orders[1..], orders[0].id + 1, hi, o);
    }
  }

  lemma {:induction false} AscendingSelect(orders: seq<Order>, lo: int, hi: int, p: Pick)
    requires Ascending(orders, lo, hi)
    ensures Ascending(Select(orders, p), lo, hi)
  {
    if orders != [] {
      AscendingSelect(orders[1..], orders[0].id + 1, hi, p);
      if Meets(orders[0], p) {
        assert Select(orders, p)[1..] == Select(orders[1..], p);
      } else {
        assert Select(orders, p) == Select(orders[1..], p);
        AscendingWeaken(Select(orders[1..], p), orders[0].id + 1, hi, lo, hi);
      }
    }
  }

  lemma {:induction false} AscendingMatch(orders: seq<Order>, lo: int, hi: int, taker: Order)
    requires Ascending(orders, lo, hi)
    ensures Ascending(Match(orders, taker).orders, lo, hi)
    decreases |orders|
  {
    if orders != [] && taker.quantity > 0 {
      var o, q := orders[0], if Crosses(orders[0], taker) then FillOf(orders[0], taker).quantity else 0;
      var tail := Match(orders[1..], Reduced(taker, q)).orders;
      assert Reduced(taker, 0) == taker;
      assert Match(orders, taker).orders == Kept(o, q) + tail;
      AscendingMatch(orders[1..], o.id + 1, hi, Reduced(taker, q));
      if o.quantity == q {
        assert Kept(o, q) + tail == tail;
        AscendingWeaken(tail, o.id + 1, hi, lo, hi);
      } else {
        assert (Kept(o, q) + tail)[1..] == tail;
      }
    }
  }

  /** Every operation keeps the ids ascending, unique and below the next id, and every quantity positive. */
  lemma ApplyWellFormed(b: Book, op: Op)
    requires WellFormed(b)
    ensures WellFormed(Apply(b, op).book)
  {
    if op.Add? {
      var taker := Taker(b, op);
      var m := Match(b.resting, taker);
      AscendingMatch(b.resting, 1, b.nextId, taker);
      if m.remaining > 0 {
        AscendingAppend(m.orders, 1, b.nextId, taker.(quantity := m.remaining));
      } else {
        assert m.orders + Remainder(taker, m.remaining) == m.orders;
        AscendingWeaken(m.orders, 1, b.nextId, 1, b.nextId + 1);
      }
    } else {
      AscendingSelect(b.resting, 1, b.nextId, Not(Withdrawal(op)));
    }
  }

  lemma {:induction false} RunWellFormed(ops: seq<Op>)
    ensures WellFormed(Run(ops).book)
  {
    if ops != [] {
      RunWellFormed(ops[..|ops| - 1]);
      ApplyWellFormed(Run(ops[..|ops| - 1]).book, ops[|ops| - 1]);
    }
  }

  // ----- selections commute with each other and with matching

  lemma {:induction false} SelectConcat(a: seq<Order>, b: seq<Order>, p: Pick)
    ensures Select(a + b, p) == Select(a, p) + Select(b, p)
  {
    hide Meets;
    if a == [] {
      assert a + b == b;
    } else {
      assert (a + b)[1..] == a[1..] + b;
      SelectConcat(a[1..], b, p);
    }
  }

  lemma {:induction false} SelectCommutes(orders: seq<Order>, p: Pick, q: Pick)
    ensures Select(Select(orders, p), q) == Select(Select(orders, q), p)
  {
    hide Meets;
    if orders != [] {
      SelectCommutes(orders[1..], p, q);
      var o, tail := orders[0], orders[1..];
      SelectConcat(if Meets(o, p) then [o] else [], Select(tail, p), q);
      SelectConcat(if Meets(o, q) then [o] else [], Select(tail, q), p);
    }
  }

  lemma {:induction false} SelectMembers(orders: seq<Order>, p: Pick, o: Order)
    ensures o in Select(orders, p) <==> o in orders && Meets(o, p)
  {
    if orders != [] {
      SelectMembers(orders[1..], p, o);
      assert orders == [orders[0]] + orders[1..];
    }
  }

  /** A pick that does not look at quantities. */
  predicate Stable(p: Pick) {
    p.Queue? || p.Level?
  }

  /** p covers everything the taker can trade with. */
  predicate Covers(p: Pick, taker: Order) {
    match p
    case Queue(side, instrument) => side == Opposite(taker.side) && instrument == taker.instrument
    case Level(side, instrument, price) =>
      side == Opposite(taker.side) && instrument == taker.instrument && price == taker.price
    case _ => false
  }

  /** Matching against the whole list is matching against any view that covers the taker. */
  lemma {:induction false} MatchCovered(orders: seq<Order>, taker: Order, p: Pick)
    requires Covers(p, taker)
    ensures var m := Match(orders, taker);
            Match(Select(orders, p), taker) == Matched(Select(m.orders, p), m.remaining, m.fills)
    decreases |orders|
  {
    if orders != [] && taker.quantity > 0 {
      var o, tail := orders[0], orders[1..];
      if Crosses(o, taker) {
        var q := FillOf(o, taker).quantity;
        MatchCovered(tail, Reduced(taker, q), p);
        assert Select(orders, p)[1..] == Select(tail, p);
        SelectConcat(Kept(o, q), Match(tail, Reduced(taker, q)).orders, p);
      } else {
        MatchCovered(tail, taker, p);
        SelectConcat([o], Match(tail, taker).orders, p);
        if Meets(o, p) {
          assert Select(orders, p)[1..] == Select(tail, p);
        } else {
          assert Select(orders, p) == Select(tail, p);
        }
      }
    }
  }

  /** A view that does not cover the taker is left alone. */
  lemma {:induction false} MatchUncovered(orders: seq<Order>, taker: Order, p: Pick)
    requires Stable(p) && !Covers(p, taker)
    ensures Select(Match(orders, taker).orders, p) == Select(orders, p)
    decreases |orders|
  {
    if orders != [] && taker.quantity > 0 {
      var o, tail := orders[0], orders[1..];
      if Crosses(o, taker) {
        var q := FillOf(o, taker).quantity;
        MatchUncovered(tail, Reduced(taker, q), p);
        SelectConcat(Kept(o, q), Match(tail, Reduced(taker, q)).orders, p);
      } else {
        MatchUncovered(tail, taker, p);
        SelectConcat([o], Match(tail, taker).orders, p);
      }
    }
  }
}
