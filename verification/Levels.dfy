/**
The independent reference: one two-sided FIFO per instrument and price.  It never looks at a price
and only ever touches the head of a queue.
*/
module Levels {
  import opened Book

  datatype LevelBook = LevelBook(nextId: int, buys: seq<Order>, sells: seq<Order>)

  function SideOf(l: LevelBook, side: Side): seq<Order> {
    if side == Buy then l.buys else l.sells
  }

  /** Fills from the head: whole orders while they fit, then part of the one that does not. */
  function Fifo(queue: seq<Order>, taker: Order): Matched {
    if queue == [] || taker.quantity <= 0 then Matched(queue, taker.quantity, [])
    else if queue[0].quantity <= taker.quantity then
      var m := Fifo(queue[1..], Reduced(taker, queue[0].quantity));
      Matched(m.orders, m.remaining, [FillOf(queue[0], taker)] + m.fills)
    else Matched([Reduced(queue[0], taker.quantity)] + queue[1..], 0, [FillOf(queue[0], taker)])
  }

  datatype LevelEffect = LevelEffect(level: LevelBook, fills: seq<Fill>)

  function LevelApply(l: LevelBook, op: Op, instrument: string, price: int): LevelEffect {
    if op.Add? then
      if op.instrument == instrument && op.price == price then
        var taker := Order(l.nextId, op.owner, instrument, op.side, op.quantity, price);
        var m := Fifo(SideOf(l, Opposite(op.side)), taker);
        var own := SideOf(l, op.side) + Remainder(taker, m.remaining);
        var buys := if op.side == Buy then own else m.orders;
        var sells := if op.side == Buy then m.orders else own;
        LevelEffect(LevelBook(l.nextId + 1, buys, sells), m.fills)
      else LevelEffect(l.(nextId := l.nextId + 1), [])
    else
      var stay := Not(Withdrawal(op));
      LevelEffect(l.(buys := Select(l.buys, stay), sells := Select(l.sells, stay)), [])
  }

  function LevelRun(ops: seq<Op>, instrument: string, price: int): LevelEffect {
    if ops == [] then LevelEffect(LevelBook(1, [], []), [])
    else
      var before := LevelRun(ops[..|ops| - 1], instrument, price);
      var e := LevelApply(before.level, ops[|ops| - 1], instrument, price);
      LevelEffect(e.level, before.fills + e.fills)
  }

  // ----- projections of the flat book

  function Project(b: Book, instrument: string, price: int): LevelBook {
    LevelBook(b.nextId, Select(b.resting, Level(Buy, instrument, price)),
              Select(b.resting, Level(Sell, instrument, price)))
  }

  function FillsAt(fills: seq<Fill>, instrument: string, price: int): seq<Fill> {
    if fills == [] then []
    else (if fills[0].instrument == instrument && fills[0].price == price then [fills[0]] else [])
         + FillsAt(fills[1..], instrument, price)
  }

  lemma {:induction false} FillsAtConcat(a: seq<Fill>, b: seq<Fill>, instrument: string, price: int)
    ensures FillsAt(a + b, instrument, price) == FillsAt(a, instrument, price) + FillsAt(b, instrument, price)
  {
    if a == [] {
      assert a + b == b;
    } else {
      assert (a + b)[1..] == a[1..] + b;
      FillsAtConcat(a[1..], b, instrument, price);
    }
  }

  /** Every fill of a match is at the taker's own instrument and price. */
  lemma {:induction false} MatchFillsAt(orders: seq<Order>, taker: Order, instrument: string, price: int)
    ensures var fills := Match(orders, taker).fills;
            FillsAt(fills, instrument, price) ==
            if taker.instrument == instrument && taker.price == price then fills else []
    decreases |orders|
  {
    if orders != [] && taker.quantity > 0 {
      if Crosses(orders[0], taker) {
        var fill := FillOf(orders[0], taker);
        MatchFillsAt(orders[1..], Reduced(taker, fill.quantity), instrument, price);
        assert Match(orders, taker).fills[1..] == Match(orders[1..], Reduced(taker, fill.quantity)).fills;
      } else {
        MatchFillsAt(orders[1..], taker, instrument, price);
      }
    }
  }

  predicate AllCross(queue: seq<Order>, taker: Order) {
    forall i :: 0 <= i < |queue| ==> Crosses(queue[i], taker)
  }

  lemma {:induction false} SelectAllCross(orders: seq<Order>, taker: Order)
    ensures AllCross(Select(orders, Level(Opposite(taker.side), taker.instrument, taker.price)), taker)
  {
    if orders != [] {
      SelectAllCross(orders[1..], taker);
    }
  }

  lemma {:induction false} MatchIsFifo(queue: seq<Order>, taker: Order)
    requires AllCross(queue, taker)
    ensures Match(queue, taker) == Fifo(queue, taker)
    decreases |queue|
  {
    if queue != [] && taker.quantity > 0 {
      MatchIsFifo(queue[1..], Reduced(taker, FillOf(queue[0], taker).quantity));
    }
  }

  /** The level that an incoming order trades with, seen through the flat list, behaves as a FIFO. */
  lemma FlatIsFifo(orders: seq<Order>, taker: Order)
    ensures var level := Level(Opposite(taker.side), taker.instrument, taker.price);
            var m := Match(orders, taker);
            Fifo(Select(orders, level), taker) == Matched(Select(m.orders, level), m.remaining, m.fills)
  {
    var level := Level(Opposite(taker.side), taker.instrument, taker.price);
    SelectAllCross(orders, taker);
    MatchIsFifo(Select(orders, level), taker);
    MatchCovered(orders, taker, level);
  }

  lemma AddProjects(b: Book, op: Op, side: Side, instrument: string, price: int)
    requires op.Add?
    ensures var level := Level(side, instrument, price);
            var before := Project(b, instrument, price);
            Select(Apply(b, op).book.resting, level) == SideOf(LevelApply(before, op, instrument, price).level, side)
  {
    var level := Level(side, instrument, price);
    var taker := Taker(b, op);
    var m := Match(b.resting, taker);
    var rest := Remainder(taker, m.remaining);
    SelectConcat(m.orders, rest, level);
    if Covers(level, taker) {
      FlatIsFifo(b.resting, taker);
      assert Select(rest, level) == [];
    } else {
      MatchUncovered(b.resting, taker, level);
      if op.instrument == instrument && op.price == price {
        FlatIsFifo(b.resting, taker);
        assert Select(rest, level) == rest;
      } else {
        assert Select(rest, level) == [];
      }
    }
  }

  lemma StepRefines(b: Book, op: Op, instrument: string, price: int)
    ensures var e := Apply(b, op);
            LevelApply(Project(b, instrument, price), op, instrument, price) ==
            LevelEffect(Project(e.book, instrument, price), FillsAt(e.fills, instrument, price))
  {
    if op.Add? {
      AddProjects(b, op, Buy, instrument, price);
      AddProjects(b, op, Sell, instrument, price);
      MatchFillsAt(b.resting, Taker(b, op), instrument, price);
      if op.instrument == instrument && op.price == price {
        FlatIsFifo(b.resting, Taker(b, op));
      }
    } else {
      SelectCommutes(b.resting, Not(Withdrawal(op)), Level(Buy, instrument, price));
      SelectCommutes(b.resting, Not(Withdrawal(op)), Level(Sell, instrument, price));
    }
  }

  /** The flat book, watched at any instrument and price, is the FIFO of that level, over every run. */
  lemma {:induction false} FlatRefinesLevels(ops: seq<Op>, instrument: string, price: int)
    ensures LevelRun(ops, instrument, price) ==
            LevelEffect(Project(Run(ops).book, instrument, price), FillsAt(Run(ops).fills, instrument, price))
  {
    if ops != [] {
      var before := Run(ops[..|ops| - 1]);
      FlatRefinesLevels(ops[..|ops| - 1], instrument, price);
      StepRefines(before.book, ops[|ops| - 1], instrument, price);
      FillsAtConcat(before.fills, Apply(before.book, ops[|ops| - 1]).fills, instrument, price);
    }
  }

  // ----- price-time priority

  /** How many resting orders of a level an incoming order fills completely. */
  function Eaten(queue: seq<Order>, taker: Order): nat {
    if queue == [] || taker.quantity <= 0 || queue[0].quantity > taker.quantity then 0
    else 1 + Eaten(queue[1..], Reduced(taker, queue[0].quantity))
  }

  /** A prefix is filled completely, at most the next order partially, the rest not at all. */
  predicate FillsPrefix(queue: seq<Order>, k: nat, m: Matched) {
    && k <= |queue|
    && |queue[k..]| == |m.orders|
    && k <= |m.fills| <= k + 1
    && |m.fills| <= |queue|
    && (forall j :: 0 <= j < |m.fills| ==> m.fills[j].maker == queue[j].id)
    && (forall j :: 0 <= j < k ==> m.fills[j].quantity == queue[j].quantity)
    && (if |m.fills| == k then m.orders == queue[k..]
        else
          && 0 < m.fills[k].quantity < queue[k].quantity
          && m.remaining == 0
          && m.orders == [Reduced(queue[k], m.fills[k].quantity)] + queue[k + 1..])
    && (m.remaining > 0 ==> k == |queue|)
  }

  lemma {:induction false} FifoFillsPrefix(queue: seq<Order>, taker: Order)
    ensures FillsPrefix(queue, Eaten(queue, taker), Fifo(queue, taker))
    decreases |queue|
  {
    if queue != [] && 0 < taker.quantity && queue[0].quantity <= taker.quantity {
      var k, m := Eaten(queue, taker), Fifo(queue, taker);
      var rest := Fifo(queue[1..], Reduced(taker, queue[0].quantity));
      FifoFillsPrefix(queue[1..], Reduced(taker, queue[0].quantity));
      assert queue[k..] == queue[1..][k - 1..];
      forall j | 0 <= j < |m.fills| ensures m.fills[j].maker == queue[j].id && (j < k ==> m.fills[j].quantity == queue[j].quantity) {
        if j > 0 {
          assert m.fills[j] == rest.fills[j - 1] && queue[j] == queue[1..][j - 1];
        }
      }
      if |m.fills| > k {
        assert m.fills[k] == rest.fills[k - 1] && queue[k] == queue[1..][k - 1];
        assert queue[k + 1..] == queue[1..][k..];
      }
    }
  }

  /** A filled prefix of an ascending queue leaves nothing older than what it filled. */
  lemma PrefixLeavesYounger(queue: seq<Order>, lo: int, hi: int, k: nat, m: Matched, j: nat, i: nat)
    requires Ascending(queue, lo, hi) && FillsPrefix(queue, k, m) && j < |m.fills| && i < |m.orders|
    ensures m.fills[j].maker <= m.orders[i].id
  {
    AscendingAt(queue, lo, hi, k + i);
    assert m.orders[i].id == queue[k + i].id;
  }

  /** What an add leaves of the opposite side of its own level. */
  lemma AddFillsPrefix(b: Book, op: Op)
    requires op.Add?
    ensures var queue := Select(b.resting, Facing(op));
            && FillsPrefix(queue, Eaten(queue, Taker(b, op)), AddAt(b, op))
  {
    var taker := Taker(b, op);
    var queue, m := Select(b.resting, Facing(op)), Match(b.resting, taker);
    FlatIsFifo(b.resting, taker);
    FifoFillsPrefix(queue, taker);
    SelectConcat(m.orders, Remainder(taker, m.remaining), Facing(op));
    assert Select(Remainder(taker, m.remaining), Facing(op)) == [];
  }

  /** The side of a level that an add trades against. */
  function Facing(op: Op): Pick
    requires op.Add?
  {
    Level(Opposite(op.side), op.instrument, op.price)
  }

  /** An add, watched at the level it trades against. */
  function AddAt(b: Book, op: Op): Matched
    requires op.Add?
  {
    var e := Apply(b, op);
    Matched(Select(e.book.resting, Facing(op)), Match(b.resting, Taker(b, op)).remaining, e.fills)
  }

  /**
  Price-time priority in every reachable book: an add fills a prefix of the level it faces, and after it
  no order older than a filled one is left waiting there.
  */
  lemma TimePriority(ops: seq<Op>, op: Op)
    requires op.Add?
    ensures var b, e := Run(ops).book, Apply(Run(ops).book, op);
            var queue := Select(b.resting, Facing(op));
            && FillsPrefix(queue, Eaten(queue, Taker(b, op)), AddAt(b, op))
            && (forall j, o :: 0 <= j < |e.fills| && o in e.book.resting && Meets(o, Facing(op)) ==>
                                 e.fills[j].maker <= o.id)
  {
    var b, e := Run(ops).book, Apply(Run(ops).book, op);
    var queue, left := Select(b.resting, Facing(op)), Select(e.book.resting, Facing(op));
    AddFillsPrefix(b, op);
    RunWellFormed(ops);
    AscendingSelect(b.resting, 1, b.nextId, Facing(op));
    forall j, o | 0 <= j < |e.fills| && o in e.book.resting && Meets(o, Facing(op))
      ensures e.fills[j].maker <= o.id
    {
      SelectMembers(e.book.resting, Facing(op), o);
      var i :| 0 <= i < |left| && left[i] == o;
      PrefixLeavesYounger(queue, 1, b.nextId, Eaten(queue, Taker(b, op)), AddAt(b, op), j, i);
    }
  }
}
