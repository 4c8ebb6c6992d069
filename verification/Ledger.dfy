/** Conservation over whole runs of the order book. */
module Ledger {
  import opened Book
  import opened Levels

  // ----- per order

  function QuantityOf(orders: seq<Order>, id: int): int {
    if orders == [] then 0
    else (if orders[0].id == id then orders[0].quantity else 0) + QuantityOf(orders[1..], id)
  }

  /** The quantity executed against one order, as the resting or as the incoming side. */
  function Executed(fills: seq<Fill>, id: int): int {
    if fills == [] then 0
    else (if fills[0].maker == id || fills[0].taker == id then fills[0].quantity else 0) + Executed(fills[1..], id)
  }

  lemma {:induction false} QuantityConcat(a: seq<Order>, b: seq<Order>, id: int)
    ensures QuantityOf(a + b, id) == QuantityOf(a, id) + QuantityOf(b, id)
  {
    if a == [] {
      assert a + b == b;
    } else {
      assert (a + b)[1..] == a[1..] + b;
      QuantityConcat(a[1..], b, id);
    }
  }

  lemma {:induction false} ExecutedConcat(a: seq<Fill>, b: seq<Fill>, id: int)
    ensures Executed(a + b, id) == Executed(a, id) + Executed(b, id)
  {
    if a == [] {
      assert a + b == b;
    } else {
      assert (a + b)[1..] == a[1..] + b;
      ExecutedConcat(a[1..], b, id);
    }
  }

  /** Selecting and selecting the complement splits every quantity. */
  lemma {:induction false} QuantitySplit(orders: seq<Order>, p: Pick, id: int)
    ensures QuantityOf(orders, id) == QuantityOf(Select(orders, p), id) + QuantityOf(Select(orders, Not(p)), id)
  {
    if orders != [] {
      QuantitySplit(orders[1..], p, id);
      QuantityConcat(if Meets(orders[0], p) then [orders[0]] else [], Select(orders[1..], p), id);
      QuantityConcat(if Meets(orders[0], p) then [] else [orders[0]], Select(orders[1..], Not(p)), id);
    }
  }

  lemma {:induction false} FreshQuantity(orders: seq<Order>, lo: int, hi: int, id: int)
    requires Ascending(orders, lo, hi) && (id < lo || hi <= id)
    ensures QuantityOf(orders, id) == 0
  {
    if orders != [] {
      FreshQuantity(orders[1..], orders[0].id + 1, hi, id);
    }
  }

  /** What a match takes from resting orders and from the taker is what it executes. */
  lemma {:induction false} MatchConserves(orders: seq<Order>, lo: int, taker: Order, id: int)
    requires Ascending(orders, lo, taker.id)
    ensures var m := Match(orders, taker);
            Executed(m.fills, id) ==
            if id == taker.id then taker.quantity - m.remaining else QuantityOf(orders, id) - QuantityOf(m.orders, id)
    decreases |orders|
  {
    if orders != [] && taker.quantity > 0 {
      var o := orders[0];
      var q := if Crosses(o, taker) then FillOf(o, taker).quantity else 0;
      var m := Match(orders[1..], Reduced(taker, q));
      assert Reduced(taker, 0) == taker;
      MatchConserves(orders[1..], o.id + 1, Reduced(taker, q), id);
      QuantityConcat(Kept(o, q), m.orders, id);
      if q > 0 {
        assert Match(orders, taker).fills[1..] == m.fills;
      } else {
        assert Kept(o, q) == [o];
      }
    }
  }

  /** Submitted quantity is executed, resting or withdrawn, for every id and every run. */
  lemma {:induction false} OrderConservation(ops: seq<Op>, id: int)
    ensures var e := Run(ops);
            QuantityOf(e.submitted, id) ==
            Executed(e.fills, id) + QuantityOf(e.book.resting, id) + QuantityOf(e.withdrawn, id)
  {
    if ops != [] {
      var before, op := Run(ops[..|ops| - 1]), ops[|ops| - 1];
      var b, e := before.book, Apply(before.book, op);
      OrderConservation(ops[..|ops| - 1], id);
      RunWellFormed(ops[..|ops| - 1]);
      ExecutedConcat(before.fills, e.fills, id);
      QuantityConcat(before.submitted, e.submitted, id);
      QuantityConcat(before.withdrawn, e.withdrawn, id);
      if op.Add? {
        var taker := Taker(b, op);
        var m := Match(b.resting, taker);
        MatchConserves(b.resting, 1, taker, id);
        MatchRemaining(b.resting, 1, b.nextId, taker);
        QuantityConcat(m.orders, Remainder(taker, m.remaining), id);
        AscendingMatch(b.resting, 1, b.nextId, taker);
        FreshQuantity(b.resting, 1, b.nextId, b.nextId);
        FreshQuantity(m.orders, 1, b.nextId, b.nextId);
      } else {
        QuantitySplit(b.resting, Withdrawal(op), id);
      }
    }
  }

  /** The unmatched part never goes negative and never grows; fills are positive and at most what was asked. */
  lemma {:induction false} MatchRemaining(orders: seq<Order>, lo: int, hi: int, taker: Order)
    requires Ascending(orders, lo, hi)
    ensures var m := Match(orders, taker);
            && (if taker.quantity > 0 then 0 <= m.remaining <= taker.quantity
                else m.remaining == taker.quantity && m.fills == [])
            && (forall j :: 0 <= j < |m.fills| ==> 0 < m.fills[j].quantity <= taker.quantity)
    decreases |orders|
  {
    if orders != [] && taker.quantity > 0 {
      if Crosses(orders[0], taker) {
        MatchRemaining(orders[1..], orders[0].id + 1, hi, Reduced(taker, FillOf(orders[0], taker).quantity));
      } else {
        MatchRemaining(orders[1..], orders[0].id + 1, hi, taker);
      }
    }
  }

  // ----- per level

  function Volume(orders: seq<Order>, p: Pick): int {
    if orders == [] then 0 else (if Meets(orders[0], p) then orders[0].quantity else 0) + Volume(orders[1..], p)
  }

  function Traded(fills: seq<Fill>, instrument: string, price: int): int {
    if fills == [] then 0
    else (if fills[0].instrument == instrument && fills[0].price == price then fills[0].quantity else 0)
         + Traded(fills[1..], instrument, price)
  }

  lemma {:induction false} VolumeConcat(a: seq<Order>, b: seq<Order>, p: Pick)
    ensures Volume(a + b, p) == Volume(a, p) + Volume(b, p)
  {
    if a == [] {
      assert a + b == b;
    } else {
      assert (a + b)[1..] == a[1..] + b;
      VolumeConcat(a[1..], b, p);
    }
  }

  lemma {:induction false} TradedConcat(a: seq<Fill>, b: seq<Fill>, instrument: string, price: int)
    ensures Traded(a + b, instrument, price) == Traded(a, instrument, price) + Traded(b, instrument, price)
  {
    if a == [] {
      assert a + b == b;
    } else {
      assert (a + b)[1..] == a[1..] + b;
      TradedConcat(a[1..], b, instrument, price);
    }
  }

  lemma {:induction false} VolumeSplit(orders: seq<Order>, q: Pick, p: Pick)
    ensures Volume(orders, p) == Volume(Select(orders, q), p) + Volume(Select(orders, Not(q)), p)
  {
    if orders != [] {
      VolumeSplit(orders[1..], q, p);
      VolumeConcat(if Meets(orders[0], q) then [orders[0]] else [], Select(orders[1..], q), p);
      VolumeConcat(if Meets(orders[0], q) then [] else [orders[0]], Select(orders[1..], Not(q)), p);
    }
  }

  lemma {:induction false} NoVolume(orders: seq<Order>, p: Pick)
    requires Select(orders, p) == []
    ensures Volume(orders, p) == 0
  {
    if orders != [] {
      NoVolume(orders[1..], p);
    }
  }

  lemma {:induction false} PositiveVolume(orders: seq<Order>, lo: int, hi: int, p: Pick)
    requires Ascending(orders, lo, hi)
    ensures Volume(orders, p) >= 0
  {
    if orders != [] {
      PositiveVolume(orders[1..], orders[0].id + 1, hi, p);
    }
  }

  /** A match moves the same volume out of the taker and out of the opposite side of its level. */
  lemma {:induction false} MatchMovesVolume(orders: seq<Order>, taker: Order, side: Side, instrument: string, price: int)
    ensures var m := Match(orders, taker);
            var p := Level(side, instrument, price);
            && Volume(orders, p) - Volume(m.orders, p) ==
               (if Covers(p, taker) then taker.quantity - m.remaining else 0)
            && Traded(m.fills, instrument, price) ==
               (if taker.instrument == instrument && taker.price == price then taker.quantity - m.remaining else 0)
    decreases |orders|
  {
    if orders != [] && taker.quantity > 0 {
      var p := Level(side, instrument, price);
      var o := orders[0];
      if Crosses(o, taker) {
        var q := FillOf(o, taker).quantity;
        var m := Match(orders[1..], Reduced(taker, q));
        MatchMovesVolume(orders[1..], Reduced(taker, q), side, instrument, price);
        VolumeConcat(Kept(o, q), m.orders, p);
        assert Match(orders, taker).fills[1..] == m.fills;
      } else {
        MatchMovesVolume(orders[1..], taker, side, instrument, price);
        VolumeConcat([o], Match(orders[1..], taker).orders, p);
      }
    }
  }

  /** Both sides of every level balance against the same traded volume, over every run. */
  lemma {:induction false} LevelConservation(ops: seq<Op>, side: Side, instrument: string, price: int)
    ensures var e, p := Run(ops), Level(side, instrument, price);
            Volume(e.submitted, p) == Traded(e.fills, instrument, price) + Volume(e.book.resting, p) + Volume(e.withdrawn, p)
  {
    if ops != [] {
      var before, op, p := Run(ops[..|ops| - 1]), ops[|ops| - 1], Level(side, instrument, price);
      var b, e := before.book, Apply(before.book, op);
      LevelConservation(ops[..|ops| - 1], side, instrument, price);
      TradedConcat(before.fills, e.fills, instrument, price);
      VolumeConcat(before.submitted, e.submitted, p);
      VolumeConcat(before.withdrawn, e.withdrawn, p);
      if op.Add? {
        var taker := Taker(b, op);
        var m := Match(b.resting, taker);
        RunWellFormed(ops[..|ops| - 1]);
        MatchRemaining(b.resting, 1, b.nextId, taker);
        MatchMovesVolume(b.resting, taker, side, instrument, price);
        VolumeConcat(m.orders, Remainder(taker, m.remaining), p);
      } else {
        VolumeSplit(b.resting, Withdrawal(op), p);
      }
    }
  }

  // ----- the book is never crossed

  predicate Uncrossed(b: Book, instrument: string, price: int) {
    Select(b.resting, Level(Buy, instrument, price)) == [] || Select(b.resting, Level(Sell, instrument, price)) == []
  }

  /** No reachable book holds a buy and a sell at the same instrument and price. */
  lemma {:induction false} NeverCrossed(ops: seq<Op>, instrument: string, price: int)
    ensures Uncrossed(Run(ops).book, instrument, price)
  {
    if ops != [] {
      var b, op := Run(ops[..|ops| - 1]).book, ops[|ops| - 1];
      NeverCrossed(ops[..|ops| - 1], instrument, price);
      StepRefines(b, op, instrument, price);
      var l := Project(b, instrument, price);
      if op.Add? && op.instrument == instrument && op.price == price {
        var queue := SideOf(l, Opposite(op.side));
        FifoFillsPrefix(queue, Taker(b, op));
        assert Fifo(queue, Taker(b, op)).remaining > 0 ==> Fifo(queue, Taker(b, op)).orders == [];
      }
    }
  }

  predicate AddsOnly(ops: seq<Op>) {
    forall i :: 0 <= i < |ops| ==> ops[i].Add?
  }

  lemma {:induction false} AddsWithdrawNothing(ops: seq<Op>)
    requires AddsOnly(ops)
    ensures Run(ops).withdrawn == []
  {
    if ops != [] {
      AddsWithdrawNothing(ops[..|ops| - 1]);
    }
  }

  /** With no withdrawals a level trades as much as it possibly can, in whatever order the adds came. */
  lemma TradesTheMinimum(ops: seq<Op>, instrument: string, price: int)
    requires AddsOnly(ops)
    ensures var e, buy, sell := Run(ops), Level(Buy, instrument, price), Level(Sell, instrument, price);
            var bought, sold := Volume(e.submitted, buy), Volume(e.submitted, sell);
            && Traded(e.fills, instrument, price) == Min(bought, sold)
            && Volume(e.book.resting, buy) == bought - Min(bought, sold)
            && Volume(e.book.resting, sell) == sold - Min(bought, sold)
  {
    var e, buy, sell := Run(ops), Level(Buy, instrument, price), Level(Sell, instrument, price);
    AddsWithdrawNothing(ops);
    LevelConservation(ops, Buy, instrument, price);
    LevelConservation(ops, Sell, instrument, price);
    RunWellFormed(ops);
    PositiveVolume(e.book.resting, 1, e.book.nextId, buy);
    PositiveVolume(e.book.resting, 1, e.book.nextId, sell);
    NeverCrossed(ops, instrument, price);
    NoVolume(e.book.resting, if Select(e.book.resting, buy) == [] then buy else sell);
  }
}
