/**
The order book as it is stored: a linked list of nodes per instrument and side, and an index from order
id to the node, so that a cancel need not search.  An iterator is the number of a node; a node number
that has been freed is no longer in `nodes`, so following a dangling iterator would not verify.
*/
module OrderBooks {
  import opened Book

  datatype Lists = Lists(buys: map<string, seq<nat>>, sells: map<string, seq<nat>>, nodes: map<nat, Order>)

  datatype Location = Location(side: Side, instrument: string, node: nat)

  datatype TradeExecution = TradeExecution(buyer: int, seller: int, instrument: string, quantity: int, price: int)

  function ExecutionOf(f: Fill): TradeExecution {
    TradeExecution(f.buyer, f.seller, f.instrument, f.quantity, f.price)
  }

  function Executions(fills: seq<Fill>): seq<TradeExecution> {
    seq(|fills|, j requires 0 <= j < |fills| => ExecutionOf(fills[j]))
  }

  function Lookup(m: map<string, seq<nat>>, instrument: string): seq<nat> {
    if instrument in m then m[instrument] else []
  }

  function At(l: Lists, side: Side, instrument: string): seq<nat> {
    Lookup(if side == Buy then l.buys else l.sells, instrument)
  }

  function Store(l: Lists, side: Side, instrument: string, queue: seq<nat>): (r: Lists)
    ensures At(r, side, instrument) == queue && r.nodes == l.nodes
    ensures forall s, i :: s != side || i != instrument ==> At(r, s, i) == At(l, s, i)
  {
    if side == Buy then l.(buys := l.buys[instrument := queue]) else l.(sells := l.sells[instrument := queue])
  }

  /** A list's nodes are allocated, distinct, and belong to that list. */
  ghost predicate Linked(l: Lists, side: Side, instrument: string) {
    var queue := At(l, side, instrument);
    && (forall j :: 0 <= j < |queue| ==> queue[j] in l.nodes && Meets(l.nodes[queue[j]], Queue(side, instrument)))
    && (forall j, k :: 0 <= j < k < |queue| ==> queue[j] != queue[k])
  }

  ghost predicate Listed(l: Lists) {
    forall side, instrument :: Linked(l, side, instrument)
  }

  ghost function Contents(l: Lists, side: Side, instrument: string): seq<Order>
    requires Linked(l, side, instrument)
  {
    var queue := At(l, side, instrument);
    seq(|queue|, j requires 0 <= j < |queue| => l.nodes[queue[j]])
  }

  /** Every location leads to a listed node of that id. */
  ghost predicate IndexSound(l: Lists, index: map<int, Location>) {
    forall id :: id in index ==>
      && index[id].node in l.nodes && l.nodes[index[id].node].id == id
      && index[id].node in At(l, index[id].side, index[id].instrument)
  }

  ghost predicate IndexesQueue(l: Lists, index: map<int, Location>, side: Side, instrument: string)
    requires Linked(l, side, instrument)
  {
    var queue := At(l, side, instrument);
    forall j :: 0 <= j < |queue| ==>
      l.nodes[queue[j]].id in index && index[l.nodes[queue[j]].id] == Location(side, instrument, queue[j])
  }

  /** The index and the lists name the same nodes. */
  ghost predicate Indexed(l: Lists, index: map<int, Location>)
    requires Listed(l)
  {
    IndexSound(l, index) && forall side, instrument :: IndexesQueue(l, index, side, instrument)
  }

  /** The lists are the per-instrument, per-side selections of the resting orders. */
  ghost predicate Represents(l: Lists, resting: seq<Order>)
    requires Listed(l)
  {
    forall side, instrument :: Contents(l, side, instrument) == Select(resting, Queue(side, instrument))
  }

  // ----- erasing a node and reducing its quantity

  function Without<T>(s: seq<T>, j: nat): seq<T>
    requires j < |s|
  {
    s[..j] + s[j + 1..]
  }

  function Erased(l: Lists, side: Side, instrument: string, j: nat): Lists
    requires j < |At(l, side, instrument)|
  {
    var queue := At(l, side, instrument);
    Store(l, side, instrument, Without(queue, j)).(nodes := l.nodes - {queue[j]})
  }

  lemma OtherQueuesApart(l: Lists, side: Side, instrument: string, j: nat, s: Side, i: string, k: nat)
    requires Listed(l) && j < |At(l, side, instrument)| && k < |At(l, s, i)|
    requires s != side || i != instrument || k != j
    ensures At(l, s, i)[k] != At(l, side, instrument)[j]
  {
    assert Linked(l, side, instrument) && Linked(l, s, i);
  }

  lemma ErasedListed(l: Lists, side: Side, instrument: string, j: nat)
    requires Listed(l) && j < |At(l, side, instrument)|
    ensures var e := Erased(l, side, instrument, j);
            && Listed(e)
            && Contents(e, side, instrument) == Without(Contents(l, side, instrument), j)
            && forall s, i :: s != side || i != instrument ==> Contents(e, s, i) == Contents(l, s, i)
  {
    var e := Erased(l, side, instrument, j);
    forall s, i ensures Linked(e, s, i) {
      assert Linked(l, s, i);
      var queue := At(e, s, i);
      forall k | 0 <= k < |queue| ensures queue[k] in e.nodes && Meets(e.nodes[queue[k]], Queue(s, i)) {
        OtherQueuesApart(l, side, instrument, j, s, i, if s == side && i == instrument && j <= k then k + 1 else k);
      }
    }
    forall s, i | s != side || i != instrument ensures Contents(e, s, i) == Contents(l, s, i) {
      assert Linked(e, s, i) && Linked(l, s, i);
    }
    assert Linked(e, side, instrument) && Linked(l, side, instrument);
    forall k | 0 <= k < |At(e, side, instrument)|
      ensures Contents(e, side, instrument)[k] == Without(Contents(l, side, instrument), j)[k]
    {
      OtherQueuesApart(l, side, instrument, j, side, instrument, if j <= k then k + 1 else k);
    }
  }

  lemma ErasedQueues(l: Lists, index: map<int, Location>, side: Side, instrument: string, j: nat, s: Side, i: string)
    requires Listed(l) && Indexed(l, index) && j < |At(l, side, instrument)|
    requires Linked(l, side, instrument) && Listed(Erased(l, side, instrument, j))
    ensures IndexesQueue(Erased(l, side, instrument, j), index - {l.nodes[At(l, side, instrument)[j]].id}, s, i)
  {
    hide IndexSound, Meets;
    var e := Erased(l, side, instrument, j);
    var index' := index - {l.nodes[At(l, side, instrument)[j]].id};
    assert IndexesQueue(l, index, side, instrument);
    assert Linked(e, s, i) && IndexesQueue(l, index, s, i);
    var queue := At(e, s, i);
    forall k | 0 <= k < |queue| ensures e.nodes[queue[k]].id in index' && index'[e.nodes[queue[k]].id] == Location(s, i, queue[k]) {
      var k' := if s == side && i == instrument && j <= k then k + 1 else k;
      OtherQueuesApart(l, side, instrument, j, s, i, k');
      assert At(l, s, i)[k'] == queue[k];
    }
  }

  lemma ErasedSound(l: Lists, index: map<int, Location>, side: Side, instrument: string, j: nat)
    requires Listed(l) && Indexed(l, index) && j < |At(l, side, instrument)| && Linked(l, side, instrument)
    ensures IndexSound(Erased(l, side, instrument, j), index - {l.nodes[At(l, side, instrument)[j]].id})
  {
    hide Meets;
    var e := Erased(l, side, instrument, j);
    var index' := index - {l.nodes[At(l, side, instrument)[j]].id};
    forall id | id in index'
      ensures && index'[id].node in e.nodes && e.nodes[index'[id].node].id == id
              && index'[id].node in At(e, index'[id].side, index'[id].instrument)
    {
      var at := index[id];
      var k :| 0 <= k < |At(l, at.side, at.instrument)| && At(l, at.side, at.instrument)[k] == at.node;
      if at.side == side && at.instrument == instrument {
        assert At(e, side, instrument)[if k < j then k else k - 1] == at.node;
      }
    }
  }

  lemma ErasedIndexed(l: Lists, index: map<int, Location>, side: Side, instrument: string, j: nat)
    requires Listed(l) && Indexed(l, index) && j < |At(l, side, instrument)|
    requires Linked(l, side, instrument) && Listed(Erased(l, side, instrument, j))
    ensures Indexed(Erased(l, side, instrument, j), index - {l.nodes[At(l, side, instrument)[j]].id})
  {
    hide IndexSound, IndexesQueue, Erased, Meets;
    ErasedSound(l, index, side, instrument, j);
    forall s, i ensures IndexesQueue(Erased(l, side, instrument, j), index - {l.nodes[At(l, side, instrument)[j]].id}, s, i) {
      ErasedQueues(l, index, side, instrument, j, s, i);
    }
  }

  lemma ReducedListed(l: Lists, index: map<int, Location>, side: Side, instrument: string, j: nat, q: int)
    requires Listed(l) && Indexed(l, index) && j < |At(l, side, instrument)| && At(l, side, instrument)[j] in l.nodes
    ensures var node := At(l, side, instrument)[j];
            var r := l.(nodes := l.nodes[node := Reduced(l.nodes[node], q)]);
            && Listed(r) && Indexed(r, index)
            && Contents(r, side, instrument) == Contents(l, side, instrument)[j := Reduced(l.nodes[node], q)]
            && forall s, i :: s != side || i != instrument ==> Contents(r, s, i) == Contents(l, s, i)
  {
    var node := At(l, side, instrument)[j];
    var r := l.(nodes := l.nodes[node := Reduced(l.nodes[node], q)]);
    forall s, i ensures At(r, s, i) == At(l, s, i) && Linked(r, s, i) {
      assert Linked(l, s, i);
    }
    forall s, i ensures IndexesQueue(r, index, s, i) {
      assert IndexesQueue(l, index, s, i);
    }
    forall s, i | s != side || i != instrument ensures Contents(r, s, i) == Contents(l, s, i) {
      forall k | 0 <= k < |At(l, s, i)| ensures r.nodes[At(l, s, i)[k]] == l.nodes[At(l, s, i)[k]] {
        OtherQueuesApart(l, side, instrument, j, s, i, k);
      }
    }
    assert Linked(l, side, instrument);
  }

  // ----- erasing through the index is selecting by id and owner

  lemma {:induction false} SelectNone(orders: seq<Order>, p: Pick)
    requires forall j :: 0 <= j < |orders| ==> !Meets(orders[j], p)
    ensures Select(orders, Not(p)) == orders
  {
    if orders != [] {
      SelectNone(orders[1..], p);
    }
  }

  lemma SelectAllButOne(orders: seq<Order>, lo: int, hi: int, j: nat)
    requires Ascending(orders, lo, hi) && j < |orders|
    ensures Select(orders, Not(Own(orders[j].id, orders[j].owner))) == Without(orders, j)
  {
    hide Select, Ascending;
    var p, before, after := Own(orders[j].id, orders[j].owner), orders[..j], orders[j + 1..];
    OthersMiss(orders, lo, hi, j);
    SelectNone(before, p);
    SelectNone(after, p);
    SelectOne(orders[j], p);
    SelectConcat(before, [orders[j]] + after, Not(p));
    SelectConcat([orders[j]], after, Not(p));
    assert orders == before + ([orders[j]] + after);
  }

  lemma SelectOne(o: Order, p: Pick)
    requires Meets(o, p)
    ensures Select([o], Not(p)) == []
  {
    assert !Meets(o, Not(p));
  }

  lemma OthersMiss(orders: seq<Order>, lo: int, hi: int, j: nat)
    requires Ascending(orders, lo, hi) && j < |orders|
    ensures var p, before, after := Own(orders[j].id, orders[j].owner), orders[..j], orders[j + 1..];
            && (forall k :: 0 <= k < |before| ==> !Meets(before[k], p))
            && (forall k :: 0 <= k < |after| ==> !Meets(after[k], p))
  {
    forall k | 0 <= k < |orders| && k != j ensures orders[k].id != orders[j].id {
      if orders[k].id == orders[j].id {
        AscendingUnique(orders, lo, hi, j, k);
      }
    }
  }

  lemma ErasedRepresents(l: Lists, resting: seq<Order>, hi: int, side: Side, instrument: string, j: nat)
    requires Listed(l) && Represents(l, resting) && Ascending(resting, 1, hi) && j < |At(l, side, instrument)|
    requires Linked(l, side, instrument) && Listed(Erased(l, side, instrument, j))
    ensures var o := l.nodes[At(l, side, instrument)[j]];
            Represents(Erased(l, side, instrument, j), Select(resting, Not(Own(o.id, o.owner))))
  {
    var e, o := Erased(l, side, instrument, j), l.nodes[At(l, side, instrument)[j]];
    var own := Own(o.id, o.owner);
    ErasedListed(l, side, instrument, j);
    assert Contents(l, side, instrument) == Select(resting, Queue(side, instrument));
    assert Contents(l, side, instrument)[j] == o;
    forall s, i ensures Contents(e, s, i) == Select(Select(resting, Not(own)), Queue(s, i)) {
      var queue := Select(resting, Queue(s, i));
      SelectCommutes(resting, Not(own), Queue(s, i));
      AscendingSelect(resting, 1, hi, Queue(s, i));
      assert Contents(l, s, i) == queue;
      if s == side && i == instrument {
        SelectAllButOne(queue, 1, hi, j);
      } else {
        forall k | 0 <= k < |queue| ensures !Meets(queue[k], own) {
          SelectMembers(resting, Queue(s, i), queue[k]);
          SelectMembers(resting, Queue(side, instrument), o);
          if queue[k].id == o.id {
            var a, b :| 0 <= a < |resting| && resting[a] == queue[k] && 0 <= b < |resting| && resting[b] == o;
            AscendingUnique(resting, 1, hi, a, b);
          }
        }
        SelectNone(queue, own);
      }
    }
  }

  /** The resting ids are exactly the indexed ones, each located at its own order. */
  lemma IndexKeys(l: Lists, index: map<int, Location>, resting: seq<Order>, id: int)
    requires Listed(l) && Indexed(l, index) && Represents(l, resting)
    ensures id in index <==> exists o :: o in resting && o.id == id
    ensures id in index ==> l.nodes[index[id].node] in resting
  {
    if id in index {
      var at := index[id];
      assert Linked(l, at.side, at.instrument);
      assert Contents(l, at.side, at.instrument) == Select(resting, Queue(at.side, at.instrument));
      var k :| 0 <= k < |At(l, at.side, at.instrument)| && At(l, at.side, at.instrument)[k] == at.node;
      assert Contents(l, at.side, at.instrument)[k] == l.nodes[at.node];
      SelectMembers(resting, Queue(at.side, at.instrument), l.nodes[at.node]);
    }
    if o :| o in resting && o.id == id {
      SelectMembers(resting, Queue(o.side, o.instrument), o);
      assert IndexesQueue(l, index, o.side, o.instrument);
      var k :| 0 <= k < |Contents(l, o.side, o.instrument)| && Contents(l, o.side, o.instrument)[k] == o;
      assert l.nodes[At(l, o.side, o.instrument)[k]] == o;
    }
  }

  // ----- the scan of the opposite list

  function Prepend(front: seq<Order>, fills: seq<Fill>, m: Matched): Matched {
    Matched(front + m.orders, m.remaining, fills + m.fills)
  }

  /** One step of the scan: pass over a node. */
  lemma ScanPast(whole: Matched, queue: seq<Order>, k: nat, fills: seq<Fill>, taker: Order)
    requires k < |queue| && taker.quantity > 0 && !Crosses(queue[k], taker)
    requires whole == Prepend(queue[..k], fills, Match(queue[k..], taker))
    ensures whole == Prepend(queue[..k + 1], fills, Match(queue[k + 1..], taker))
  {
    hide Match, Crosses;
    assert queue[k..][0] == queue[k] && queue[k..][1..] == queue[k + 1..];
    MatchHead(queue[k..], taker);
    assert queue[..k + 1] == queue[..k] + [queue[k]];
    PrependTwice(queue[..k], fills, [queue[k]], [], Match(queue[k + 1..], taker));
    assert fills + [] == fills;
  }

  /** One step of the scan: drop a node, or leave it in place with less to fill. */
  lemma ScanFill(whole: Matched, queue: seq<Order>, k: nat, fills: seq<Fill>, taker: Order)
    requires k < |queue| && taker.quantity > 0 && Crosses(queue[k], taker)
    requires whole == Prepend(queue[..k], fills, Match(queue[k..], taker))
    ensures var f := FillOf(queue[k], taker);
            whole == Prepend(queue[..k] + Kept(queue[k], f.quantity), fills + [f],
                             Match(queue[k + 1..], Reduced(taker, f.quantity)))
  {
    hide Match, Crosses, FillOf, Kept;
    var f := FillOf(queue[k], taker);
    assert queue[k..][0] == queue[k] && queue[k..][1..] == queue[k + 1..];
    MatchHead(queue[k..], taker);
    PrependTwice(queue[..k], fills, Kept(queue[k], f.quantity), [f], Match(queue[k + 1..], Reduced(taker, f.quantity)));
  }

  lemma PrependTwice(a: seq<Order>, f: seq<Fill>, b: seq<Order>, g: seq<Fill>, m: Matched)
    ensures Prepend(a, f, Prepend(b, g, m)) == Prepend(a + b, f + g, m)
  {
    assert a + (b + m.orders) == (a + b) + m.orders && f + (g + m.fills) == (f + g) + m.fills;
  }

  lemma MatchHead(orders: seq<Order>, taker: Order)
    requires orders != [] && taker.quantity > 0
    ensures Match(orders, taker) ==
            if Crosses(orders[0], taker) then
              var f := FillOf(orders[0], taker);
              Prepend(Kept(orders[0], f.quantity), [f], Match(orders[1..], Reduced(taker, f.quantity)))
            else Prepend([orders[0]], [], Match(orders[1..], taker))
  {
    var m := Match(orders[1..], taker);
    assert [] + m.fills == m.fills;
  }

  lemma ExecutionsAppend(fills: seq<Fill>, f: Fill)
    ensures Executions(fills + [f]) == Executions(fills) + [ExecutionOf(f)]
  {
  }

  /**
  An execution of an owner's incoming order against one of these resting orders: of the other side, at the
  same instrument and price, the buyer being whoever wanted to buy.
  */
  predicate Between(x: TradeExecution, resting: seq<Order>, owner: int, instrument: string, side: Side, price: int) {
    && x.instrument == instrument && x.price == price
    && exists i :: 0 <= i < |resting| && Deals(x, resting[i], owner, instrument, side, price)
  }

  predicate Deals(x: TradeExecution, o: Order, owner: int, instrument: string, side: Side, price: int) {
    && o.side != side && o.instrument == instrument && o.price == price
    && if side == Buy then x.buyer == owner && x.seller == o.owner else x.seller == owner && x.buyer == o.owner
  }

  lemma {:induction false} FillsBetween(orders: seq<Order>, taker: Order, j: nat)
    requires j < |Match(orders, taker).fills|
    ensures Between(ExecutionOf(Match(orders, taker).fills[j]), orders, taker.owner, taker.instrument, taker.side, taker.price)
    decreases |orders|
  {
    var x := ExecutionOf(Match(orders, taker).fills[j]);
    if Crosses(orders[0], taker) && j == 0 {
      assert Deals(x, orders[0], taker.owner, taker.instrument, taker.side, taker.price);
    } else {
      var q := if Crosses(orders[0], taker) then FillOf(orders[0], taker).quantity else 0;
      var k := if Crosses(orders[0], taker) then j - 1 else j;
      assert Reduced(taker, 0) == taker;
      FillsBetween(orders[1..], Reduced(taker, q), k);
      var i :| 0 <= i < |orders[1..]| && Deals(x, orders[1..][i], taker.owner, taker.instrument, taker.side, taker.price);
      assert Deals(x, orders[i + 1], taker.owner, taker.instrument, taker.side, taker.price);
    }
  }

  predicate AllBetween(xs: seq<TradeExecution>, resting: seq<Order>, owner: int, instrument: string, side: Side, price: int) {
    forall j :: 0 <= j < |xs| ==> Between(xs[j], resting, owner, instrument, side, price)
  }

  lemma AllFillsBetween(orders: seq<Order>, taker: Order)
    ensures AllBetween(Executions(Match(orders, taker).fills), orders, taker.owner, taker.instrument, taker.side, taker.price)
  {
    var xs := Executions(Match(orders, taker).fills);
    forall j | 0 <= j < |xs| ensures Between(xs[j], orders, taker.owner, taker.instrument, taker.side, taker.price) {
      FillsBetween(orders, taker, j);
    }
  }

  // ----- resting a new order

  function Pushed(l: Lists, node: nat, o: Order): (p: Lists)
    ensures At(p, o.side, o.instrument) == At(l, o.side, o.instrument) + [node] && p.nodes == l.nodes[node := o]
    ensures forall s, i :: s != o.side || i != o.instrument ==> At(p, s, i) == At(l, s, i)
  {
    var r := Store(l, o.side, o.instrument, At(l, o.side, o.instrument) + [node]);
    r.(nodes := r.nodes[node := o])
  }

  lemma PushedListed(l: Lists, index: map<int, Location>, node: nat, o: Order)
    requires Listed(l) && Indexed(l, index) && node !in l.nodes && o.id !in index
    ensures var r := Pushed(l, node, o);
            && Listed(r) && Indexed(r, index[o.id := Location(o.side, o.instrument, node)])
            && Contents(r, o.side, o.instrument) == Contents(l, o.side, o.instrument) + [o]
            && forall s, i :: s != o.side || i != o.instrument ==> Contents(r, s, i) == Contents(l, s, i)
  {
    var r, index' := Pushed(l, node, o), index[o.id := Location(o.side, o.instrument, node)];
    forall s, i ensures Linked(r, s, i) {
      PushedLinked(l, node, o, s, i);
    }
    PushedSound(l, index, node, o);
    hide IndexSound;
    forall s, i ensures IndexesQueue(r, index', s, i) {
      PushedIndexes(l, index, node, o, s, i);
    }
    forall s, i | s != o.side || i != o.instrument ensures Contents(r, s, i) == Contents(l, s, i) {
      assert Linked(l, s, i) && Linked(r, s, i);
    }
    assert Linked(l, o.side, o.instrument);
  }

  lemma PushedLinked(l: Lists, node: nat, o: Order, s: Side, i: string)
    requires Linked(l, s, i) && node !in l.nodes
    ensures Linked(Pushed(l, node, o), s, i)
  {
  }

  lemma PushedIndexes(l: Lists, index: map<int, Location>, node: nat, o: Order, s: Side, i: string)
    requires Linked(l, s, i) && IndexesQueue(l, index, s, i) && node !in l.nodes && o.id !in index
    requires Linked(Pushed(l, node, o), s, i)
    ensures IndexesQueue(Pushed(l, node, o), index[o.id := Location(o.side, o.instrument, node)], s, i)
  {
  }

  lemma PushedSound(l: Lists, index: map<int, Location>, node: nat, o: Order)
    requires IndexSound(l, index) && node !in l.nodes && o.id !in index
    ensures IndexSound(Pushed(l, node, o), index[o.id := Location(o.side, o.instrument, node)])
  {
    var r := Pushed(l, node, o);
    forall id | id in index ensures index[id].node in At(r, index[id].side, index[id].instrument) {
      var queue := At(l, index[id].side, index[id].instrument);
      var k :| 0 <= k < |queue| && queue[k] == index[id].node;
      assert At(r, index[id].side, index[id].instrument)[k] == index[id].node;
    }
    assert At(r, o.side, o.instrument)[|At(l, o.side, o.instrument)|] == node;
  }

  lemma PushedRepresents(l: Lists, r: Lists, resting: seq<Order>, o: Order)
    requires Listed(l) && Listed(r) && Represents(l, resting)
    requires Contents(r, o.side, o.instrument) == Contents(l, o.side, o.instrument) + [o]
    requires forall s, i :: s != o.side || i != o.instrument ==> Contents(r, s, i) == Contents(l, s, i)
    ensures Represents(r, resting + [o])
  {
    forall s, i ensures Contents(r, s, i) == Select(resting + [o], Queue(s, i)) {
      assert Contents(l, s, i) == Select(resting, Queue(s, i));
      SelectConcat(resting, [o], Queue(s, i));
    }
  }

  /** Scanning one list is matching against the whole book. */
  lemma ScannedRepresents(l: Lists, r: Lists, resting: seq<Order>, taker: Order)
    requires Listed(l) && Listed(r) && Represents(l, resting)
    requires var side := Opposite(taker.side);
             && Contents(r, side, taker.instrument) == Match(Contents(l, side, taker.instrument), taker).orders
             && forall s, i :: s != side || i != taker.instrument ==> Contents(r, s, i) == Contents(l, s, i)
    ensures Represents(r, Match(resting, taker).orders)
    ensures var m, n := Match(Contents(l, Opposite(taker.side), taker.instrument), taker), Match(resting, taker);
            m.remaining == n.remaining && m.fills == n.fills
  {
    var opposite := Queue(Opposite(taker.side), taker.instrument);
    assert Contents(l, opposite.side, opposite.instrument) == Select(resting, opposite);
    MatchCovered(resting, taker, opposite);
    forall s, i ensures Contents(r, s, i) == Select(Match(resting, taker).orders, Queue(s, i)) {
      assert Contents(l, s, i) == Select(resting, Queue(s, i));
      if !Covers(Queue(s, i), taker) {
        MatchUncovered(resting, taker, Queue(s, i));
      }
    }
  }

  /** The next key of an unordered container: any one of them. */
  method AnyOf(keys: set<int>) returns (key: int)
    requires keys != {}
    ensures key in keys
  {
    SomeKey(keys);
    key :| key in keys;
  }

  lemma SomeKey(keys: set<int>)
    ensures keys == {} || exists key :: key in keys
  {
    if forall key :: key !in keys {
      assert keys == {};
    }
  }

  class OrderBook {
    var nextOrderId: int
    var buys: map<string, seq<nat>>
    var sells: map<string, seq<nat>>
    var nodes: map<nat, Order>
    var nextNode: nat
    var index: map<int, Location>
    ghost var resting: seq<Order>

    function Now(): Lists
      reads this
    {
      Lists(buys, sells, nodes)
    }

    ghost function Abs(): Book
      reads this
    {
      Book(nextOrderId, resting)
    }

    ghost predicate Stored()
      reads this
    {
      Listed(Now()) && Indexed(Now(), index) && forall n :: n in nodes ==> n < nextNode
    }

    ghost predicate Valid()
      reads this
    {
      Stored() && WellFormed(Abs()) && Represents(Now(), resting)
    }

    constructor ()
      ensures Valid() && Abs() == EMPTY_BOOK
    {
      nextOrderId, buys, sells, nodes, nextNode, index, resting := 1, map[], map[], map[], 0, map[], [];
    }

    /** Takes a traded quantity off a node in place, and unlinks the node when nothing is left of it. */
    method TakeFrom(side: Side, instrument: string, it: nat, traded: int) returns (unlinked: bool)
      requires Stored() && it < |At(Now(), side, instrument)|
      modifies this`buys, this`sells, this`nodes, this`index
      ensures Stored()
      ensures forall s, i :: s != side || i != instrument ==> Contents(Now(), s, i) == old(Contents(Now(), s, i))
      ensures var queue := old(Contents(Now(), side, instrument));
              && unlinked == (queue[it].quantity == traded)
              && Contents(Now(), side, instrument) == queue[..it] + Kept(queue[it], traded) + queue[it + 1..]
    {
      hide IndexSound, IndexesQueue, Meets;
      ghost var queue := Contents(Now(), side, instrument);
      assert Linked(Now(), side, instrument);
      var node := At(Now(), side, instrument)[it];
      ReducedListed(Now(), index, side, instrument, it, traded);
      nodes := nodes[node := Reduced(nodes[node], traded)];
      unlinked := nodes[node].quantity == 0;
      if unlinked {
        ErasedListed(Now(), side, instrument, it);
        ErasedIndexed(Now(), index, side, instrument, it);
        index := index - {nodes[node].id};
        var e := Erased(Now(), side, instrument, it);
        buys, sells, nodes := e.buys, e.sells, e.nodes;
        assert Now() == e;
      }
    }

    /** The loop of an add: walks the opposite list, filling from every node at the incoming price. */
    method Scan(side: Side, instrument: string, ghost taker: Order, owner: int, quantity: int, price: int)
      returns (remaining: int, executions: seq<TradeExecution>)
      requires Stored()
      requires taker.owner == owner && taker.instrument == instrument && taker.quantity == quantity
      requires taker.price == price && Opposite(taker.side) == side
      modifies this`buys, this`sells, this`nodes, this`index
      ensures Stored()
      ensures forall s, i :: s != side || i != instrument ==> Contents(Now(), s, i) == old(Contents(Now(), s, i))
      ensures var m := Match(old(Contents(Now(), side, instrument)), taker);
              && Contents(Now(), side, instrument) == m.orders
              && remaining == m.remaining && executions == Executions(m.fills)
      ensures AllBetween(executions, old(Contents(Now(), side, instrument)), owner, instrument, Opposite(side), price)
    {
      hide Match, IndexSound, IndexesQueue, Executions, Prepend, AllBetween;
      AllFillsBetween(Contents(Now(), side, instrument), taker);
      ghost var whole := Match(Contents(Now(), side, instrument), taker);
      ghost var fills := [];
      ScanStart(Contents(Now(), side, instrument), taker);
      remaining, executions := quantity, [];
      var it := 0;
      assert taker.(quantity := remaining) == taker;
      while it < |At(Now(), side, instrument)| && remaining > 0
        invariant it <= |At(Now(), side, instrument)|
        invariant Stored()
        invariant forall s, i :: s != side || i != instrument ==> Contents(Now(), s, i) == old(Contents(Now(), s, i))
        invariant executions == Executions(fills)
        invariant var queue := Contents(Now(), side, instrument);
                  whole == Prepend(queue[..it], fills, Match(queue[it..], taker.(quantity := remaining)))
        decreases |At(Now(), side, instrument)| - it
      {
        ghost var queue, t := Contents(Now(), side, instrument), taker.(quantity := remaining);
        assert Linked(Now(), side, instrument);
        var order := nodes[At(Now(), side, instrument)[it]];
        if order.price != price {
          ScanPast(whole, queue, it, fills, t);
          it := it + 1;
        } else {
          var traded := Min(remaining, order.quantity);
          executions := executions +
            [TradeExecution(if side == Sell then owner else order.owner,
                            if side == Sell then order.owner else owner, instrument, traded, price)];
          ScanFill(whole, queue, it, fills, t);
          ExecutionsAppend(fills, FillOf(order, t));
          fills := fills + [FillOf(order, t)];
          remaining := remaining - traded;
          var unlinked := TakeFrom(side, instrument, it, traded);
          AroundKept(queue, it, traded);
          if !unlinked {
            it := it + 1;
          }
          assert Reduced(t, traded) == taker.(quantity := remaining);
        }
      }
      ScanEnd(whole, Contents(Now(), side, instrument), it, fills, taker.(quantity := remaining));
    }

    method AddOrder(owner: int, instrument: string, side: Side, quantity: int, price: int)
      returns (orderId: int, executions: seq<TradeExecution>)
      requires Valid()
      modifies this
      ensures Valid()
      ensures orderId == old(nextOrderId)
      ensures var e := Apply(old(Abs()), Add(owner, instrument, side, quantity, price));
              Abs() == e.book && executions == Executions(e.fills)
      ensures AllBetween(executions, old(resting), owner, instrument, side, price)
    {
      hide AllBetween;
      AllFillsBetween(resting, Order(nextOrderId, owner, instrument, side, quantity, price));
      ghost var b, op := Abs(), Add(owner, instrument, side, quantity, price);
      AddOutcome(b, op);
      orderId, nextOrderId := nextOrderId, nextOrderId + 1;
      var remaining;
      remaining, executions := MatchIncoming(Taker(b, op), owner, instrument, side, quantity, price);
      if remaining > 0 {
        FreshId(Now(), index, resting, orderId);
        Rest(Order(orderId, owner, instrument, side, remaining, price));
      }
    }

    method MatchIncoming(ghost taker: Order, owner: int, instrument: string, side: Side, quantity: int, price: int)
      returns (remaining: int, executions: seq<TradeExecution>)
      requires Stored() && Represents(Now(), resting)
      requires taker.owner == owner && taker.instrument == instrument && taker.quantity == quantity
      requires taker.price == price && taker.side == side
      modifies this`buys, this`sells, this`nodes, this`index, this`resting
      ensures Stored() && Represents(Now(), resting)
      ensures Matched(resting, remaining, Match(old(resting), taker).fills) == Match(old(resting), taker)
      ensures executions == Executions(Match(old(resting), taker).fills)
    {
      ghost var l := Now();
      remaining, executions := Scan(Opposite(side), instrument, taker, owner, quantity, price);
      ScannedRepresents(l, Now(), resting, taker);
      resting := Match(resting, taker).orders;
    }

    /** Appends a node to its list and records where it is. */
    method Rest(order: Order)
      requires Stored() && Represents(Now(), resting) && order.id !in index
      modifies this`buys, this`sells, this`nodes, this`index, this`nextNode, this`resting
      ensures Stored() && resting == old(resting) + [order] && Represents(Now(), resting)
    {
      ghost var l := Now();
      PushedListed(Now(), index, nextNode, order);
      var r := Pushed(Now(), nextNode, order);
      buys, sells, nodes := r.buys, r.sells, r.nodes;
      index := index[order.id := Location(order.side, order.instrument, nextNode)];
      nextNode := nextNode + 1;
      assert Now() == r;
      PushedRepresents(l, r, resting, order);
      resting := resting + [order];
    }

    /** Unlinks a node through its location. */
    method EraseAt(orderId: int, location: Location)
      requires Valid() && orderId in index && index[orderId] == location
      modifies this`buys, this`sells, this`nodes, this`index, this`resting
      ensures Valid() && index == old(index) - {orderId}
      ensures forall id :: id in index ==> nodes[index[id].node] == old(nodes[index[id].node])
      ensures resting == Select(old(resting), Not(Own(orderId, old(nodes[location.node]).owner)))
    {
      var k := Position(location);
      ghost var owner := nodes[location.node].owner;
      EraseOutcome(Now(), index, resting, nextOrderId, location.side, location.instrument, k);
      var e := Erased(Now(), location.side, location.instrument, k);
      buys, sells, nodes := e.buys, e.sells, e.nodes;
      index := index - {orderId};
      resting := Select(resting, Not(Own(orderId, owner)));
      assert Now() == e;
    }

    method Position(location: Location) returns (k: nat)
      requires location.node in At(Now(), location.side, location.instrument)
      ensures k < |At(Now(), location.side, location.instrument)|
      ensures At(Now(), location.side, location.instrument)[k] == location.node
    {
      var queue := At(Now(), location.side, location.instrument);
      k := 0;
      while queue[k] != location.node
        invariant k < |queue| && location.node in queue[k..]
        decreases |queue| - k
      {
        k := k + 1;
      }
    }

    /** Refuses an unknown id and another trader's order; otherwise the order is gone. */
    method CancelOrder(orderId: int, requester: int) returns (done: bool, known: bool)
      requires Valid()
      modifies this`buys, this`sells, this`nodes, this`index, this`resting
      ensures Valid() && Abs() == Apply(old(Abs()), Cancel(orderId, requester)).book
      ensures known <==> exists o :: o in old(resting) && o.id == orderId
      ensures done <==> exists o :: o in old(resting) && Meets(o, Own(orderId, requester))
    {
      IndexKeys(Now(), index, resting, orderId);
      known := orderId in index;
      done := known && nodes[index[orderId].node].owner == requester;
      if done {
        EraseAt(orderId, index[orderId]);
      } else {
        forall j | 0 <= j < |resting| ensures !Meets(resting[j], Own(orderId, requester)) {
          assert resting[j] in resting;
          if known && resting[j].id == orderId {
            OnlyOne(resting, nextOrderId, resting[j], nodes[index[orderId].node]);
          }
        }
        SelectNone(resting, Own(orderId, requester));
      }
    }

    /** Walks the whole index, in whatever order it is stored, and unlinks the owner's nodes. */
    method RemoveOrdersOf(owner: int)
      requires Valid()
      modifies this`buys, this`sells, this`nodes, this`index, this`resting
      ensures Valid() && Abs() == Apply(old(Abs()), RemoveOwner(owner)).book
      ensures nextOrderId == old(nextOrderId)
      ensures forall o :: o in resting <==> o in old(resting) && o.owner != owner
    {
      ghost var before := resting;
      var todo := index.Keys;
      while todo != {}
        invariant Valid() && nextOrderId == old(nextOrderId)
        invariant todo <= index.Keys
        invariant forall id :: id in index && id !in todo ==> nodes[index[id].node].owner != owner
        invariant Select(resting, Not(Owner(owner))) == Select(before, Not(Owner(owner)))
        decreases |todo|
      {
        var id := AnyOf(todo);
        todo := todo - {id};
        if nodes[index[id].node].owner == owner {
          SelectCommutes(resting, Not(Own(id, owner)), Not(Owner(owner)));
          ghost var others := Select(resting, Not(Owner(owner)));
          forall j | 0 <= j < |others| ensures !Meets(others[j], Own(id, owner)) {
            SelectMembers(resting, Not(Owner(owner)), others[j]);
          }
          SelectNone(others, Own(id, owner));
          EraseAt(id, index[id]);
        }
      }
      forall j | 0 <= j < |resting| ensures !Meets(resting[j], Owner(owner)) {
        IndexKeys(Now(), index, resting, resting[j].id);
        OnlyOne(resting, nextOrderId, resting[j], nodes[index[resting[j].id].node]);
      }
      SelectNone(resting, Owner(owner));
      forall o ensures o in resting <==> o in before && o.owner != owner {
        SelectMembers(before, Not(Owner(owner)), o);
      }
    }
  }

  lemma EraseOutcome(l: Lists, index: map<int, Location>, resting: seq<Order>, hi: int, side: Side, instrument: string, j: nat)
    requires Listed(l) && Indexed(l, index) && Represents(l, resting) && Ascending(resting, 1, hi)
    requires j < |At(l, side, instrument)| && At(l, side, instrument)[j] in l.nodes
    ensures var e, o := Erased(l, side, instrument, j), l.nodes[At(l, side, instrument)[j]];
            var left := Select(resting, Not(Own(o.id, o.owner)));
            && Listed(e) && Indexed(e, index - {o.id}) && Represents(e, left) && Ascending(left, 1, hi)
  {
    var o := l.nodes[At(l, side, instrument)[j]];
    assert Linked(l, side, instrument);
    ErasedListed(l, side, instrument, j);
    ErasedIndexed(l, index, side, instrument, j);
    ErasedRepresents(l, resting, hi, side, instrument, j);
    AscendingSelect(resting, 1, hi, Not(Own(o.id, o.owner)));
  }

  lemma AddOutcome(b: Book, op: Op)
    requires WellFormed(b) && op.Add?
    ensures var e, taker := Apply(b, op), Taker(b, op);
            var m := Match(b.resting, taker);
            && WellFormed(e.book) && Ascending(m.orders, 1, b.nextId)
            && (m.remaining <= 0 ==> e.book == Book(b.nextId + 1, m.orders))
            && (m.remaining > 0 ==> e.book == Book(b.nextId + 1, m.orders + [taker.(quantity := m.remaining)]))
  {
    var taker := Taker(b, op);
    var m := Match(b.resting, taker);
    ApplyWellFormed(b, op);
    AscendingMatch(b.resting, 1, b.nextId, taker);
    assert m.remaining <= 0 ==> m.orders + Remainder(taker, m.remaining) == m.orders;
  }

  lemma FreshId(l: Lists, index: map<int, Location>, resting: seq<Order>, hi: int)
    requires Listed(l) && Indexed(l, index) && Represents(l, resting) && Ascending(resting, 1, hi)
    ensures hi !in index
  {
    IndexKeys(l, index, resting, hi);
    forall o | o in resting ensures o.id != hi {
      var i :| 0 <= i < |resting| && resting[i] == o;
      AscendingAt(resting, 1, hi, i);
    }
  }

  lemma OnlyOne(orders: seq<Order>, hi: int, a: Order, b: Order)
    requires Ascending(orders, 1, hi) && a in orders && b in orders && a.id == b.id
    ensures a == b
  {
    var i, j :| 0 <= i < |orders| && orders[i] == a && 0 <= j < |orders| && orders[j] == b;
    AscendingUnique(orders, 1, hi, i, j);
  }

  lemma ScanStart(queue: seq<Order>, taker: Order)
    ensures Match(queue, taker) == Prepend(queue[..0], [], Match(queue[0..], taker))
    ensures Executions([]) == []
  {
    assert queue[0..] == queue;
    var m := Match(queue, taker);
    assert [] + m.orders == m.orders && [] + m.fills == m.fills;
  }

  /** Nothing is left to scan, or nothing to fill. */
  lemma ScanEnd(whole: Matched, queue: seq<Order>, k: nat, fills: seq<Fill>, taker: Order)
    requires k <= |queue| && (k == |queue| || taker.quantity <= 0)
    requires whole == Prepend(queue[..k], fills, Match(queue[k..], taker))
    ensures whole == Matched(queue, taker.quantity, fills)
  {
    assert queue[..k] + queue[k..] == queue && fills + [] == fills;
  }

  lemma AroundKept(queue: seq<Order>, k: nat, q: int)
    requires k < |queue|
    ensures var queue' := queue[..k] + Kept(queue[k], q) + queue[k + 1..];
            var k' := if queue[k].quantity == q then k else k + 1;
            queue'[..k'] == queue[..k] + Kept(queue[k], q) && queue'[k'..] == queue[k + 1..]
  {
  }
}
