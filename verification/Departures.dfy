/** What a client leaves behind when it goes: exactly the orders of the others, as they were. */
module Departures {
  import opened Exchange
  import opened Invariants
  import B = Book
  import L = Ledger

  /** One order waits before another. */
  predicate Precedes(orders: seq<B.Order>, a: B.Order, c: B.Order) {
    exists i, j :: 0 <= i < j < |orders| && orders[i] == a && orders[j] == c
  }

  /** In a list of ascending ids that is a matter of membership and ids. */
  lemma PrecedesById(orders: seq<B.Order>, lo: int, hi: int, a: B.Order, c: B.Order)
    requires B.Ascending(orders, lo, hi)
    ensures Precedes(orders, a, c) <==> a in orders && c in orders && a.id < c.id
  {
    if i, j :| 0 <= i < j < |orders| && orders[i] == a && orders[j] == c {
      B.AscendingAt(orders, lo, hi, j);
    }
    if a in orders && c in orders && a.id < c.id {
      var i, j :| 0 <= i < |orders| && orders[i] == a && 0 <= j < |orders| && orders[j] == c;
      if j < i {
        B.AscendingAt(orders, lo, hi, i);
      }
    }
  }

  lemma RemovedMember(b: B.Book, owner: int, o: B.Order)
    ensures o in B.Apply(b, B.RemoveOwner(owner)).book.resting <==> o in b.resting && o.owner != owner
  {
    B.SelectMembers(b.resting, B.Not(B.Owner(owner)), o);
  }

  lemma {:induction false} OthersQuantity(orders: seq<B.Order>, owner: int, id: int)
    requires forall o :: o in orders && o.id == id ==> o.owner != owner
    ensures L.QuantityOf(B.Select(orders, B.Not(B.Owner(owner))), id) == L.QuantityOf(orders, id)
  {
    if orders != [] {
      assert orders[0] in orders && forall o :: o in orders[1..] ==> o in orders;
      OthersQuantity(orders[1..], owner, id);
      var stay := B.Not(B.Owner(owner));
      assert B.Meets(orders[0], stay) <==> orders[0].owner != owner;
      assert L.QuantityOf([orders[0]], id) == if orders[0].id == id then orders[0].quantity else 0 by { assert [orders[0]][1..] == []; }
      L.QuantityConcat(if B.Meets(orders[0], stay) then [orders[0]] else [], B.Select(orders[1..], stay), id);
    }
  }

  /** After a drop the orders in the book are exactly those of the others. */
  lemma DropTakesOwnOrders(s: State, fd: int, o: B.Order)
    requires fd in s.sessions
    ensures o in Drop(s, fd).book.resting <==> o in s.book.resting && o.owner != fd
    ensures Drop(s, fd).book.nextId == s.book.nextId
  {
    hide B.Apply;
    RemovedMember(s.book, fd, o);
    NextIdStays(s.book, fd);
  }

  lemma NextIdStays(b: B.Book, owner: int)
    ensures B.Apply(b, B.RemoveOwner(owner)).book.nextId == b.nextId
  {
  }

  /** Those that stay wait in the order they did. */
  lemma DropKeepsPriority(s: State, fd: int, a: B.Order, c: B.Order)
    requires Tables(s) && fd in s.sessions && a.owner != fd && c.owner != fd
    ensures Precedes(Drop(s, fd).book.resting, a, c) <==> Precedes(s.book.resting, a, c)
  {
    BookOf(s);
    hide Tables, B.Apply, Precedes, B.Run;
    var b := s.book;
    B.RunWellFormed(s.hist.ops);
    B.ApplyWellFormed(b, B.RemoveOwner(fd));
    NextIdStays(b, fd);
    PrecedesById(b.resting, 1, b.nextId, a, c);
    PrecedesById(B.Apply(b, B.RemoveOwner(fd)).book.resting, 1, b.nextId, a, c);
    RemovedMember(b, fd, a);
    RemovedMember(b, fd, c);
  }

  /** And nothing is taken from any order that is not the leaving client's. */
  lemma DropTakesNothingElse(s: State, fd: int, id: int)
    requires fd in s.sessions && forall o :: o in s.book.resting && o.id == id ==> o.owner != fd
    ensures L.QuantityOf(Drop(s, fd).book.resting, id) == L.QuantityOf(s.book.resting, id)
  {
    OthersQuantity(s.book.resting, fd, id);
  }
}
