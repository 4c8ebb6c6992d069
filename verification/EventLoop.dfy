/** Readiness notification: both backends keep one map from descriptor to interest. */
module EventLoops {
  import opened Sequences
  import opened Sockets

  // ----- the poll backend

  datatype PollFd = PollFd(fd: int, events: Interest)

  /** What poll reports for an entry. */
  datatype Revents = Revents(pollIn: bool, pollOut: bool, pollHup: bool, pollErr: bool, pollNval: bool)

  predicate IsQuiet(r: Revents) {
    !r.pollIn && !r.pollOut && !r.pollHup && !r.pollErr && !r.pollNval
  }

  /** Equal maps, key by key. */
  lemma SameMap(a: map<int, Interest>, b: map<int, Interest>)
    requires a.Keys == b.Keys && forall x :: x in a && x in b ==> a[x] == b[x]
    ensures a == b
  {
    forall x | x in a ensures a[x] == b[x] {}
  }

  class PollLoop {
    var pollfds: seq<PollFd>
    var index: map<int, nat>

    /** The array and the index are inverse to each other. */
    ghost predicate Valid()
      reads this
    {
      && (forall fd :: fd in index ==> index[fd] < |pollfds| && pollfds[index[fd]].fd == fd)
      && (forall i :: 0 <= i < |pollfds| ==> pollfds[i].fd in index && index[pollfds[i].fd] == i)
    }

    /** The registered interest of each descriptor. */
    ghost function Interests(): (m: map<int, Interest>)
      requires Valid()
      reads this
      ensures m.Keys == index.Keys
    {
      map fd | fd in index :: pollfds[index[fd]].events
    }

    constructor ()
      ensures Valid() && Interests() == map[]
    {
      pollfds, index := [], map[];
    }

    /** Registering twice is updating. */
    method Add(fd: int, want: Interest)
      requires Valid()
      modifies this
      ensures Valid() && Interests() == old(Interests())[fd := want]
      decreases if fd in index then 1 else 0
    {
      if fd in index {
        Update(fd, want);
        return;
      }
      index := index[fd := |pollfds|];
      pollfds := pollfds + [PollFd(fd, want)];
      SameMap(Interests(), old(Interests())[fd := want]);
    }

    /** Updating what is not registered is registering; the two never call each other twice. */
    method Update(fd: int, want: Interest)
      requires Valid()
      modifies this
      ensures Valid() && Interests() == old(Interests())[fd := want]
      decreases if fd in index then 0 else 1
    {
      if fd !in index {
        Add(fd, want);
        return;
      }
      pollfds := pollfds[index[fd] := PollFd(fd, want)];
      SameMap(Interests(), old(Interests())[fd := want]);
    }

    /** Moves the last entry into the gap. */
    method Remove(fd: int)
      requires Valid()
      modifies this
      ensures Valid() && Interests() == old(Interests()) - {fd}
    {
      if fd !in index {
        SameMap(Interests(), old(Interests()) - {fd});
        return;
      }
      var i, last := index[fd], |pollfds| - 1;
      if i != last {
        pollfds := pollfds[i := pollfds[last]];
        index := index[pollfds[i].fd := i];
      }
      pollfds := pollfds[..last];
      index := index - {fd};
      SameMap(Interests(), old(Interests()) - {fd});
    }

    /** Snapshots the ready descriptors in array order: each entry that reports anything, once. */
    method Wait(revents: seq<Revents>) returns (out: seq<Event>)
      requires Valid() && |revents| == |pollfds|
      ensures forall i :: 0 <= i < |out| ==> out[i].fd in index
      ensures forall i, j :: 0 <= i < j < |out| ==> index[out[i].fd] < index[out[j].fd]
      ensures forall i :: 0 <= i < |pollfds| ==>
                var r, fd := revents[i], pollfds[i].fd;
                forall j :: 0 <= j < |out| && out[j].fd == fd ==>
                  !IsQuiet(r) && out[j] == Event(fd, r.pollIn || r.pollHup, r.pollOut, r.pollErr || r.pollNval)
      ensures forall i :: 0 <= i < |pollfds| && !IsQuiet(revents[i]) ==> exists j :: 0 <= j < |out| && out[j].fd == pollfds[i].fd
    {
      out := [];
      var k := 0;
      while k < |pollfds|
        invariant k <= |pollfds|
        invariant forall j :: 0 <= j < |out| ==> Reports(out[j], revents, k)
        invariant forall i, j :: 0 <= i < j < |out| ==> index[out[i].fd] < index[out[j].fd]
        invariant forall i :: 0 <= i < k && !IsQuiet(revents[i]) ==> exists j :: 0 <= j < |out| && out[j].fd == pollfds[i].fd
      {
        var r := revents[k];
        if !IsQuiet(r) {
          ghost var was := out;
          out := out + [Event(pollfds[k].fd, r.pollIn || r.pollHup, r.pollOut, r.pollErr || r.pollNval)];
          assert out[|was|].fd == pollfds[k].fd;
          forall i | 0 <= i < k && !IsQuiet(revents[i]) ensures exists j :: 0 <= j < |out| && out[j].fd == pollfds[i].fd {
            var j :| 0 <= j < |was| && was[j].fd == pollfds[i].fd;
            assert out[j].fd == pollfds[i].fd;
          }
        }
        k := k + 1;
      }
    }

    /** An event tells what its descriptor's entry reported, among the first k entries. */
    ghost predicate Reports(e: Event, revents: seq<Revents>, k: nat)
      requires Valid() && |revents| == |pollfds|
      reads this
    {
      && e.fd in index && index[e.fd] < k
      && var r := revents[index[e.fd]];
         !IsQuiet(r) && e == Event(e.fd, r.pollIn || r.pollHup, r.pollOut, r.pollErr || r.pollNval)
    }
  }

  // ----- the kqueue backend

  datatype Filter = ReadFilter | WriteFilter

  datatype Change = Change(fd: int, filter: Filter, add: bool)

  /** The result of a kevent call that registers changes: how many were applied, and how it ended. */
  datatype Errno = NoError | NoEntry | OtherError

  datatype Kevent = Kevent(filters: set<(int, Filter)>, errno: Errno)

  function ApplyOne(filters: set<(int, Filter)>, c: Change): set<(int, Filter)> {
    if c.add then filters + {(c.fd, c.filter)} else filters - {(c.fd, c.filter)}
  }

  /**
  The kernel applies changes in order and stops at the first it cannot apply: deleting a filter that is not
  there gives NoEntry; `budget` is how many it applies before it fails for a reason of its own.
  */
  function Register(filters: set<(int, Filter)>, changes: seq<Change>, budget: nat): Kevent
    decreases |changes|
  {
    if changes == [] then Kevent(filters, NoError)
    else if !changes[0].add && (changes[0].fd, changes[0].filter) !in filters then Kevent(filters, NoEntry)
    else if budget == 0 then Kevent(filters, OtherError)
    else Register(ApplyOne(filters, changes[0]), changes[1..], budget - 1)
  }

  /** The changes that take one descriptor from one interest to another. */
  function Changes(fd: int, was: Interest, want: Interest): seq<Change> {
    (if want.read != was.read then [Change(fd, ReadFilter, want.read)] else [])
    + (if want.write != was.write then [Change(fd, WriteFilter, want.write)] else [])
  }

  function Lookup(m: map<int, Interest>, fd: int): Interest {
    if fd in m then m[fd] else Interest(false, false)
  }

  /** The kernel holds exactly the filters the mirror speaks of. */
  ghost predicate Mirrors(m: map<int, Interest>, filters: set<(int, Filter)>) {
    forall fd :: ((fd, ReadFilter) in filters <==> Lookup(m, fd).read) && ((fd, WriteFilter) in filters <==> Lookup(m, fd).write)
  }

  /** Registering the difference: with an agreeing mirror no delete is ever of an absent filter. */
  lemma RegisterDifference(m: map<int, Interest>, filters: set<(int, Filter)>, fd: int, want: Interest, budget: nat)
    requires Mirrors(m, filters)
    ensures var was := Lookup(m, fd);
            var changes := Changes(fd, was, want);
            var k := Register(filters, changes, budget);
            && k.errno == (if budget < |changes| then OtherError else NoError)
            && (budget >= |changes| ==> Mirrors(m[fd := want], k.filters))
            && (budget < |changes| ==> (Mirrors(m, k.filters) <==> budget == 0))
  {
    var was := Lookup(m, fd);
    var changes := Changes(fd, was, want);
    var k := Register(filters, changes, budget);
    var r, w := Change(fd, ReadFilter, want.read), Change(fd, WriteFilter, want.write);
    assert (fd, ReadFilter) in filters <==> was.read;
    assert (fd, WriteFilter) in filters <==> was.write;
    if want.read != was.read && want.write != was.write {
      var one := ApplyOne(filters, r);
      assert changes[0] == r && changes[1..] == [w] && [w][1..] == [];
      assert (fd, ReadFilter) in one <==> want.read;
      assert (fd, WriteFilter) in one <==> was.write;
      if budget > 0 {
        assert k == Register(one, [w], budget - 1);
        assert budget > 1 ==> k == Register(ApplyOne(one, w), [], budget - 2);
      }
    } else if want.read != was.read {
      assert changes == [r] && changes[1..] == [];
    } else if want.write != was.write {
      assert changes == [w] && changes[1..] == [];
    }
  }

  /** Whatever the kernel answers, the mirror that is kept agrees. */
  ghost predicate AlwaysMirrors(m: map<int, Interest>, filters: set<(int, Filter)>, fd: int, want: Interest) {
    forall budget: nat ::
      var k := Register(filters, Changes(fd, Lookup(m, fd), want), budget);
      Mirrors(if k.errno == OtherError then m else m[fd := want], k.filters)
  }

  /** An update leaves the mirror right for every answer of the kernel exactly when it changes at most one filter. */
  lemma MirrorsExactlyWhen(m: map<int, Interest>, filters: set<(int, Filter)>, fd: int, want: Interest)
    requires Mirrors(m, filters)
    ensures AlwaysMirrors(m, filters, fd, want) <==> |Changes(fd, Lookup(m, fd), want)| <= 1
  {
    hide Mirrors, Register, Changes;
    forall budget: nat
      ensures var k := Register(filters, Changes(fd, Lookup(m, fd), want), budget);
              Mirrors(if k.errno == OtherError then m else m[fd := want], k.filters)
              <==> budget >= |Changes(fd, Lookup(m, fd), want)| || budget == 0
    {
      RegisterDifference(m, filters, fd, want, budget);
    }
    var k := Register(filters, Changes(fd, Lookup(m, fd), want), 1);
  }

  /** A session that begins to close stops reading and starts writing at once, so its mirror can come to disagree. */
  lemma ClosingCanDiverge(m: map<int, Interest>, filters: set<(int, Filter)>, fd: int)
    requires Mirrors(m, filters) && Lookup(m, fd) == Interest(true, false)
    ensures !AlwaysMirrors(m, filters, fd, Interest(false, true))
  {
    MirrorsExactlyWhen(m, filters, fd, Interest(false, true));
  }

  /** Two changes of which the kernel applies one: the mirror keeps what it had, and no longer agrees. */
  lemma MirrorCanDiverge()
    ensures var want := Interest(true, true);
            var k := Register({}, Changes(5, Interest(false, false), want), 1);
            Mirrors(map[], {}) && k.errno == OtherError && !Mirrors(map[], k.filters) && !Mirrors(map[5 := want], k.filters)
  {
    RegisterDifference(map[], {}, 5, Interest(true, true), 1);
    var k := Register({}, Changes(5, Interest(false, false), Interest(true, true)), 1);
    assert Changes(5, Interest(false, false), Interest(true, true))[1..] == [Change(5, WriteFilter, true)];
    assert (5, WriteFilter) !in k.filters;
    assert Lookup(map[5 := Interest(true, true)], 5).write;
  }

  class KqueueLoop {
    var interest: map<int, Interest>
    var filters: set<(int, Filter)>

    ghost predicate Valid()
      reads this
    {
      Mirrors(interest, filters)
    }

    constructor ()
      ensures Valid() && interest == map[]
    {
      interest, filters := map[], {};
    }

    /**
    Applies only what changed.  When the kernel takes it all the mirror agrees again; when it does not, the
    mirror keeps what it had, and still agrees exactly when the kernel had applied nothing.
    */
    method Apply(fd: int, want: Interest, budget: nat) returns (ok: bool)
      requires Valid()
      modifies this
      ensures ok == (|Changes(fd, Lookup(old(interest), fd), want)| <= budget)
      ensures interest == old(interest)[fd := if ok then want else Lookup(old(interest), fd)]
      ensures Valid() <==> ok || budget == 0
    {
      var was := Lookup(interest, fd);
      RegisterDifference(interest, filters, fd, want, budget);
      interest := interest[fd := was];
      assert forall x :: Lookup(interest, x) == Lookup(old(interest), x);
      var changes := Changes(fd, was, want);
      if |changes| > 0 {
        var k := Register(filters, changes, budget);
        filters := k.filters;
        if k.errno == OtherError {
          return false;
        }
      }
      interest := interest[fd := want];
      assert forall x :: Lookup(interest, x) == Lookup(old(interest)[fd := want], x);
      ok := true;
    }

    /** Forgets a descriptor; what the kernel answers is not looked at. */
    method Remove(fd: int, budget: nat)
      requires Valid()
      modifies this
      ensures interest == old(interest) - {fd}
      ensures Valid() <==> |Changes(fd, Lookup(old(interest), fd), Interest(false, false))| <= budget
    {
      var none := Interest(false, false);
      var was := Lookup(interest, fd);
      var changes := Changes(fd, was, none);
      RegisterDifference(interest, filters, fd, none, budget);
      if fd in interest {
        var k := Register(filters, changes, budget);
        filters := k.filters;
        if budget < |changes| {
          RemainingFilters(old(filters), fd, was, budget);
        }
        interest := interest - {fd};
        assert forall x :: Lookup(interest, x) == Lookup(old(interest)[fd := none], x);
      } else {
        assert interest == interest - {fd};
      }
    }
  }

  /** A removal that the kernel cuts short leaves a filter behind. */
  lemma RemainingFilters(filters: set<(int, Filter)>, fd: int, was: Interest, budget: nat)
    requires (fd, ReadFilter) in filters <==> was.read
    requires (fd, WriteFilter) in filters <==> was.write
    requires budget < |Changes(fd, was, Interest(false, false))|
    ensures var k := Register(filters, Changes(fd, was, Interest(false, false)), budget);
            (fd, ReadFilter) in k.filters || (fd, WriteFilter) in k.filters
  {
    var changes := Changes(fd, was, Interest(false, false));
    if was.read && was.write {
      assert changes[1..] == [Change(fd, WriteFilter, false)];
    }
  }

  // ----- coalescing

  /** One raw event: a filter of a descriptor, with its flags. */
  datatype Raw = Raw(fd: int, filter: Filter, eof: bool, error: bool)

  /** Descriptors in order of first appearance. */
  function FirstSeen(raws: seq<Raw>): seq<int> {
    if raws == [] then []
    else
      var before, fd := FirstSeen(raws[..|raws| - 1]), raws[|raws| - 1].fd;
      if fd in before then before else before + [fd]
  }

  predicate AnyReadable(raws: seq<Raw>, fd: int) {
    exists i :: 0 <= i < |raws| && raws[i].fd == fd && (raws[i].filter == ReadFilter || raws[i].eof)
  }

  predicate AnyWritable(raws: seq<Raw>, fd: int) {
    exists i :: 0 <= i < |raws| && raws[i].fd == fd && raws[i].filter == WriteFilter
  }

  predicate AnyError(raws: seq<Raw>, fd: int) {
    exists i :: 0 <= i < |raws| && raws[i].fd == fd && raws[i].error
  }

  /** The event of a descriptor: each flag is the disjunction over all its raw events. */
  function Combined(raws: seq<Raw>, fd: int): Event {
    Event(fd, AnyReadable(raws, fd), AnyWritable(raws, fd), AnyError(raws, fd))
  }

  function Coalesced(raws: seq<Raw>): seq<Event> {
    seq(|FirstSeen(raws)|, i requires 0 <= i < |FirstSeen(raws)| => Combined(raws, FirstSeen(raws)[i]))
  }

  function Merge(e: Event, r: Raw): Event {
    Event(e.fd, e.readable || r.filter == ReadFilter || r.eof, e.writable || r.filter == WriteFilter, e.hangup || r.error)
  }

  lemma CombinedAppend(raws: seq<Raw>, r: Raw, fd: int)
    ensures Combined(raws + [r], fd) == if r.fd == fd then Merge(Combined(raws, fd), r) else Combined(raws, fd)
  {
    var more := raws + [r];
    assert more[|raws|] == r;
    assert forall i :: 0 <= i < |raws| ==> more[i] == raws[i];
  }

  lemma {:induction false} SeenBefore(raws: seq<Raw>, fd: int)
    ensures fd in FirstSeen(raws) <==> exists i :: 0 <= i < |raws| && raws[i].fd == fd
  {
    if raws != [] {
      var most := raws[..|raws| - 1];
      SeenBefore(most, fd);
      if i :| 0 <= i < |raws| && raws[i].fd == fd {
        assert i < |most| ==> most[i].fd == fd;
      }
    }
  }

  /** Where each descriptor seen so far is found in the output. */
  ghost predicate Indexes(seen: map<int, nat>, firsts: seq<int>) {
    && (forall fd :: fd in seen <==> fd in firsts)
    && (forall fd :: fd in seen ==> seen[fd] < |firsts| && firsts[seen[fd]] == fd)
  }

  lemma IndexesMore(seen: map<int, nat>, firsts: seq<int>, fd: int)
    requires Indexes(seen, firsts) && fd !in seen
    ensures Indexes(seen[fd := |firsts|], firsts + [fd])
  {
    assert forall x :: x in firsts + [fd] <==> x in firsts || x == fd;
  }

  /** The event of a new descriptor is appended without flags, and then merged like any other. */
  function Opened(out: seq<Event>, k: nat, fd: int): seq<Event> {
    if k < |out| then out else out + [Event(fd, false, false, false)]
  }

  /** Merging one more raw event into its descriptor's place is coalescing one more raw event. */
  lemma CoalesceOne(raws: seq<Raw>, r: Raw, k: nat)
    requires var before := FirstSeen(raws); k <= |before| && (if r.fd in before then k < |before| && before[k] == r.fd else k == |before|)
    ensures var out := Opened(Coalesced(raws), k, r.fd);
            k < |out| && out[k := Merge(out[k], r)] == Coalesced(raws + [r])
  {
    hide Combined;
    var out, before, after := Opened(Coalesced(raws), k, r.fd), FirstSeen(raws), FirstSeen(raws + [r]);
    assert (raws + [r])[..|raws|] == raws;
    DistinctFirsts(raws + [r]);
    if r.fd !in before {
      FreshDescriptor(raws, r.fd);
    }
    forall j | 0 <= j < |after| ensures out[k := Merge(out[k], r)][j] == Combined(raws + [r], after[j]) {
      CombinedAppend(raws, r, after[j]);
    }
  }

  /** Reports each descriptor once, in order of first appearance, with all its raw events combined. */
  method Coalesce(raws: seq<Raw>) returns (out: seq<Event>)
    ensures out == Coalesced(raws)
  {
    hide Combined;
    out := [];
    var seen: map<int, nat> := map[];
    var i := 0;
    while i < |raws|
      invariant i <= |raws| && out == Coalesced(raws[..i]) && Indexes(seen, FirstSeen(raws[..i]))
    {
      var r := raws[i];
      ghost var before := FirstSeen(raws[..i]);
      assert raws[..i + 1][..i] == raws[..i] && raws[..i + 1] == raws[..i] + [r];
      CoalesceOne(raws[..i], r, if r.fd in seen then seen[r.fd] else |out|);
      if r.fd !in seen {
        IndexesMore(seen, before, r.fd);
        seen := seen[r.fd := |out|];
        out := out + [Event(r.fd, false, false, false)];
      }
      var k := seen[r.fd];
      out := out[k := Merge(out[k], r)];
      i := i + 1;
    }
    assert raws[..|raws|] == raws;
  }

  lemma FreshDescriptor(raws: seq<Raw>, fd: int)
    requires fd !in FirstSeen(raws)
    ensures Combined(raws, fd) == Event(fd, false, false, false)
  {
    SeenBefore(raws, fd);
  }

  lemma {:induction false} DistinctFirsts(raws: seq<Raw>)
    ensures Distinct(FirstSeen(raws))
  {
    if raws != [] {
      DistinctFirsts(raws[..|raws| - 1]);
    }
  }
}
