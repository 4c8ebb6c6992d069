/** Who is told what: the mail of one execution, and what each subscriber hears over a whole run. */
module Announcements {
  import opened Sequences
  import opened Protocol
  import opened Exchange
  import opened Loop
  import opened Invariants
  import opened Output
  import opened OrderBooks

  // ----- walking an unordered set

  lemma {:induction false} EnumerateAll(hint: seq<int>, xs: set<int>)
    ensures Distinct(Enumerate(hint, xs)) && forall x :: x in Enumerate(hint, xs) <==> x in xs
    decreases |hint|, |xs|
  {
    if xs != {} {
      if hint == [] {
        EnumerateAll([], xs - {Least(xs)});
      } else {
        EnumerateAll(hint[1..], xs - {hint[0]});
        assert hint[0] !in xs ==> xs - {hint[0]} == xs;
      }
    }
  }

  // ----- the mail of one response

  /** The log of the connection behind a descriptor. */
  function Mail(s: State, fd: int): seq<Response> {
    Log(s.hist.queued, Who(s, fd))
  }

  /** From s to t, the connection behind fd was queued exactly these responses. */
  predicate Mailed(s: State, t: State, fd: int, rs: seq<Response>) {
    Mail(t, fd) == Mail(s, fd) + rs
  }

  /** No open descriptor denotes the connection of another. */
  ghost predicate Apart(s: State) {
    && Keyed(s)
    && (forall x :: x in s.sessions ==> x in s.kernel.table)
    && (forall x :: x in s.kernel.table ==> Who(s, x) < |s.hist.queued|)
    && (forall x, y :: x in s.kernel.table && y in s.kernel.table && x != y ==> Who(s, x) != Who(s, y))
  }

  /** A session that is still there has not been touched except in its output. */
  predicate SameSession(s: State, t: State, x: int) {
    && Who(t, x) == Who(s, x) && (x in s.kernel.table <==> x in t.kernel.table)
    && (x in t.sessions ==> x in s.sessions && SameClient(t.sessions[x], s.sessions[x]))
  }

  lemma SendToMail(s: State, fd: int, r: Response, x: int)
    requires Apart(s) && x in s.kernel.table
    ensures var t := SendTo(s, fd, r);
            && Mailed(s, t, x, if x == fd && x in s.sessions then [r] else [])
            && (x != fd && x in s.sessions ==> x in t.sessions)
            && SameSession(s, t, x) && Apart(t)
  {
    hide SendTo;
    SendToFrame(s, fd, r);
    assert Mail(s, x) + [] == Mail(s, x);
  }

  /** Every target that is live at the start is queued the response exactly once, whoever is lost on the way. */
  lemma {:induction false} FanOutMail(s: State, targets: seq<int>, r: Response, x: int)
    requires Apart(s) && x in s.kernel.table && Distinct(targets)
    ensures var t := FanOut(s, targets, r);
            && Mailed(s, t, x, if x in targets && x in s.sessions then [r] else [])
            && (x !in targets && x in s.sessions ==> x in t.sessions)
            && SameSession(s, t, x) && Apart(t)
    decreases |targets|
  {
    hide SendTo, Apart;
    if targets == [] {
      assert Mail(s, x) + [] == Mail(s, x);
    } else {
      var t := SendTo(s, targets[0], r);
      SendToMail(s, targets[0], r, x);
      FanOutMail(t, targets[1..], r, x);
      assert targets == [targets[0]] + targets[1..];
      assert Mail(s, x) + [] + [] == Mail(s, x) && Mail(s, x) + [r] + [] == Mail(s, x) + [r] == Mail(s, x) + [] + [r];
    }
  }

  /** What an execution means for a session: BOUGHT, then SOLD, then TRADE, each if it concerns it. */
  function NoticeTo(ses: Session, x: TradeExecution): seq<Response> {
    (if ses.fd == x.buyer then [Bought(x.instrument, x.quantity, x.price)] else [])
    + (if ses.fd == x.seller then [Sold(x.instrument, x.quantity, x.price)] else [])
    + (if x.instrument in ses.subscriptions then [Trade(x.instrument, x.quantity, x.price)] else [])
  }

  /** The whole notice to a session that is still there; part of it to one that was lost; nothing to others. */
  predicate Told(s: State, t: State, fd: int, notice: seq<Response>) {
    && SameSession(s, t, fd)
    && (fd !in s.sessions ==> Mailed(s, t, fd, []))
    && (fd in t.sessions ==> Mailed(s, t, fd, notice))
    && Mail(s, fd) <= Mail(t, fd) <= Mail(s, fd) + notice
  }

  lemma SendToTold(s: State, fd: int, r: Response, x: int)
    requires Apart(s) && x in s.kernel.table
    ensures Told(s, SendTo(s, fd, r), x, if x == fd then [r] else []) && Apart(SendTo(s, fd, r))
  {
    hide SendTo, Apart;
    SendToMail(s, fd, r, x);
    assert Mail(s, x) + [] == Mail(s, x);
  }

  /** Two steps tell what one and then the other tells. */
  lemma ToldChains(s: State, t: State, u: State, fd: int, a: seq<Response>, b: seq<Response>)
    requires Told(s, t, fd, a) && Told(t, u, fd, b)
    ensures Told(s, u, fd, a + b)
  {
    assert Mail(s, fd) + a + b == Mail(s, fd) + (a + b);
    assert fd in u.sessions ==> fd in t.sessions;
    assert fd !in t.sessions ==> Mail(u, fd) == Mail(t, fd) <= Mail(s, fd) + a <= Mail(s, fd) + (a + b);
    assert fd in t.sessions ==> Mail(u, fd) <= Mail(s, fd) + a + b;
    assert Mail(s, fd) <= Mail(u, fd);
  }

  lemma NotifiedTold(s: State, x: TradeExecution, fd: int)
    requires Apart(s) && fd in s.kernel.table
    ensures Told(s, Notified(s, x), fd, (if fd == x.buyer then [Bought(x.instrument, x.quantity, x.price)] else [])
                                        + (if fd == x.seller then [Sold(x.instrument, x.quantity, x.price)] else []))
    ensures Apart(Notified(s, x))
  {
    hide SendTo, Apart, Told;
    var b, c := Bought(x.instrument, x.quantity, x.price), Sold(x.instrument, x.quantity, x.price);
    var t := SendTo(s, x.buyer, b);
    SendToTold(s, x.buyer, b, fd);
    assert fd in t.kernel.table by { SendToMail(s, x.buyer, b, fd); }
    SendToTold(t, x.seller, c, fd);
    ToldChains(s, t, Notified(s, x), fd, if fd == x.buyer then [b] else [], if fd == x.seller then [c] else []);
  }

  /** Fan-out after an announcement reaches exactly the sessions that list the instrument. */
  lemma SpreadTold(s: State, x: TradeExecution, fd: int)
    requires Apart(s) && fd in s.kernel.table && Subscriptions(s)
    ensures Told(s, Spread(s, x), fd,
                 if fd in s.sessions && x.instrument in s.sessions[fd].subscriptions
                 then [Trade(x.instrument, x.quantity, x.price)] else [])
    ensures Apart(Spread(s, x))
  {
    hide FanOut, Enumerate;
    var r := Trade(x.instrument, x.quantity, x.price);
    assert Mail(s, fd) + [] == Mail(s, fd);
    assert fd in SubscribersOf(s, x.instrument) <==> fd in s.sessions && x.instrument in s.sessions[fd].subscriptions;
    if x.instrument in s.subscribers {
      var targets := Enumerate(Hint(s), s.subscribers[x.instrument]);
      EnumerateAll(Hint(s), s.subscribers[x.instrument]);
      assert Apart(NextHint(s));
      FanOutMail(NextHint(s), targets, r, fd);
    }
  }

  /** Losing a session cuts its notice short. */
  lemma ToldWidens(s: State, t: State, fd: int, a: seq<Response>, b: seq<Response>)
    requires Told(s, t, fd, a) && fd !in t.sessions
    ensures Told(s, t, fd, a + b)
  {
    assert Mail(s, fd) + a <= Mail(s, fd) + (a + b);
  }

  /** The notice of an execution to whoever is behind a descriptor. */
  function Notice(s: State, fd: int, x: TradeExecution): seq<Response> {
    if fd in s.sessions then NoticeTo(s.sessions[fd], x) else []
  }

  lemma NotifiedTables(s: State, x: TradeExecution)
    requires Tables(s)
    ensures Tables(Notified(s, x)) && Tables(Announce(Notified(s, x), x))
  {
    hide SendTo, Tables;
    var t := SendTo(s, x.buyer, Bought(x.instrument, x.quantity, x.price));
    SendToTables(s, x.buyer, Bought(x.instrument, x.quantity, x.price));
    SendToTables(t, x.seller, Sold(x.instrument, x.quantity, x.price));
    assert SameMembers(Notified(s, x), Announce(Notified(s, x), x)) by { hide Notified; }
    SameMembersTables(Notified(s, x), Announce(Notified(s, x), x));
  }

  lemma AnnounceTold(s: State, x: TradeExecution, fd: int)
    requires Apart(s)
    ensures Told(s, Announce(s, x), fd, []) && Apart(Announce(s, x))
    ensures Announce(s, x).sessions == s.sessions && Announce(s, x).kernel == s.kernel
  {
    assert Mail(s, fd) + [] == Mail(s, fd);
  }

  lemma TablesApart(s: State)
    requires Tables(s)
    ensures Apart(s)
  {
    hide Subscriptions, Names, Orders, Roles;
  }

  /** One execution, published: everyone concerned is told, in order, whoever is lost on the way. */
  lemma PublishTold(s: State, x: TradeExecution, fd: int)
    requires Tables(s) && fd in s.kernel.table
    ensures Told(s, Publish(s, x), fd, Notice(s, fd, x))
  {
    var mail := (if fd == x.buyer then [Bought(x.instrument, x.quantity, x.price)] else [])
                + (if fd == x.seller then [Sold(x.instrument, x.quantity, x.price)] else []);
    var trade := [Trade(x.instrument, x.quantity, x.price)];
    var u := Notified(s, x);
    var v := Announce(u, x);
    TablesApart(s);
    NotifiedTold(s, x, fd);
    NotifiedTables(s, x);
    assert Subscriptions(v) && Apart(u) && Keyed(s);
    AnnounceTold(u, x, fd);
    assert fd in u.kernel.table && (fd in u.sessions ==> fd in s.sessions && SameClient(u.sessions[fd], s.sessions[fd]));
    hide Notified, Announce, Spread, Tables, Apart, Subscriptions, Told;
    SpreadTold(v, x, fd);
    ToldChains(s, u, v, fd, mail, []);
    assert mail + [] == mail;
    var heard := if fd in v.sessions && x.instrument in v.sessions[fd].subscriptions then trade else [];
    ToldChains(s, v, Publish(s, x), fd, mail, heard);
    AssembleNotice(s, v, Publish(s, x), x, fd, mail, heard);
  }

  lemma AssembleNotice(s: State, v: State, t: State, x: TradeExecution, fd: int, mail: seq<Response>, heard: seq<Response>)
    requires Keyed(s) && Told(s, t, fd, mail + heard)
    requires fd in t.sessions ==> fd in v.sessions
    requires fd in v.sessions ==> fd in s.sessions && SameClient(v.sessions[fd], s.sessions[fd])
    requires mail == (if fd == x.buyer then [Bought(x.instrument, x.quantity, x.price)] else [])
                     + (if fd == x.seller then [Sold(x.instrument, x.quantity, x.price)] else [])
    requires heard == if fd in v.sessions && x.instrument in v.sessions[fd].subscriptions
                      then [Trade(x.instrument, x.quantity, x.price)] else []
    ensures Told(s, t, fd, Notice(s, fd, x))
  {
    if fd in v.sessions {
      assert Notice(s, fd, x) == mail + heard;
    } else if fd in s.sessions {
      assert mail + heard == mail;
      ToldWidens(s, t, fd, mail, NoticeTo(s.sessions[fd], x)[|mail|..]);
      assert NoticeTo(s.sessions[fd], x) == mail + NoticeTo(s.sessions[fd], x)[|mail|..];
    } else {
      assert Mail(s, fd) + [] == Mail(s, fd);
    }
  }

  // ----- all the executions of an order

  function Notices(s: State, fd: int, xs: seq<TradeExecution>): seq<Response> {
    if xs == [] then [] else Notice(s, fd, xs[0]) + Notices(s, fd, xs[1..])
  }

  /** How many executions are published before the submitter is found gone. */
  function Published(s: State, fd: int, xs: seq<TradeExecution>): (k: nat)
    ensures k <= |xs| && (xs != [] ==> k > 0)
    decreases |xs|
  {
    if xs == [] then 0
    else
      var t := Publish(s, xs[0]);
      if fd !in t.sessions then 1 else 1 + Published(t, fd, xs[1..])
  }

  lemma {:induction false} FanOutTables(s: State, targets: seq<int>, r: Response)
    requires Tables(s)
    ensures Tables(FanOut(s, targets, r))
    decreases |targets|
  {
    hide SendTo, Tables;
    if targets != [] {
      SendToTables(s, targets[0], r);
      FanOutTables(SendTo(s, targets[0], r), targets[1..], r);
    }
  }

  lemma HintTables(s: State)
    requires Tables(s)
    ensures Tables(NextHint(s))
  {
    hide Tables;
    assert SameMembers(s, NextHint(s));
    SameMembersTables(s, NextHint(s));
  }

  lemma PublishTables(s: State, x: TradeExecution)
    requires Tables(s)
    ensures Tables(Publish(s, x))
  {
    hide Notified, Announce, FanOut, Enumerate, Tables, NextHint;
    NotifiedTables(s, x);
    var v := Announce(Notified(s, x), x);
    HintTables(v);
    if x.instrument in v.subscribers {
      FanOutTables(NextHint(v), Enumerate(Hint(v), v.subscribers[x.instrument]), Trade(x.instrument, x.quantity, x.price));
    }
  }

  lemma {:induction false} SameNotices(s: State, t: State, fd: int, xs: seq<TradeExecution>)
    requires SameSession(s, t, fd)
    ensures fd in t.sessions ==> Notices(t, fd, xs) == Notices(s, fd, xs)
    ensures fd !in t.sessions ==> Notices(t, fd, xs) == []
    decreases |xs|
  {
    if xs != [] {
      SameNotices(s, t, fd, xs[1..]);
    }
  }

  /**
  The executions of an order: everyone still there is told all of the published ones, in execution order;
  if the submitter is still there, all of them were published, and otherwise a non-empty prefix.
  */
  lemma {:induction false} PublishAllTold(s: State, submitter: int, xs: seq<TradeExecution>, fd: int)
    requires Tables(s) && fd in s.kernel.table
    ensures var t, k := PublishAll(s, submitter, xs), Published(s, submitter, xs);
            && Told(s, t, fd, Notices(s, fd, xs[..k])) && Tables(t)
            && (submitter in t.sessions ==> k == |xs|)
    decreases |xs|
  {
    hide Publish, Tables, Told, Mail;
    if xs == [] {
      assert xs[..0] == [];
      ToldNothing(s, fd);
    } else {
      var t, k := Publish(s, xs[0]), Published(s, submitter, xs);
      PublishTold(s, xs[0], fd);
      PublishTables(s, xs[0]);
      ToldKept(s, t, fd, Notice(s, fd, xs[0]));
      assert xs[..k][0] == xs[0] && xs[..k][1..] == xs[1..][..k - 1];
      if submitter !in t.sessions {
        assert Notices(s, fd, xs[..1][1..]) == [] && Notice(s, fd, xs[0]) + [] == Notice(s, fd, xs[0]);
      } else {
        var u := PublishAll(t, submitter, xs[1..]);
        var more := Notices(t, fd, xs[1..][..k - 1]);
        PublishAllTold(t, submitter, xs[1..], fd);
        ToldChains(s, t, u, fd, Notice(s, fd, xs[0]), more);
        SameNotices(s, t, fd, xs[1..][..k - 1]);
        if fd !in t.sessions {
          assert Notice(s, fd, xs[0]) + more == Notice(s, fd, xs[0]);
          ToldKept(t, u, fd, more);
          ToldWidens(s, u, fd, Notice(s, fd, xs[0]), Notices(s, fd, xs[1..][..k - 1]));
        }
      }
    }
  }

  lemma ToldKept(s: State, t: State, fd: int, notice: seq<Response>)
    requires Told(s, t, fd, notice)
    ensures SameSession(s, t, fd)
  {
  }

  lemma ToldNothing(s: State, fd: int)
    ensures Told(s, s, fd, [])
  {
    assert Mail(s, fd) + [] == Mail(s, fd);
  }

  // ----- what a subscriber hears over a whole run

  /** Whether a connection is listening to an instrument after the announcements so far. */
  predicate Listening(tape: seq<Note>, who: nat, instrument: string) {
    if tape == [] then false
    else match tape[|tape| - 1]
      case Joined(w, i) => (w == who && i == instrument) || Listening(tape[..|tape| - 1], who, instrument)
      case Parted(w, i) => !(w == who && i == instrument) && Listening(tape[..|tape| - 1], who, instrument)
      case Announced(_, _, _) => Listening(tape[..|tape| - 1], who, instrument)
  }

  /** The announcements about an instrument made while a connection was listening to it. */
  function Heard(tape: seq<Note>, who: nat, instrument: string): seq<Response> {
    if tape == [] then []
    else
      var n, before := tape[|tape| - 1], tape[..|tape| - 1];
      Heard(before, who, instrument)
      + if n.Announced? && n.instrument == instrument && Listening(before, who, instrument)
        then [Trade(instrument, n.quantity, n.price)] else []
  }

  /** The TRADE messages about an instrument in a connection's mail. */
  function TradesOf(rs: seq<Response>, instrument: string): seq<Response> {
    if rs == [] then []
    else
      var r := rs[|rs| - 1];
      TradesOf(rs[..|rs| - 1], instrument) + if r.Trade? && r.instrument == instrument then [r] else []
  }

  predicate Tuned(s: State, fd: int, instrument: string)
    requires fd in s.sessions
  {
    && TradesOf(Mail(s, fd), instrument) == Heard(s.hist.tape, Who(s, fd), instrument)
    && (instrument in s.sessions[fd].subscriptions <==> Listening(s.hist.tape, Who(s, fd), instrument))
  }

  /** Every live session has been queued exactly the trades announced while it was subscribed. */
  ghost predicate Tape(s: State) {
    && (forall fd, i :: fd in s.sessions ==> Tuned(s, fd, i))
    && (forall k :: 0 <= k < |s.hist.tape| && !s.hist.tape[k].Announced? ==> s.hist.tape[k].who < |s.kernel.wire|)
  }

  lemma TapeAppend(tape: seq<Note>, n: Note, who: nat, instrument: string)
    ensures Heard(tape + [n], who, instrument) ==
            Heard(tape, who, instrument) +
            if n.Announced? && n.instrument == instrument && Listening(tape, who, instrument)
            then [Trade(instrument, n.quantity, n.price)] else []
    ensures Listening(tape + [n], who, instrument) <==>
            match n
            case Joined(w, i) => (w == who && i == instrument) || Listening(tape, who, instrument)
            case Parted(w, i) => !(w == who && i == instrument) && Listening(tape, who, instrument)
            case Announced(_, _, _) => Listening(tape, who, instrument)
  {
    assert (tape + [n])[..|tape|] == tape;
  }

  lemma {:induction false} TradesConcat(a: seq<Response>, b: seq<Response>, instrument: string)
    ensures TradesOf(a + b, instrument) == TradesOf(a, instrument) + TradesOf(b, instrument)
    decreases |b|
  {
    if b == [] {
      assert a + b == a;
    } else {
      assert (a + b)[..|a + b| - 1] == a + b[..|b| - 1];
      TradesConcat(a, b[..|b| - 1], instrument);
    }
  }

  lemma TradesOfOne(r: Response, instrument: string)
    ensures TradesOf([r], instrument) == if r.Trade? && r.instrument == instrument then [r] else []
  {
    assert [r][..0] == [];
  }

  /** A session whose mail, subscriptions and announcements are the same is still tuned. */
  lemma SameTape(s: State, t: State)
    requires Tape(s) && t.hist.tape == s.hist.tape && t.hist.queued == s.hist.queued
    requires t.kernel.table == s.kernel.table && |t.kernel.wire| == |s.kernel.wire|
    requires t.sessions.Keys <= s.sessions.Keys
    requires forall fd :: fd in t.sessions ==> t.sessions[fd].subscriptions == s.sessions[fd].subscriptions
    ensures Tape(t)
  {
    forall fd, i | fd in t.sessions ensures Tuned(t, fd, i) {
      assert Tuned(s, fd, i);
    }
  }

  /** A response that is not a trade announcement changes nothing that was heard. */
  lemma SendToTape(s: State, fd: int, r: Response)
    requires Tape(s) && Tables(s) && !r.Trade?
    ensures Tape(SendTo(s, fd, r))
  {
    hide SendTo, Heard, Listening, TradesOf, Tables;
    var t := SendTo(s, fd, r);
    TablesApart(s);
    assert Keyed(s) && forall x :: x in s.sessions ==> x in s.kernel.table;
    SendToFrame(s, fd, r);
    hide Apart;
    forall x, i | x in t.sessions ensures Tuned(t, x, i) {
      assert Tuned(s, x, i);
      SendToMail(s, fd, r, x);
      TradesConcat(Mail(s, x), if x == fd then [r] else [], i);
      TradesOfOne(r, i);
      assert TradesOf([], i) == [] by { NoTrades(i); }
    }
  }

  lemma NoTrades(instrument: string)
    ensures TradesOf([], instrument) == []
  {
  }

  lemma {:induction false} FanOutTape(s: State, targets: seq<int>, r: Response)
    requires Keyed(s)
    ensures FanOut(s, targets, r).hist.tape == s.hist.tape
    decreases |targets|
  {
    hide SendTo, Keyed;
    if targets != [] {
      SendToFrame(s, targets[0], r);
      SendToOnward(s, targets[0], r);
      FanOutTape(SendTo(s, targets[0], r), targets[1..], r);
    }
  }

  lemma PublishAnnounces(s: State, x: TradeExecution)
    requires Keyed(s)
    ensures Publish(s, x).hist.tape == s.hist.tape + [Announced(x.instrument, x.quantity, x.price)]
  {
    hide SendTo, FanOut, Enumerate, Keyed;
    var t := SendTo(s, x.buyer, Bought(x.instrument, x.quantity, x.price));
    SendToFrame(s, x.buyer, Bought(x.instrument, x.quantity, x.price));
    SendToOnward(s, x.buyer, Bought(x.instrument, x.quantity, x.price));
    SendToFrame(t, x.seller, Sold(x.instrument, x.quantity, x.price));
    NotifiedOnward(s, x);
    AnnounceOnward(Notified(s, x), x);
    var v := Announce(Notified(s, x), x);
    if x.instrument in v.subscribers {
      FanOutTape(NextHint(v), Enumerate(Hint(v), v.subscribers[x.instrument]), Trade(x.instrument, x.quantity, x.price));
    }
  }

  lemma NoticeTrades(ses: Session, x: TradeExecution, instrument: string)
    ensures TradesOf(NoticeTo(ses, x), instrument) ==
            if x.instrument in ses.subscriptions && x.instrument == instrument
            then [Trade(instrument, x.quantity, x.price)] else []
  {
    var b, c := Bought(x.instrument, x.quantity, x.price), Sold(x.instrument, x.quantity, x.price);
    var mail := (if ses.fd == x.buyer then [b] else []) + (if ses.fd == x.seller then [c] else []);
    var heard := if x.instrument in ses.subscriptions then [Trade(x.instrument, x.quantity, x.price)] else [];
    TradesConcat(if ses.fd == x.buyer then [b] else [], if ses.fd == x.seller then [c] else [], instrument);
    TradesConcat(mail, heard, instrument);
    TradesOfOne(b, instrument);
    TradesOfOne(c, instrument);
    TradesOfOne(Trade(x.instrument, x.quantity, x.price), instrument);
  }

  lemma PublishTape(s: State, x: TradeExecution)
    requires Tape(s) && Tables(s)
    ensures Tape(Publish(s, x))
  {
    hide Publish, Heard, Listening, TradesOf, NoticeTo, Tables;
    var t, n := Publish(s, x), Announced(x.instrument, x.quantity, x.price);
    TablesApart(s);
    assert Keyed(s) && forall fd :: fd in s.sessions ==> fd in s.kernel.table;
    hide Apart;
    PublishAnnounces(s, x);
    PublishOnward(s, x);
    forall fd, i | fd in t.sessions ensures Tuned(t, fd, i) {
      assert Tuned(s, fd, i);
      PublishTold(s, x, fd);
      NoticeTrades(s.sessions[fd], x, i);
      TradesConcat(Mail(s, fd), NoticeTo(s.sessions[fd], x), i);
      TapeAppend(s.hist.tape, n, Who(s, fd), i);
      assert x.instrument == i || x.instrument != i;
    }
  }

  lemma {:induction false} PublishAllTape(s: State, fd: int, xs: seq<TradeExecution>)
    requires Tape(s) && Tables(s)
    ensures Tape(PublishAll(s, fd, xs))
    decreases |xs|
  {
    hide Publish, Tape, Tables;
    if xs != [] {
      PublishTape(s, xs[0]);
      PublishTables(s, xs[0]);
      PublishAllTape(Publish(s, xs[0]), fd, xs[1..]);
    }
  }

  lemma SubscribedTape(s: State, fd: int, instrument: string)
    requires Tape(s) && Tables(s) && fd in s.sessions
    ensures Tape(Subscribed(s, fd, instrument))
  {
    hide Heard, Listening, TradesOf, Subscriptions, Names, Orders, Roles;
    var t := Subscribed(s, fd, instrument);
    forall x, i | x in t.sessions ensures Tuned(t, x, i) {
      assert Tuned(s, x, i);
      TapeAppend(s.hist.tape, Joined(Who(s, fd), instrument), Who(s, x), i);
      assert Mail(t, x) == Mail(s, x);
    }
  }

  lemma DepartedTape(s: State, fd: int, instrument: string)
    requires Tape(s) && Tables(s) && fd in s.sessions
    ensures Tape(Departed(s, fd, instrument))
  {
    hide Heard, Listening, TradesOf, Subscriptions, Names, Orders, Roles;
    var t := Departed(s, fd, instrument);
    forall x, i | x in t.sessions ensures Tuned(t, x, i) {
      assert Tuned(s, x, i);
      TapeAppend(s.hist.tape, Parted(Who(s, fd), instrument), Who(s, x), i);
      assert Mail(t, x) == Mail(s, x);
    }
  }

  lemma {:induction false} NeverJoined(tape: seq<Note>, who: nat, instrument: string)
    requires forall k :: 0 <= k < |tape| && !tape[k].Announced? ==> tape[k].who != who
    ensures !Listening(tape, who, instrument) && Heard(tape, who, instrument) == []
    decreases |tape|
  {
    if tape != [] {
      NeverJoined(tape[..|tape| - 1], who, instrument);
    }
  }
}
