/** An event is acted on: what a turn of the loop does about each thing a descriptor can be ready for. */
module Events {
  import opened Framing
  import opened Sockets
  import opened Exchange
  import opened Loop
  import opened Invariants
  import opened Output
  import opened Safety
  import opened Lifetimes
  import opened Effects
  import Inputs
  import Protocol
  import Theorems
  import B = Book

  // ----- a turn and its events

  /** What closing the dropped descriptors leaves alone, and what is open afterwards. */
  lemma ReapEffects(s: State)
    requires Descriptors(s)
    ensures var t := ReapClosed(s);
            && t == s.(kernel := t.kernel, closedFds := [])
            && t.kernel.wire == s.kernel.wire && s.kernel.closed <= t.kernel.closed
            && (forall x :: x in s.sessions ==> Who(t, x) == Who(s, x))
            && (forall x :: x in t.kernel.table <==> x in s.sessions)
  {
    ReapWho(s);
    hide Descriptors, CloseAll;
    CloseAllWire(s.kernel, s.closedFds);
    ReapOpen(s);
  }

  lemma {:induction false} CloseAllWire(k: Kernel, fds: seq<int>)
    ensures CloseAll(k, fds).wire == k.wire && k.closed <= CloseAll(k, fds).closed
    decreases |fds|
  {
    if fds != [] {
      CloseAllWire(Close(k, fds[0]), fds[1..]);
    }
  }

  lemma ReapOpen(s: State)
    requires Descriptors(s)
    ensures forall x :: x in ReapClosed(s).kernel.table <==> x in s.sessions
  {
    hide Connections, CloseAll;
    forall i | 0 <= i < |s.closedFds| ensures s.closedFds[i] in s.kernel.table {
      var fd := s.closedFds[i];
      assert fd in s.closedFds;
    }
    CloseAllConnections(s.kernel, s.closedFds);
  }

  lemma {:induction false} ReportedConcat(a: seq<Ready>, b: seq<Ready>, loop: map<int, Interest>)
    ensures Reported(a + b, loop) == Reported(a, loop) + Reported(b, loop)
  {
    if a == [] {
      assert a + b == b;
    } else {
      assert (a + b)[1..] == a[1..] + b;
      ReportedConcat(a[1..], b, loop);
    }
  }

  lemma {:induction false} ProcessAllConcat(s: State, a: seq<Ready>, b: seq<Ready>)
    requires Keyed(s)
    ensures ProcessAll(s, a + b) == ProcessAll(ProcessAll(s, a), b)
    decreases |a|
  {
    hide ProcessEvent, Keyed;
    if a == [] {
      assert a + b == b;
    } else {
      assert (a + b)[0] == a[0] && (a + b)[1..] == a[1..] + b;
      ProcessAllConcat(ProcessEvent(s, a[0]), a[1..], b);
    }
  }

  lemma OneEvent(s: State, r: Ready)
    requires Keyed(s)
    ensures ProcessAll(s, [r]) == ProcessEvent(s, r)
    ensures r.event.fd in s.loop ==> Reported([r], s.loop) == [r]
  {
    hide ProcessEvent;
    assert [r][1..] == [];
  }

  /** Every event of a registered descriptor is processed, after those before it and before those after it. */
  lemma EventsInOrder(s: State, before: seq<Ready>, r: Ready, after: seq<Ready>, due: bool)
    requires Keyed(s) && r.event.fd in s.loop
    ensures var start := ResumeAccepting(s, due);
            && Keyed(start)
            && Turn(s, Batch(before + [r] + after, due)) ==
               ReapClosed(ProcessAll(ProcessEvent(ProcessAll(start, Reported(before, s.loop)), r), Reported(after, s.loop)))
  {
    hide ProcessEvent, ProcessAll, Reported, ReapClosed;
    var start := ResumeAccepting(s, due);
    assert Keyed(start);
    hide Keyed, ResumeAccepting;
    var mine, rest := Reported(before, s.loop), Reported(after, s.loop);
    OneEvent(s, r);
    ReportedConcat(before, [r], s.loop);
    ReportedConcat(before + [r], after, s.loop);
    ProcessAllConcat(start, mine, [r]);
    OneEvent(ProcessAll(start, mine), r);
    ProcessAllConcat(start, mine + [r], rest);
  }

  /** A turn with one event. */
  lemma OneEventTurn(s: State, r: Ready, due: bool)
    requires Keyed(s) && r.event.fd in s.loop
    ensures Keyed(ResumeAccepting(s, due))
    ensures Turn(s, Batch([r], due)) == ReapClosed(ProcessEvent(ResumeAccepting(s, due), r))
  {
    hide ProcessEvent, ReapClosed, Reported, ProcessAll;
    var start := ResumeAccepting(s, due);
    assert Keyed(start);
    OneEvent(s, r);
    OneEvent(start, r);
  }

  /** Resuming concerns the pause and the listener's registration only. */
  lemma ResumeOnly(s: State, due: bool)
    requires Invariant(s)
    ensures var t := ResumeAccepting(s, due);
            && t == s.(paused := t.paused, loop := t.loop) && t.paused == (s.paused && !due) && Invariant(t)
  {
    hide Invariant;
    if s.paused && due {
      PauseInvariant(s, ResumeAccepting(s, due));
    }
  }

  /** Several flags at once are acted on one after the other: writing, then reading, then hanging up. */
  lemma FlagsInOrder(s: State, r: Ready)
    requires Keyed(s) && r.event.fd != s.listener && Invariant(s)
    ensures var e := r.event;
            var t := if e.writable then ProcessEvent(s, r.(event := Event(e.fd, false, true, false))) else s;
            var u := if e.readable then ProcessEvent(t, r.(event := Event(e.fd, true, false, false))) else t;
            ProcessEvent(s, r) == if e.hangup then ProcessEvent(u, r.(event := Event(e.fd, false, false, true))) else u
  {
    hide Flush, OnReadable, Drop, AcceptPending, Keyed, Invariant, Onward;
    var e := r.event;
    var t := if e.writable then ProcessEvent(s, r.(event := Event(e.fd, false, true, false))) else s;
    if e.fd in s.sessions {
      FlushOnward(s, e.fd);
      OnwardListener(s, Flush(s, e.fd));
      if e.fd in t.sessions {
        ReadListener(t, e.fd, r.recvs);
      }
    }
  }

  lemma OnwardListener(s: State, t: State)
    requires Onward(s, t)
    ensures t.listener == s.listener && t.paused == s.paused
  {
  }

  // ----- what can pause accepting

  lemma ClosePause(s: State, fd: int)
    ensures BeginOrderlyClose(s, fd).paused == s.paused && BeginOrderlyClose(s, fd).listener == s.listener
    ensures Drop(s, fd).paused == s.paused && Drop(s, fd).listener == s.listener
  {
    hide B.Apply;
  }

  lemma MessagePause(s: State, fd: int, line: string)
    requires Keyed(s) && fd in s.sessions
    ensures var t := HandleMessage(s, fd, line); t.paused == s.paused && t.listener == s.listener
  {
    hide Protocol.Parse, HandleLogin, HandleSubscription, HandleOrder, HandleCancel, BeginOrderlyClose, SendTo, Onward, Keyed;
    HandleMessageOnward(s, fd, line);
    Protocol.ParseWellParsed(line);
    if IsQuit(line) {
      ClosePause(s, fd);
    } else {
      OnwardListener(s, HandleMessage(s, fd, line));
    }
  }

  lemma {:induction false} ConsumePause(s: State, fd: int)
    requires Keyed(s)
    ensures var t := ConsumeMessages(s, fd).state; t.paused == s.paused && t.listener == s.listener
    decreases if fd in s.sessions then |s.sessions[fd].inbuf| else 0
  {
    hide Keyed, HandleMessage, BeginOrderlyClose, SendTo, Newline, Onward;
    if fd in s.sessions {
      var inbuf := s.sessions[fd].inbuf;
      if Newline(inbuf) == |inbuf| {
        var t := Refuse(s, fd, Protocol.LineTooLong);
        SendToOnward(s, fd, Protocol.Error(Protocol.LineTooLong));
        OnwardListener(s, t);
        ClosePause(t, fd);
      } else {
        var t, line := TakeLine(s, fd), FirstLine(inbuf);
        TakeLineKeyed(s, fd);
        HandleMessageOnward(t, fd, line);
        MessagePause(t, fd, line);
        var u := HandleMessage(t, fd, line);
        if fd in u.sessions && !u.sessions[fd].closing {
          ConsumePause(u, fd);
        }
      }
    }
  }

  lemma {:induction false} ReadListener(s: State, fd: int, recvs: seq<RecvOutcome>)
    requires Keyed(s)
    ensures var t := OnReadable(s, fd, recvs); t.paused == s.paused && t.listener == s.listener
    decreases |recvs|
  {
    hide ConsumeMessages, BeginOrderlyClose, Drop, Keyed;
    ClosePause(s, fd);
    if fd in s.sessions && !s.sessions[fd].closing && recvs != [] {
      match recvs[0] {
        case Received(bytes) =>
          if bytes != "" {
            var t := Receive(s, fd, Clip(bytes, READ_CHUNK));
            ReceiveFaithful(s, fd, Clip(bytes, READ_CHUNK));
            ConsumePause(t, fd);
            ReadListener(ConsumeMessages(t, fd).state, fd, recvs[1..]);
          }
        case RecvInterrupted => ReadListener(s, fd, recvs[1..]);
        case RecvWouldBlock =>
        case RecvFailed =>
      }
    }
  }

  lemma EventPause(s: State, r: Ready)
    requires Keyed(s) && r.event.fd != s.listener
    ensures var t := ProcessEvent(s, r); t.paused == s.paused && t.listener == s.listener
  {
    hide Flush, OnReadable, Drop, AcceptPending, Keyed, Onward;
    var fd := r.event.fd;
    if fd in s.sessions {
      FlushOnward(s, fd);
      OnwardListener(s, Flush(s, fd));
      var t := if r.event.writable then Flush(s, fd) else s;
      if fd in t.sessions {
        ReadListener(t, fd, r.recvs);
        ClosePause(if r.event.readable then OnReadable(t, fd, r.recvs) else t, fd);
      }
    }
  }

  lemma {:induction false} EventsPause(s: State, ready: seq<Ready>)
    requires Keyed(s) && forall k :: 0 <= k < |ready| ==> ready[k].event.fd != s.listener
    ensures var t := ProcessAll(s, ready); t.paused == s.paused && t.listener == s.listener
    decreases |ready|
  {
    hide ProcessEvent, Keyed;
    if ready != [] {
      EventPause(s, ready[0]);
      EventsPause(ProcessEvent(s, ready[0]), ready[1..]);
    }
  }

  predicate NotAbout(ready: seq<Ready>, fd: int) {
    forall k :: 0 <= k < |ready| ==> ready[k].event.fd != fd
  }

  lemma {:induction false} ReportedNotAbout(ready: seq<Ready>, loop: map<int, Interest>, fd: int)
    requires NotAbout(ready, fd)
    ensures NotAbout(Reported(ready, loop), fd)
  {
    if ready != [] {
      ReportedNotAbout(ready[1..], loop, fd);
    }
  }

  /**
  A turn without an event of the listener: the pause, if any, goes on exactly when it is not over, and the
  listener is registered for reading exactly when there is none.
  */
  lemma PauseEndsWhenDue(s: State, b: Batch)
    requires Invariant(s) && Keyed(s) && NotAbout(b.ready, s.listener)
    ensures var t := Turn(s, b);
            && t.paused == (s.paused && !b.due)
            && t.listener == s.listener && t.listener in t.loop && t.loop[t.listener] == Interest(!t.paused, false)
  {
    hide Invariant, Keyed, ProcessAll, Reported, NotAbout;
    TurnInvariant(s, b);
    Theorems.RegisteredKeys(Turn(s, b));
    ResumeOnly(s, b.due);
    var start, ready := ResumeAccepting(s, b.due), Reported(b.ready, s.loop);
    hide ResumeAccepting;
    ReportedNotAbout(b.ready, s.loop, s.listener);
    SameSessionsKeyed(s, start);
    AboutOthers(start, ready);
    EventsPause(start, ready);
  }

  lemma AboutOthers(s: State, ready: seq<Ready>)
    requires NotAbout(ready, s.listener)
    ensures forall k :: 0 <= k < |ready| ==> ready[k].event.fd != s.listener
  {
  }

  // ----- the listener

  /** Connections that the system can hand out one after the other. */
  predicate Fresh(s: State, conns: seq<AcceptOutcome>) {
    && (forall i :: 0 <= i < |conns| ==> conns[i].Connected? && conns[i].fd >= 0 && Admissible(s, conns[i].fd))
    && (forall i, j :: 0 <= i < j < |conns| ==> conns[i].fd != conns[j].fd)
  }

  /** The state after the first of them. */
  function AfterFirst(s: State, c: AcceptOutcome): State
    requires c.Connected?
  {
    if c.registered then Admitted(s, c.fd) else TurnedAway(s, c.fd)
  }

  lemma AcceptFirst(s: State, conns: seq<AcceptOutcome>, rest: seq<AcceptOutcome>)
    requires conns != [] && Fresh(s, conns) && Descriptors(s)
    ensures var u := AfterFirst(s, conns[0]);
            && AcceptPending(s, conns + rest) == AcceptPending(u, conns[1..] + rest)
            && Fresh(u, conns[1..]) && Descriptors(u) && |u.kernel.wire| == |s.kernel.wire| + 1
            && u.paused == s.paused && u.listener == s.listener
  {
    var c, u := conns[0], AfterFirst(s, conns[0]);
    assert (conns + rest)[0] == c && (conns + rest)[1..] == conns[1..] + rest;
    AdmittedDescriptors(s, c.fd);
    TurnedAwayKernel(s.kernel, c.fd);
    hide Descriptors, AcceptPending;
    assert AcceptPending(s, conns + rest) == AcceptPending(u, conns[1..] + rest) by { AcceptStep(s, conns + rest); }
  }

  lemma AcceptStep(s: State, accepts: seq<AcceptOutcome>)
    requires accepts != [] && accepts[0].Connected? && accepts[0].fd >= 0 && Admissible(s, accepts[0].fd)
    ensures AcceptPending(s, accepts) == AcceptPending(AfterFirst(s, accepts[0]), accepts[1..])
  {
  }

  /** The queue is drained: nothing more, or an answer that is not a connection. */
  predicate Stops(rest: seq<AcceptOutcome>) {
    rest == [] || !rest[0].Connected?
  }

  /** What is not open and not handed out stays unknown to the server. */
  lemma {:induction false} AcceptSpares(s: State, conns: seq<AcceptOutcome>, rest: seq<AcceptOutcome>, x: int)
    requires Fresh(s, conns) && Descriptors(s) && Stops(rest)
    requires x !in s.sessions && x !in s.kernel.table && x !in s.loop && x != s.listener
    requires forall i :: 0 <= i < |conns| ==> conns[i].fd != x
    ensures var t := AcceptPending(s, conns + rest);
            && x !in t.sessions && x !in t.kernel.table && x !in t.loop && s.kernel.closed <= t.kernel.closed
    decreases |conns|
  {
    if conns == [] {
      assert conns + rest == rest;
    } else {
      AcceptFirst(s, conns, rest);
      var c, u := conns[0], AfterFirst(s, conns[0]);
      TurnedAwayKernel(s.kernel, c.fd);
      hide AcceptPending, Descriptors, Fresh;
      AcceptSpares(u, conns[1..], rest, x);
    }
  }

  /** What has become of one connection: a new session watched for reading, or closed at once if that failed. */
  ghost predicate Welcomed(t: State, c: AcceptOutcome, who: nat)
    requires c.Connected?
  {
    if c.registered then
      && c.fd in t.sessions && t.sessions[c.fd] == NewSession(c.fd) && Who(t, c.fd) == who
      && c.fd in t.loop && t.loop[c.fd] == Interest(true, false)
    else c.fd !in t.sessions && c.fd !in t.kernel.table && c.fd !in t.loop && who in t.kernel.closed
  }

  /** Every connection in the queue is welcomed, and numbered in the order of arrival. */
  lemma {:induction false} AcceptsAll(s: State, conns: seq<AcceptOutcome>, rest: seq<AcceptOutcome>, i: nat)
    requires Fresh(s, conns) && Descriptors(s) && Stops(rest) && i < |conns|
    requires forall j :: 0 <= j < |conns| ==> conns[j].fd !in s.loop
    ensures Welcomed(AcceptPending(s, conns + rest), conns[i], |s.kernel.wire| + i)
    decreases |conns|
  {
    hide AcceptPending, Welcomed;
    AcceptFirst(s, conns, rest);
    var c, u := conns[0], AfterFirst(s, conns[0]);
    if i > 0 {
      FirstLoop(s, conns);
      AcceptsAll(u, conns[1..], rest, i - 1);
    } else if c.registered {
      assert conns + rest == [Connected(c.fd, true)] + (conns[1..] + rest);
      AcceptAdmits(s, c.fd, conns[1..] + rest);
      WelcomedNow(AcceptPending(s, conns + rest), c, |s.kernel.wire|);
    } else {
      TurnedAwayNow(s, c.fd);
      AcceptSpares(u, conns[1..], rest, c.fd);
      WelcomedNow(AcceptPending(s, conns + rest), c, |s.kernel.wire|);
    }
  }

  lemma FirstLoop(s: State, conns: seq<AcceptOutcome>)
    requires conns != [] && Fresh(s, conns) && forall j :: 0 <= j < |conns| ==> conns[j].fd !in s.loop
    ensures forall j :: 0 <= j < |conns[1..]| ==> conns[1..][j].fd !in AfterFirst(s, conns[0]).loop
  {
    hide OpenFd, Close;
  }

  lemma TurnedAwayNow(s: State, fd: int)
    requires Descriptors(s) && Admissible(s, fd) && fd !in s.loop
    ensures var u := TurnedAway(s, fd);
            && fd !in u.sessions && fd !in u.kernel.table && fd !in u.loop && fd != u.listener
            && |s.kernel.wire| in u.kernel.closed
  {
    var u := TurnedAway(s, fd);
    assert u.kernel.closed[|s.kernel.closed|] == |s.kernel.wire|;
  }

  lemma WelcomedNow(t: State, c: AcceptOutcome, who: nat)
    requires c.Connected?
    requires c.registered ==> c.fd in t.sessions && t.sessions[c.fd] == NewSession(c.fd) && Who(t, c.fd) == who
    requires c.registered ==> c.fd in t.loop && t.loop[c.fd] == Interest(true, false)
    requires !c.registered ==> c.fd !in t.sessions && c.fd !in t.kernel.table && c.fd !in t.loop && who in t.kernel.closed
    ensures Welcomed(t, c, who)
  {
  }

  lemma {:induction false} AcceptPauses(s: State, conns: seq<AcceptOutcome>, rest: seq<AcceptOutcome>)
    requires Fresh(s, conns) && Descriptors(s) && Stops(rest)
    ensures var t := AcceptPending(s, conns + rest);
            t.listener == s.listener && t.paused == (s.paused || (rest != [] && rest[0].Exhausted?))
    decreases |conns|
  {
    if conns == [] {
      assert conns + rest == rest;
    } else {
      hide AcceptPending, Descriptors, Fresh, Admitted, TurnedAway;
      AcceptFirst(s, conns, rest);
      AcceptPauses(AfterFirst(s, conns[0]), conns[1..], rest);
    }
  }

  /** The event of a turn whose listener has connections waiting. */
  function Knock(listener: int, accepts: seq<AcceptOutcome>): Ready {
    Ready(Event(listener, true, false, false), [], accepts)
  }

  /**
  A turn in which the listener is ready: every connection waiting is welcomed; accepting is paused
  afterwards exactly when it was and the pause was not over, or when the process ran out of descriptors.
  */
  lemma ListenerTurn(s: State, conns: seq<AcceptOutcome>, rest: seq<AcceptOutcome>, due: bool, i: nat)
    requires Invariant(s) && Keyed(s) && Fresh(s, conns) && Stops(rest) && i < |conns|
    ensures var t := Turn(s, Batch([Knock(s.listener, conns + rest)], due));
            && Welcomed(t, conns[i], |s.kernel.wire| + i)
            && t.paused == ((s.paused && !due) || (rest != [] && rest[0].Exhausted?))
            && t.listener in t.loop && t.loop[t.listener] == Interest(!t.paused, false)
  {
    hide Invariant, Keyed, AcceptPending, ReapClosed, Welcomed, ResumeAccepting, Fresh, Descriptors, Turn;
    var r, start := Knock(s.listener, conns + rest), ResumeAccepting(s, due);
    TurnInvariant(s, Batch([r], due));
    Theorems.RegisteredKeys(Turn(s, Batch([r], due)));
    Theorems.RegisteredKeys(s);
    ResumeOnly(s, due);
    OneEventTurn(s, r, due);
    InvariantDescriptors(start);
    SameFresh(s, start, conns);
    FreshUnregistered(start, conns);
    AcceptsAll(start, conns, rest, i);
    AcceptPauses(start, conns, rest);
    var u := AcceptPending(start, conns + rest);
    AcceptInvariant(start, conns + rest);
    InvariantDescriptors(u);
    ReapEffects(u);
    WelcomedStays(u, ReapClosed(u), conns[i], |s.kernel.wire| + i);
  }

  lemma SameFresh(s: State, t: State, conns: seq<AcceptOutcome>)
    requires Fresh(s, conns) && t.kernel == s.kernel && t.listener == s.listener
    ensures Fresh(t, conns) && forall j :: 0 <= j < |conns| ==> conns[j].Connected?
  {
  }

  lemma FreshUnregistered(s: State, conns: seq<AcceptOutcome>)
    requires Invariant(s) && Fresh(s, conns)
    ensures forall j :: 0 <= j < |conns| ==> conns[j].fd !in s.loop
  {
    Theorems.RegisteredKeys(s);
    InvariantDescriptors(s);
    LiveOpen(s);
    hide Invariant, Descriptors;
    forall j | 0 <= j < |conns| ensures conns[j].fd !in s.loop {
      var fd := conns[j].fd;
      assert fd !in s.kernel.table && fd != s.listener;
      assert fd !in s.sessions;
      assert fd in s.loop ==> fd in s.loop.Keys;
    }
  }

  lemma WelcomedStays(u: State, t: State, c: AcceptOutcome, who: nat)
    requires c.Connected? && Welcomed(u, c, who)
    requires t.sessions == u.sessions && t.loop == u.loop && u.kernel.closed <= t.kernel.closed
    requires forall x :: x in u.sessions ==> Who(t, x) == Who(u, x)
    requires forall x :: x in t.kernel.table <==> x in u.sessions
    ensures Welcomed(t, c, who)
  {
  }

  /** After every turn the open descriptors are exactly those of the sessions, and none is left to be closed. */
  lemma TurnLeavesNoneOpen(s: State, b: Batch)
    requires Invariant(s) && Keyed(s)
    ensures var t := Turn(s, b);
            t.closedFds == [] && forall x :: x in t.kernel.table <==> x in t.sessions
  {
    hide Invariant, Keyed, ProcessAll, ReapClosed, Reported, ResumeAccepting, Descriptors;
    var start := ResumeAccepting(s, b.due);
    ResumeOnly(s, b.due);
    SameSessionsKeyed(s, start);
    var u := ProcessAll(start, Reported(b.ready, s.loop));
    ProcessAllInvariant(start, Reported(b.ready, s.loop));
    InvariantDescriptors(u);
    ReapEffects(u);
  }

  // ----- a session's events

  /** One event of a session, with whatever its calls will be answered. */
  function Of(fd: int, readable: bool, writable: bool, hangup: bool, recvs: seq<RecvOutcome>): Ready {
    Ready(Event(fd, readable, writable, hangup), recvs, [])
  }

  /** A session's event makes a turn of its own: the event, and then what was dropped is closed. */
  lemma SessionTurn(s: State, r: Ready, due: bool)
    requires Invariant(s) && Keyed(s) && r.event.fd in s.sessions
    ensures var start := ResumeAccepting(s, due);
            && Keyed(start) && Invariant(start) && start == s.(paused := start.paused, loop := start.loop)
            && r.event.fd != start.listener
            && var u, t := ProcessEvent(start, r), Turn(s, Batch([r], due));
               t.sessions == u.sessions && t.hist == u.hist && t.book == u.book && t.kernel.wire == u.kernel.wire
  {
    hide Invariant, Keyed, ProcessEvent, ReapClosed, ResumeAccepting, Descriptors, Turn;
    Theorems.RegisteredKeys(s);
    NotListener(s, r.event.fd);
    ResumeOnly(s, due);
    OneEventTurn(s, r, due);
    var u := ProcessEvent(ResumeAccepting(s, due), r);
    ProcessEventInvariant(ResumeAccepting(s, due), r);
    InvariantDescriptors(u);
    ReapEffects(u);
  }

  lemma NotListener(s: State, fd: int)
    requires Invariant(s) && fd in s.sessions
    ensures fd != s.listener && fd in s.loop.Keys && OwnConnection(s, fd)
  {
    SoundBasics(s);
    TablesOwn(s, fd);
    hide Tables, OwnConnection, Inputs.InputExcept, Streams, RestExcept;
    Theorems.RegisteredKeys(s);
  }

  /** A flush hands over a prefix of what was pending and keeps the rest, if it keeps the session. */
  lemma FlushWrites(s: State, fd: int)
    requires OwnConnection(s, fd)
    ensures var ses, n, t := s.sessions[fd], WriteOut(Pending(s.sessions[fd]), s.sends).count, Flush(s, fd);
            && Log(t.kernel.wire, Who(s, fd)) == Log(s.kernel.wire, Who(s, fd)) + Unsent(ses)[..n]
            && (fd in t.sessions ==> Unsent(t.sessions[fd]) == Unsent(ses)[n..])
  {
    hide Drop, WriteOut, Compact, Rearmed, Wanted, Finished;
    var w := WriteOut(Pending(s.sessions[fd]), s.sends);
    var t := Written(s, fd, w);
    DropOutput(t, fd);
    CompactSame(t.sessions[fd]);
    DropOutput(Update(t, fd, Compact(t.sessions[fd])), fd);
    assert Unsent(t.sessions[fd]) == Unsent(s.sessions[fd])[w.count..];
  }

  /** And keeps it unless the socket failed, too much stays unwritten, or it was closing and is drained. */
  lemma FlushSurvives(s: State, fd: int)
    requires OwnConnection(s, fd)
    ensures var ses, w := s.sessions[fd], WriteOut(Pending(s.sessions[fd]), s.sends);
            fd in Flush(s, fd).sessions <==>
            !w.failed && Pending(ses) - w.count <= MAX_OUTPUT && (Pending(ses) > w.count || !ses.closing)
  {
    hide B.Apply, WriteOut, Transmit, Unsent;
    var w := WriteOut(Pending(s.sessions[fd]), s.sends);
    var t := Written(s, fd, w);
    CompactKeeps(t.sessions[fd]);
  }

  /**
  A turn in which a session is writable: its socket is handed as much of the pending output as its answers
  allow, and the rest stays pending unless the session is given up on or has finished closing.
  */
  lemma WritableTurn(s: State, fd: int, recvs: seq<RecvOutcome>, due: bool) returns (used: nat)
    requires Invariant(s) && Keyed(s) && fd in s.sessions
    ensures UsesUp(Pending(s.sessions[fd]), s.sends, used) && StopsAfter(Pending(s.sessions[fd]), s.sends, used)
    ensures var t, ses := Turn(s, Batch([Of(fd, false, true, false, recvs)], due)), s.sessions[fd];
            var n := B.Min(Pending(ses), Taken(s.sends[..used]));
            && Log(t.kernel.wire, Who(s, fd)) == Log(s.kernel.wire, Who(s, fd)) + Unsent(ses)[..n]
            && (fd in t.sessions ==> Unsent(t.sessions[fd]) == Unsent(ses)[n..])
            && (fd in t.sessions <==> !(used > 0 && Refusal(s.sends[used - 1])) && Pending(ses) - n <= MAX_OUTPUT
                                      && (Pending(ses) > n || !ses.closing))
  {
    hide Invariant, Keyed, Flush, WriteOut, Turn, ResumeAccepting, Taken, OwnConnection, Unsent;
    var r, start := Of(fd, false, true, false, recvs), ResumeAccepting(s, due);
    SessionTurn(s, r, due);
    NotListener(start, fd);
    used := WritesWhatItCan(Pending(s.sessions[fd]), s.sends);
    assert ProcessEvent(start, r) == Flush(start, fd);
    FlushWrites(start, fd);
    FlushSurvives(start, fd);
  }

  /** Reading comes to the end of the stream, or fails. */
  predicate Ends(recvs: seq<RecvOutcome>) {
    recvs != [] &&
    match recvs[0]
    case Received(bytes) => bytes == "" || (|bytes| >= READ_CHUNK && Ends(recvs[1..]))
    case RecvInterrupted => Ends(recvs[1..])
    case RecvWouldBlock => false
    case RecvFailed => true
  }

  /** What the last call of a reading adds: the bytes of a short read, and otherwise nothing. */
  function LastRead(o: RecvOutcome): seq<string> {
    if o.Received? && o.bytes != "" then [o.bytes] else []
  }

  /** What is delivered: every full buffer, and what the first call that does not fill one brings; later calls are not made. */
  lemma {:induction false} DeliveriesAre(chunks: seq<string>, last: RecvOutcome, more: seq<RecvOutcome>)
    requires AllFull(chunks, READ_CHUNK) && !last.RecvInterrupted? && (last.Received? ==> |last.bytes| < READ_CHUNK)
    ensures Deliveries(Calls(chunks) + [last] + more) == chunks + LastRead(last)
    ensures Ends(Calls(chunks) + [last] + more) <==> last.RecvFailed? || last == Received("")
    decreases |chunks|
  {
    var recvs := Calls(chunks) + [last] + more;
    if chunks == [] {
      assert recvs[0] == last;
      assert chunks + LastRead(last) == LastRead(last);
    } else {
      assert recvs[0] == Received(chunks[0]) && recvs[1..] == Calls(chunks[1..]) + [last] + more;
      DeliveriesAre(chunks[1..], last, more);
      assert chunks == [chunks[0]] + chunks[1..];
      assert [chunks[0]] + (chunks[1..] + LastRead(last)) == chunks + LastRead(last);
    }
  }

  /** An interrupted call is made again. */
  lemma InterruptedIsRetried(recvs: seq<RecvOutcome>)
    ensures Deliveries([RecvInterrupted] + recvs) == Deliveries(recvs) && (Ends([RecvInterrupted] + recvs) <==> Ends(recvs))
  {
    assert ([RecvInterrupted] + recvs)[1..] == recvs;
  }

  /** A session whose peer is found gone reads no more. */
  lemma {:induction false} EndIsNoticed(s: State, fd: int, recvs: seq<RecvOutcome>)
    requires Keyed(s) && Ends(recvs)
    ensures var t := OnReadable(s, fd, recvs); fd in t.sessions ==> t.sessions[fd].closing
    decreases |recvs|
  {
    hide ConsumeMessages, BeginOrderlyClose, Drop, Keyed;
    if fd in s.sessions && !s.sessions[fd].closing {
      match recvs[0] {
        case Received(bytes) =>
          if bytes == "" {
            OrderlyCloseKeyed(s, fd);
          } else {
            var chunk := Clip(bytes, READ_CHUNK);
            var t := Receive(s, fd, chunk);
            ReceiveFaithful(s, fd, chunk);
            MoreToRead(t, fd);
            EndIsNoticed(ConsumeMessages(t, fd).state, fd, recvs[1..]);
          }
        case RecvInterrupted => EndIsNoticed(s, fd, recvs[1..]);
        case RecvFailed => DropOutput(s, fd);
      }
    }
  }

  /**
  A turn in which a session is readable: it takes a prefix of what the socket delivers, and all of it if it
  reads on, which it does not once the peer is found gone.  A closing session is not read.
  */
  lemma ReadableTurn(s: State, fd: int, recvs: seq<RecvOutcome>, due: bool)
    requires Invariant(s) && Keyed(s) && fd in s.sessions
    ensures var t, before := Turn(s, Batch([Of(fd, true, false, false, recvs)], due)), Log(s.hist.chunks, Who(s, fd));
            var after, chunks := Log(t.hist.chunks, Who(s, fd)), Deliveries(recvs);
            if s.sessions[fd].closing then t.sessions == s.sessions && after == before
            else
              && before <= after <= before + chunks
              && (fd in t.sessions && !t.sessions[fd].closing ==> after == before + chunks && !Ends(recvs))
  {
    hide Invariant, Keyed, OnReadable, Turn, ResumeAccepting, Deliveries, OwnConnection;
    var r, start := Of(fd, true, false, false, recvs), ResumeAccepting(s, due);
    SessionTurn(s, r, due);
    assert ProcessEvent(start, r) == OnReadable(start, fd, recvs);
    if s.sessions[fd].closing {
      StopsReading(start, fd, recvs);
    } else {
      ChunksLogged(start, fd);
      NothingReceivedIsLost(start, fd, recvs);
      if Ends(recvs) {
        EndIsNoticed(start, fd, recvs);
      }
    }
  }

  lemma ChunksLogged(s: State, fd: int)
    requires Invariant(s) && fd in s.sessions
    ensures Who(s, fd) < |s.hist.chunks|
  {
    hide Invariant, Denoted;
    InvariantDescriptors(s);
  }

  /** A peer that has closed its end is kept, closing, exactly while it has output; one that failed is dropped. */
  lemma PeerGoneTurn(s: State, fd: int, more: seq<RecvOutcome>, due: bool)
    requires Invariant(s) && Keyed(s) && fd in s.sessions && !s.sessions[fd].closing
    ensures var t := Turn(s, Batch([Of(fd, true, false, false, [Received("")] + more)], due));
            && (fd in t.sessions <==> Pending(s.sessions[fd]) > 0)
            && (fd in t.sessions ==> t.sessions[fd].closing && Unsent(t.sessions[fd]) == Unsent(s.sessions[fd]))
    ensures fd !in Turn(s, Batch([Of(fd, true, false, false, [RecvFailed] + more)], due)).sessions
  {
    hide Invariant, Keyed, Turn, ResumeAccepting, Drop;
    var start := ResumeAccepting(s, due);
    var eof, bad := Of(fd, true, false, false, [Received("")] + more), Of(fd, true, false, false, [RecvFailed] + more);
    SessionTurn(s, eof, due);
    SessionTurn(s, bad, due);
    DropOutput(start, fd);
    DropOutput(Closing(start, fd), fd);
    assert ProcessEvent(start, eof) == BeginOrderlyClose(start, fd);
    assert ProcessEvent(start, bad) == Drop(start, fd);
  }

  /** A turn in which a session hangs up ends it, and no other. */
  lemma HangupTurn(s: State, fd: int, recvs: seq<RecvOutcome>, due: bool)
    requires Invariant(s) && Keyed(s) && fd in s.sessions
    ensures Turn(s, Batch([Of(fd, false, false, true, recvs)], due)).sessions == s.sessions - {fd}
  {
    hide Invariant, Keyed, Turn, ResumeAccepting, B.Apply;
    var r, start := Of(fd, false, false, true, recvs), ResumeAccepting(s, due);
    SessionTurn(s, r, due);
    assert ProcessEvent(start, r) == Drop(start, fd);
  }

  // ----- a session's buffer, line by line

  /** The buffer's first line is handled, stripped of a carriage return, and then the rest of the buffer. */
  lemma LineByLine(s: State, fd: int, line: string, rest: string)
    requires Keyed(s) && fd in s.sessions && NoNewline(line) && s.sessions[fd].inbuf == line + "\n" + rest
    ensures var t := TookLine(s, fd, StripCr(line), rest);
            && Keyed(t)
            && var u, c := HandleMessage(t, fd, StripCr(line)), ConsumeMessages(s, fd);
               Keyed(u) && c == if fd !in u.sessions then Consumed(u, false)
                                else if u.sessions[fd].closing then Consumed(u, true)
                                else ConsumeMessages(u, fd)
  {
    hide HandleMessage, Newline, Keyed, Onward;
    var inbuf := s.sessions[fd].inbuf;
    assert inbuf[..|line|] == line && inbuf[|line| + 1..] == rest;
    NewlineIs(inbuf, |line|);
    assert TakeLine(s, fd) == TookLine(s, fd, StripCr(line), rest);
    TakeLineKeyed(s, fd);
    HandleMessageOnward(TakeLine(s, fd), fd, StripCr(line));
  }

  /** One line fewer in the buffer, and one more in the log of what was handled. */
  function TookLine(s: State, fd: int, line: string, rest: string): State
    requires fd in s.sessions
  {
    Update(s, fd, s.sessions[fd].(inbuf := rest)).(hist := s.hist.(handled := Extend(s.hist.handled, Who(s, fd), [line])))
  }
}
