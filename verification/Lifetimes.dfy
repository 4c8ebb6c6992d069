/** Descriptor numbers are reused; connections are not confused. */
module Lifetimes {
  import opened Sequences
  import opened Protocol
  import opened Framing
  import opened Sockets
  import opened Exchange
  import opened Loop
  import opened Invariants
  import opened Output
  import opened Inputs
  import opened Announcements
  import opened Safety

  /**
  Every descriptor open before is still open and denotes the same connection; a session on it now is that
  connection's session, with the role it had; and descriptors opened since denote new connections.
  */
  ghost predicate Faithful(s: State, t: State) {
    && |s.kernel.wire| <= |t.kernel.wire| && Grows(s, t)
    && (forall x :: x in s.kernel.table ==> x in t.kernel.table && t.kernel.table[x] == s.kernel.table[x])
    && (forall x :: x in t.kernel.table && x !in s.kernel.table ==> t.kernel.table[x] >= |s.kernel.wire|)
    && (forall x :: x in t.sessions && x in s.kernel.table ==> x in s.sessions && RoleKept(s.sessions[x], t.sessions[x]))
  }

  lemma FaithfulChains(s: State, t: State, u: State)
    requires Faithful(s, t) && Faithful(t, u)
    ensures Faithful(s, u)
  {
  }

  lemma OnwardFaithful(s: State, t: State)
    requires Onward(s, t)
    ensures Faithful(s, t)
  {
  }

  lemma OrderlyCloseFaithful(s: State, fd: int)
    ensures Faithful(s, BeginOrderlyClose(s, fd))
  {
    hide Drop;
    if fd in s.sessions {
      OrderlyCloseOnward(s, fd);
      hide BeginOrderlyClose;
    }
  }

  lemma HandleMessageFaithful(s: State, fd: int, line: string)
    requires Keyed(s) && fd in s.sessions
    ensures Faithful(s, HandleMessage(s, fd, line))
  {
    hide Keyed, Parse, HandleLogin, HandleSubscription, HandleOrder, HandleCancel, BeginOrderlyClose, SendTo, Faithful;
    HandleMessageOnward(s, fd, line);
    ParseWellParsed(line);
    if IsQuit(line) {
      OrderlyCloseFaithful(s, fd);
    } else {
      OnwardFaithful(s, HandleMessage(s, fd, line));
    }
  }

  lemma TakeLineFaithful(s: State, fd: int)
    requires fd in s.sessions && Newline(s.sessions[fd].inbuf) < |s.sessions[fd].inbuf|
    ensures Faithful(s, TakeLine(s, fd))
  {
  }

  lemma {:induction false} ConsumeFaithful(s: State, fd: int)
    requires Keyed(s)
    ensures Faithful(s, ConsumeMessages(s, fd).state)
    decreases if fd in s.sessions then |s.sessions[fd].inbuf| else 0
  {
    hide Keyed, HandleMessage, BeginOrderlyClose, SendTo, Newline, Faithful, Onward;
    OnwardSelf(s);
    OnwardFaithful(s, s);
    if fd in s.sessions {
      var inbuf := s.sessions[fd].inbuf;
      if Newline(inbuf) == |inbuf| {
        var t := Refuse(s, fd, LineTooLong);
        SendToOnward(s, fd, Error(LineTooLong));
        OnwardFaithful(s, t);
        OrderlyCloseFaithful(t, fd);
        FaithfulChains(s, t, BeginOrderlyClose(t, fd));
      } else {
        var t, line := TakeLine(s, fd), FirstLine(inbuf);
        TakeLineKeyed(s, fd);
        TakeLineFaithful(s, fd);
        HandleMessageOnward(t, fd, line);
        HandleMessageFaithful(t, fd, line);
        var u := HandleMessage(t, fd, line);
        FaithfulChains(s, t, u);
        if fd in u.sessions && !u.sessions[fd].closing {
          ConsumeFaithful(u, fd);
          FaithfulChains(s, u, ConsumeMessages(u, fd).state);
        }
      }
    }
  }

  lemma TakeLineKeyed(s: State, fd: int)
    requires Keyed(s) && fd in s.sessions && Newline(s.sessions[fd].inbuf) < |s.sessions[fd].inbuf|
    ensures Keyed(TakeLine(s, fd))
  {
  }

  lemma ReceiveFaithful(s: State, fd: int, bytes: string)
    requires fd in s.sessions && Keyed(s)
    ensures Faithful(s, Receive(s, fd, bytes)) && Keyed(Receive(s, fd, bytes))
  {
  }

  lemma {:induction false} OnReadableFaithful(s: State, fd: int, recvs: seq<RecvOutcome>)
    requires Keyed(s)
    ensures Faithful(s, OnReadable(s, fd, recvs))
    decreases |recvs|
  {
    hide ConsumeMessages, BeginOrderlyClose, Drop, Receive, Keyed, Faithful, Onward;
    OnwardSelf(s);
    OnwardFaithful(s, s);
    if fd in s.sessions && !s.sessions[fd].closing && recvs != [] {
      match recvs[0] {
        case Received(bytes) =>
          if bytes == "" {
            OrderlyCloseFaithful(s, fd);
          } else {
            var t := Receive(s, fd, Clip(bytes, READ_CHUNK));
            ReceiveFaithful(s, fd, Clip(bytes, READ_CHUNK));
            ConsumeFaithful(t, fd);
            var u := ConsumeMessages(t, fd).state;
            FaithfulChains(s, t, u);
            OnReadableFaithful(u, fd, recvs[1..]);
            FaithfulChains(s, u, OnReadable(u, fd, recvs[1..]));
          }
        case RecvInterrupted => OnReadableFaithful(s, fd, recvs[1..]);
        case RecvWouldBlock =>
        case RecvFailed =>
          DropOnward(s, fd);
          OnwardFaithful(s, Drop(s, fd));
      }
    }
  }

  lemma AdmitFaithful(s: State, fd: int)
    requires Descriptors(s) && Admissible(s, fd)
    ensures Faithful(s, Admitted(s, fd)) && Faithful(s, TurnedAway(s, fd))
  {
  }

  lemma PauseFaithful(s: State, due: bool)
    ensures Faithful(s, PauseAccepting(s)) && Faithful(s, ResumeAccepting(s, due))
  {
  }

  lemma {:induction false} AcceptFaithful(s: State, accepts: seq<AcceptOutcome>)
    requires Invariant(s)
    ensures Faithful(s, AcceptPending(s, accepts))
    decreases |accepts|
  {
    hide Invariant, Admit, Close, Faithful, Descriptors, Onward;
    OnwardSelf(s);
    OnwardFaithful(s, s);
    PauseFaithful(s, false);
    if accepts != [] && accepts[0].Connected? {
      var fd := accepts[0].fd;
      if fd >= 0 && fd != s.listener && fd !in s.kernel.table {
        assert Descriptors(s) by { InvariantDescriptors(s); }
        AdmitFaithful(s, fd);
        AdmitLoop(s, fd);
        AdmittedInvariant(s, fd);
        TurnedAwayInvariant(s, fd);
        var t := if accepts[0].registered then Admitted(s, fd) else TurnedAway(s, fd);
        AcceptFaithful(t, accepts[1..]);
        FaithfulChains(s, t, AcceptPending(t, accepts[1..]));
      }
    }
  }

  lemma InvariantDescriptors(s: State)
    requires Invariant(s)
    ensures Descriptors(s)
  {
  }

  lemma ProcessEventFaithful(s: State, r: Ready)
    requires Keyed(s) && Invariant(s)
    ensures Faithful(s, ProcessEvent(s, r))
  {
    hide Flush, OnReadable, Drop, AcceptPending, Invariant, Faithful, Keyed, Onward;
    var fd := r.event.fd;
    OnwardSelf(s);
    OnwardFaithful(s, s);
    if fd == s.listener {
      AcceptFaithful(s, r.accepts);
    } else if fd in s.sessions {
      FlushOnward(s, fd);
      OnwardFaithful(s, Flush(s, fd));
      var t := if r.event.writable then Flush(s, fd) else s;
      if fd in t.sessions {
        OnwardSelf(t);
        OnwardFaithful(t, t);
        OnReadableFaithful(t, fd, r.recvs);
        var u := if r.event.readable then OnReadable(t, fd, r.recvs) else t;
        FaithfulChains(s, t, u);
        DropOnward(u, fd);
        OnwardFaithful(u, Drop(u, fd));
        FaithfulChains(s, u, Drop(u, fd));
      }
    }
  }

  lemma {:induction false} ProcessAllFaithful(s: State, ready: seq<Ready>)
    requires Keyed(s) && Invariant(s)
    ensures Faithful(s, ProcessAll(s, ready))
    decreases |ready|
  {
    hide ProcessEvent, Keyed, Invariant, Faithful, Onward;
    if ready == [] {
      OnwardSelf(s);
      OnwardFaithful(s, s);
    } else {
      var t := ProcessEvent(s, ready[0]);
      ProcessEventFaithful(s, ready[0]);
      ProcessEventInvariant(s, ready[0]);
      ProcessAllFaithful(t, ready[1..]);
      FaithfulChains(s, t, ProcessAll(t, ready[1..]));
    }
  }

  lemma {:induction false} ReportedRegistered(ready: seq<Ready>, loop: map<int, Interest>, k: nat)
    requires k < |Reported(ready, loop)|
    ensures Reported(ready, loop)[k].event.fd in loop
  {
    if ready[0].event.fd in loop {
      if k > 0 {
        ReportedRegistered(ready[1..], loop, k - 1);
      }
    } else {
      ReportedRegistered(ready[1..], loop, k);
    }
  }

  /** Collecting events and resuming accepts happen before the first event. */
  lemma BatchFaithful(s: State, due: bool, ready: seq<Ready>)
    requires Keyed(s) && Invariant(s)
    ensures Faithful(s, ProcessAll(ResumeAccepting(s, due), ready))
  {
    hide Keyed, Invariant, Faithful, ProcessAll;
    var t := ResumeAccepting(s, due);
    PauseFaithful(s, due);
    if s.paused && due {
      PauseInvariant(s, t);
    }
    assert Keyed(t) by { SameSessionsKeyed(s, t); }
    ProcessAllFaithful(t, ready);
    FaithfulChains(s, t, ProcessAll(t, ready));
  }

  lemma SameSessionsKeyed(s: State, t: State)
    requires Keyed(s) && t.sessions == s.sessions
    ensures Keyed(t)
  {
  }

  /**
  However accepts and drops interleave within a turn, the k-th event concerns the listener or a descriptor
  that still denotes the connection it denoted when the events were collected; that connection had a
  session then, and a session there now is the same connection's, with the same role.
  */
  lemma EventsReachTheirConnections(s: State, b: Batch, k: nat)
    requires Invariant(s) && Keyed(s) && k < |Reported(b.ready, s.loop)|
    ensures var fd := Reported(b.ready, s.loop)[k].event.fd;
            var now := ProcessAll(ResumeAccepting(s, b.due), Reported(b.ready, s.loop)[..k]);
            fd != s.listener ==>
              && fd in s.sessions && fd in now.kernel.table && Who(now, fd) == Who(s, fd)
              && (fd in now.sessions ==> RoleKept(s.sessions[fd], now.sessions[fd]))
  {
    SoundBasics(s);
    assert forall fd :: fd in s.sessions ==> fd in s.kernel.table;
    hide InputExcept, Tables, Streams, Tape, AtRest, ProcessAll, Reported, RoleKept;
    ReportedRegistered(b.ready, s.loop, k);
    BatchFaithful(s, b.due, Reported(b.ready, s.loop)[..k]);
  }

  // ----- roles are fixed for the life of a connection

  /** Sessions of connections that already existed are the sessions they were, and records only grow. */
  ghost predicate Continues(s: State, t: State) {
    && |s.kernel.wire| <= |t.kernel.wire| && Grows(s, t)
    && forall x :: x in t.sessions && Who(t, x) < |s.kernel.wire| ==>
         x in s.sessions && Who(s, x) == Who(t, x) && RoleKept(s.sessions[x], t.sessions[x])
  }

  lemma ContinuesChains(s: State, t: State, u: State)
    requires Continues(s, t) && Continues(t, u)
    ensures Continues(s, u)
  {
  }

  lemma {:induction false} ReapWho(s: State)
    requires Descriptors(s)
    ensures var t := ReapClosed(s);
            && t.sessions == s.sessions && |t.kernel.wire| == |s.kernel.wire| && t.hist == s.hist
            && forall x :: x in s.sessions ==> Who(t, x) == Who(s, x)
    decreases |s.closedFds|
  {
    hide Descriptors, Close;
    if s.closedFds != [] {
      ReapOneDescriptors(s);
      ReapWho(ReapOne(s));
      assert ReapClosed(s) == ReapClosed(ReapOne(s));
      CloseWire(s.kernel, s.closedFds[0]);
    }
  }

  lemma CloseWire(k: Kernel, fd: int)
    ensures Close(k, fd).wire == k.wire
  {
  }

  lemma TurnContinues(s: State, b: Batch)
    requires Keyed(s) && Invariant(s)
    ensures Continues(s, Turn(s, b))
  {
    hide Invariant, Keyed, ProcessAll, ReapClosed, Reported, RoleKept, Descriptors;
    var t := ResumeAccepting(s, b.due);
    var ready := Reported(b.ready, s.loop);
    BatchFaithful(s, b.due, ready);
    if s.paused && b.due {
      PauseInvariant(s, t);
    }
    SameSessionsKeyed(s, t);
    ProcessAllInvariant(t, ready);
    InvariantDescriptors(ProcessAll(t, ready));
    ReapWho(ProcessAll(t, ready));
    LiveOpen(ProcessAll(t, ready));
  }

  lemma LiveOpen(s: State)
    requires Descriptors(s)
    ensures forall x :: x in s.sessions ==> x in s.kernel.table
  {
  }

  /**
  Over any stretch of any run: a session at the end whose connection existed at the start was that
  connection's session then, under the same descriptor, and has kept its role and its username.
  */
  lemma {:induction false} RolesAreFixed(s: State, batches: seq<Batch>)
    requires Keyed(s) && Invariant(s)
    ensures Continues(s, Turns(s, batches)) && Invariant(Turns(s, batches))
    decreases |batches|
  {
    hide Invariant, Keyed, Turn, RoleKept;
    if batches != [] {
      var most := Turns(s, batches[..|batches| - 1]);
      RolesAreFixed(s, batches[..|batches| - 1]);
      TurnContinues(most, batches[|batches| - 1]);
      TurnInvariant(most, batches[|batches| - 1]);
      ContinuesChains(s, most, Turns(s, batches));
    } else {
      ContinuesSelf(s);
    }
  }

  lemma ContinuesSelf(s: State)
    ensures Continues(s, s)
  {
  }

  // ----- every connection is closed exactly once

  lemma {:induction false} CloseAllConnections(k: Kernel, fds: seq<int>)
    requires Connections(k) && Distinct(fds) && forall i :: 0 <= i < |fds| ==> fds[i] in k.table
    ensures var c := CloseAll(k, fds);
            && Connections(c) && |c.wire| == |k.wire|
            && (forall fd :: fd in c.table <==> fd in k.table && fd !in fds)
    decreases |fds|
  {
    hide Connections;
    if fds != [] {
      CloseConnections(k, fds[0]);
      CloseAllConnections(Close(k, fds[0]), fds[1..]);
      assert fds == [fds[0]] + fds[1..];
    }
  }

  lemma ClosingBoth(s: State, fds: seq<int>)
    requires Descriptors(s) && Distinct(fds) && forall fd :: fd in fds <==> fd in s.sessions.Keys
    ensures var k := CloseAll(CloseAll(s.kernel, fds), s.closedFds);
            Connections(k) && |k.wire| == |s.kernel.wire| && forall fd :: fd !in k.table
  {
    hide Connections, CloseAll;
    forall i | 0 <= i < |fds| ensures fds[i] in s.kernel.table {
      var fd := fds[i];
      assert fd in fds;
    }
    CloseAllConnections(s.kernel, fds);
    forall i | 0 <= i < |s.closedFds| ensures s.closedFds[i] in CloseAll(s.kernel, fds).table {
      var fd := s.closedFds[i];
      assert fd in s.closedFds;
    }
    CloseAllConnections(CloseAll(s.kernel, fds), s.closedFds);
  }

  /** After shutdown no descriptor is open, and the connections closed are all there ever were, each once. */
  lemma ShutdownClosesEverything(s: State)
    requires Invariant(s)
    ensures var k := ShutdownAll(s).kernel;
            && (forall fd :: fd !in k.table)
            && Distinct(k.closed) && (forall w :: w in k.closed <==> 0 <= w < |s.kernel.wire|)
            && !k.fault
  {
    hide Invariant, CloseAll, Enumerate, Descriptors;
    var fds := Enumerate(Hint(s), s.sessions.Keys);
    EnumerateAll(Hint(s), s.sessions.Keys);
    InvariantDescriptors(s);
    ClosingBoth(s, fds);
    var k := ShutdownAll(s).kernel;
    assert forall w :: 0 <= w < |k.wire| ==> w in k.closed || Denoted(k, w);
  }
}
