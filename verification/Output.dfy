/** The output side: no byte is lost, reordered or sent twice, and what the loop watches is what is wanted. */
module Output {
  import opened Protocol
  import opened Framing
  import opened Sockets
  import opened Exchange
  import opened Invariants
  import opened TcpClients
  import B = Book

  function Log<T>(logs: seq<seq<T>>, w: nat): seq<T> {
    if w < |logs| then logs[w] else []
  }

  /** What the socket took, followed by what is still buffered, is everything queued since accept. */
  predicate Conserved(s: State, fd: int)
    requires fd in s.sessions
  {
    Log(s.kernel.wire, Who(s, fd)) + Unsent(s.sessions[fd]) == RenderAll(Log(s.hist.queued, Who(s, fd)))
  }

  ghost predicate Streams(s: State) {
    && (forall fd :: fd in s.sessions ==> Conserved(s, fd))
    && (forall w: nat :: Log(s.kernel.wire, w) <= RenderAll(Log(s.hist.queued, w)))
    && (forall w: nat :: AllPlain(Log(s.hist.queued, w)))
  }

  /** A session between two steps: bounded output, and registered and cached interest as its state wants. */
  predicate AtRest(s: State, fd: int)
    requires fd in s.sessions
  {
    var ses := s.sessions[fd];
    && fd in s.loop && s.loop[fd] == Interest(ses.readInterest, ses.writeInterest) == Wanted(ses)
    && !Finished(ses)
    && |ses.outbuf| <= MAX_OUTPUT + READ_CHUNK
  }

  /** A session in the middle of a step: only the cached flags are right. */
  predicate Cached(s: State, fd: int)
    requires fd in s.sessions
  {
    fd in s.loop && s.loop[fd] == Interest(s.sessions[fd].readInterest, s.sessions[fd].writeInterest)
  }

  ghost predicate RestExcept(s: State, busy: int) {
    && (forall fd :: fd in s.loop ==> fd in s.sessions || fd == s.listener)
    && s.listener in s.loop && s.loop[s.listener] == Interest(!s.paused, false) && s.listener !in s.sessions
    && (forall fd :: fd in s.sessions ==> if fd == busy then Cached(s, fd) else AtRest(s, fd))
  }

  /** The loop's registrations are exactly the live sessions and the listener, each with the interest it needs. */
  ghost predicate Registered(s: State) {
    RestExcept(s, s.listener)
  }

  // ----- streams

  lemma RenderAppend(rs: seq<Response>, r: Response)
    ensures RenderAll(rs + [r]) == RenderAll(rs) + Render(r)
  {
    assert (rs + [r])[..|rs|] == rs;
  }

  lemma EnqueueStreams(s: State, fd: int, r: Response)
    requires Tables(s) && Streams(s) && fd in s.sessions && PlainResponse(r)
    ensures Streams(Enqueue(s, fd, r))
  {
    hide Render, RenderAll, PlainResponse, Subscriptions, Names, Orders, Roles;
    var t, w := Enqueue(s, fd, r), Who(s, fd);
    RenderAppend(s.hist.queued[w], r);
    assert Conserved(s, fd);
    forall x | x in t.sessions ensures Conserved(t, x) {
      assert Conserved(s, x);
      if x == fd {
        assert Unsent(t.sessions[fd]) == Unsent(s.sessions[fd]) + Render(r);
      }
    }
    forall v: nat ensures Log(t.kernel.wire, v) <= RenderAll(Log(t.hist.queued, v)) && AllPlain(Log(t.hist.queued, v)) {
      assert Log(s.kernel.wire, v) <= RenderAll(Log(s.hist.queued, v)) && AllPlain(Log(s.hist.queued, v));
    }
  }

  lemma WrittenStreams(s: State, fd: int, w: Writing)
    requires Tables(s) && Streams(s) && fd in s.sessions && w.count <= Pending(s.sessions[fd])
    ensures Streams(Written(s, fd, w))
  {
    hide RenderAll, AllPlain, Tables, Written, OwnConnection;
    var t := Written(s, fd, w);
    TablesOwn(s, fd);
    WrittenWire(s, fd, w);
    assert Conserved(s, fd);
    forall x | x in t.sessions ensures Conserved(t, x) {
      assert Conserved(s, x);
      if x != fd { OtherConnection(s, fd, x); }
    }
    forall u: nat ensures Log(t.kernel.wire, u) <= RenderAll(Log(t.hist.queued, u)) && AllPlain(Log(t.hist.queued, u)) {
      assert Log(s.kernel.wire, u) <= RenderAll(Log(s.hist.queued, u)) && AllPlain(Log(s.hist.queued, u));
    }
  }

  /** A session's connection is its own. */
  ghost predicate OwnConnection(s: State, fd: int) {
    && fd in s.sessions && s.sessions[fd].fd == fd && fd in s.kernel.table && Who(s, fd) < |s.kernel.wire|
    && forall x :: x in s.sessions && x != fd ==> Who(s, x) != Who(s, fd)
  }

  lemma TablesOwn(s: State, fd: int)
    requires Tables(s) && fd in s.sessions
    ensures OwnConnection(s, fd)
  {
    hide Subscriptions, Names, Orders, Roles;
  }

  lemma OtherConnection(s: State, fd: int, x: int)
    requires OwnConnection(s, fd) && x in s.sessions && x != fd
    ensures Who(s, x) != Who(s, fd)
  {
  }

  /** Bytes go from the buffer to the wire of one connection; together they stay the same. */
  lemma WrittenWire(s: State, fd: int, w: Writing)
    requires OwnConnection(s, fd) && w.count <= Pending(s.sessions[fd])
    ensures var t := Written(s, fd, w);
            && t.hist == s.hist && t.kernel.table == s.kernel.table && t.sessions.Keys == s.sessions.Keys
            && |t.kernel.wire| == |s.kernel.wire|
            && Log(t.kernel.wire, Who(s, fd)) + Unsent(t.sessions[fd]) == Log(s.kernel.wire, Who(s, fd)) + Unsent(s.sessions[fd])
            && (forall u: nat :: u != Who(s, fd) ==> Log(t.kernel.wire, u) == Log(s.kernel.wire, u))
            && (forall x :: x in s.sessions && x != fd ==> t.sessions[x] == s.sessions[x])
  {
    var out := Unsent(s.sessions[fd]);
    assert out == out[..w.count] + out[w.count..];
    assert Unsent(Written(s, fd, w).sessions[fd]) == out[w.count..];
  }

  /** Losing a session, or moving its bytes about in the buffer, changes no stream. */
  lemma SameStreams(s: State, t: State)
    requires Streams(s) && t.kernel.table == s.kernel.table && t.kernel.wire == s.kernel.wire
    requires t.hist.queued == s.hist.queued && t.sessions.Keys <= s.sessions.Keys
    requires forall fd :: fd in t.sessions ==> Unsent(t.sessions[fd]) == Unsent(s.sessions[fd])
    ensures Streams(t)
  {
    hide RenderAll, AllPlain;
    forall x | x in t.sessions ensures Conserved(t, x) {
      assert Conserved(s, x);
    }
  }

  lemma DropStreams(s: State, fd: int)
    requires Streams(s)
    ensures Streams(Drop(s, fd))
  {
    hide B.Apply, Streams;
    SameStreams(s, Drop(s, fd));
  }

  lemma SettleStreams(s: State, fd: int)
    requires Tables(s) && Streams(s) && fd in s.sessions
    ensures Streams(Settle(s, fd))
  {
    hide Streams, Compact, Rearmed, Finished, Drop, Wanted, Unsent, Subscriptions, Names, Orders, Roles, Descriptors;
    var ses := Compact(s.sessions[fd]);
    CompactSame(s.sessions[fd]);
    if Finished(ses) {
      SameStreams(s, Update(s, fd, ses));
      DropStreams(Update(s, fd, ses), fd);
    } else {
      SameStreams(s, Settle(s, fd));
    }
  }

  lemma FlushStreams(s: State, fd: int)
    requires Tables(s) && Streams(s) && fd in s.sessions
    ensures Streams(Flush(s, fd))
  {
    var w := WriteOut(Pending(s.sessions[fd]), s.sends);
    WrittenStreams(s, fd, w);
    WrittenSame(s, fd, w);
    hide Streams, Settle, Written, Drop, SameMembers, Subscriptions, Names, Orders, Roles, Descriptors;
    var t := Written(s, fd, w);
    SameMembersTables(s, t);
    if w.failed {
      DropStreams(t, fd);
    } else {
      SettleStreams(t, fd);
    }
  }

  lemma SendToStreams(s: State, fd: int, r: Response)
    requires Tables(s) && Streams(s) && PlainResponse(r)
    ensures Streams(SendTo(s, fd, r))
  {
    hide Streams, Tables, Flush, Enqueue, SameMembers, PlainResponse;
    if fd in s.sessions {
      EnqueueStreams(s, fd, r);
      EnqueueSame(s, fd, r);
      SameMembersTables(s, Enqueue(s, fd, r));
      FlushStreams(Enqueue(s, fd, r), fd);
    }
  }

  // ----- bounds and interest

  lemma DropRest(s: State, fd: int)
    requires RestExcept(s, fd) && s.listener != fd && fd in s.sessions
    ensures Registered(Drop(s, fd))
  {
    hide B.Apply, Wanted, Finished;
  }

  /** A kept session wants what it is registered for, and its buffer holds at most a chunk more than its backlog. */
  lemma RearmedFits(ses: Session)
    requires !Finished(Compact(ses))
    ensures var c := Compact(ses);
            var r := Rearmed(c);
            && Interest(r.readInterest, r.writeInterest) == Wanted(r) == Wanted(c)
            && !Finished(r) && |r.outbuf| <= MAX_OUTPUT + READ_CHUNK
  {
  }

  lemma SettleRest(s: State, fd: int)
    requires RestExcept(s, fd) && fd in s.sessions && s.sessions[fd].fd == fd
    ensures Registered(Settle(s, fd))
  {
    hide Drop, Compact, Rearmed, Wanted, Finished;
    var ses := Compact(s.sessions[fd]);
    CompactSame(s.sessions[fd]);
    CompactCached(s.sessions[fd]);
    if Finished(ses) {
      assert RestExcept(Update(s, fd, ses), fd);
      DropRest(Update(s, fd, ses), fd);
    } else {
      RearmedFits(s.sessions[fd]);
    }
  }

  lemma CompactCached(ses: Session)
    ensures Compact(ses).readInterest == ses.readInterest && Compact(ses).writeInterest == ses.writeInterest
  {
  }

  lemma FlushRest(s: State, fd: int)
    requires RestExcept(s, fd) && Keyed(s) && fd in s.sessions
    ensures Registered(Flush(s, fd))
  {
    var w := WriteOut(Pending(s.sessions[fd]), s.sends);
    var t := Written(s, fd, w);
    assert RestExcept(t, fd) by {
      hide Wanted, Finished, WriteOut;
    }
    hide Drop, Settle, Written, WriteOut, RestExcept, Registered;
    assert t.sessions[fd].fd == fd && t.listener != fd;
    if w.failed {
      DropRest(t, fd);
    } else {
      SettleRest(t, fd);
    }
  }

  lemma SendToRest(s: State, fd: int, r: Response)
    requires Registered(s) && Keyed(s)
    ensures Registered(SendTo(s, fd, r))
  {
    hide Flush, Enqueue, RestExcept, Keyed;
    if fd in s.sessions {
      EnqueueRest(s, fd, r);
      FlushRest(Enqueue(s, fd, r), fd);
    }
  }

  lemma EnqueueRest(s: State, fd: int, r: Response)
    requires Registered(s) && Keyed(s) && fd in s.sessions
    ensures var t := Enqueue(s, fd, r); RestExcept(t, fd) && Keyed(t) && fd in t.sessions
  {
    hide Wanted, Finished, Render, Extend;
    var t := Enqueue(s, fd, r);
    forall x | x in t.sessions ensures if x == fd then Cached(t, x) else AtRest(t, x) {
      assert AtRest(s, x);
    }
  }

  lemma OrderlyCloseRest(s: State, fd: int)
    requires Registered(s)
    ensures Registered(BeginOrderlyClose(s, fd))
  {
    hide Drop;
    if fd in s.sessions {
      var t := Closing(s, fd);
      assert AtRest(s, fd);
      if Pending(t.sessions[fd]) == 0 {
        assert RestExcept(t, fd);
        DropRest(t, fd);
      }
    }
  }

  /** A change that leaves buffers, interest and registrations alone. */
  lemma SameRest(s: State, t: State)
    requires Registered(s) && t.loop == s.loop && t.paused == s.paused && t.listener == s.listener
    requires t.sessions.Keys == s.sessions.Keys
    requires forall fd :: fd in s.sessions ==> SameOutput(t.sessions[fd], s.sessions[fd])
    ensures Registered(t)
  {
    forall fd | fd in t.sessions ensures AtRest(t, fd) {
      assert AtRest(s, fd);
    }
  }

  predicate SameOutput(a: Session, b: Session) {
    && a.outbuf == b.outbuf && a.outStart == b.outStart && a.closing == b.closing
    && a.readInterest == b.readInterest && a.writeInterest == b.writeInterest
  }
}
