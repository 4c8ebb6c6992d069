/** The input side: what a session has handled is what framing makes of the chunks it received. */
module Inputs {
  import opened Framing
  import opened Exchange
  import opened Loop
  import opened Invariants
  import opened Output

  /** What framing makes of everything a connection has received. */
  function FramedInput(s: State, w: nat): Framed {
    Feed("", Log(s.hist.chunks, w))
  }

  /** Between reads: every line is handled, and the rest is in the buffer unless the session is closing. */
  predicate Settled(s: State, fd: int)
    requires fd in s.sessions
  {
    var ses, f, lines := s.sessions[fd], FramedInput(s, Who(s, fd)), Log(s.hist.handled, Who(s, fd));
    if ses.closing then ses.inbuf == "" && f.lines == lines else f == Framed(lines, Open(ses.inbuf))
  }

  /** While a read is being consumed: handling the buffer will handle the rest. */
  predicate Underway(s: State, fd: int)
    requires fd in s.sessions
  {
    && !s.sessions[fd].closing
    && FramedInput(s, Who(s, fd)) == After(Log(s.hist.handled, Who(s, fd)), Drain(s.sessions[fd].inbuf))
  }

  /** Every session is settled, except possibly the one being read; no connection handled anything it did not receive. */
  ghost predicate InputExcept(s: State, busy: int) {
    && (forall fd :: fd in s.sessions ==> if fd == busy then Underway(s, fd) else Settled(s, fd))
    && (forall w: nat :: Log(s.hist.handled, w) <= FramedInput(s, w).lines)
  }

  ghost predicate InputSettled(s: State) {
    InputExcept(s, s.listener)
  }

  /** Nothing that leaves the input side alone matters here. */
  lemma OnwardInput(s: State, t: State, busy: int)
    requires InputExcept(s, busy) && Onward(s, t)
    ensures InputExcept(t, busy)
  {
    hide Feed, Drain;
    forall fd | fd in t.sessions ensures if fd == busy then Underway(t, fd) else Settled(t, fd) {
      assert if fd == busy then Underway(s, fd) else Settled(s, fd);
    }
  }

  lemma {:induction false} FeedAppend(buffer: string, chunks: seq<string>, c: string)
    ensures var f := Feed(buffer, chunks);
            Feed(buffer, chunks + [c]) == if f.input.Open? then After(f.lines, Drain(f.input.buffer + c)) else f
    decreases |chunks|
  {
    hide Drain;
    if chunks == [] {
      assert [c][1..] == [];
      var d := Drain(buffer + c);
      assert [] + d.lines == d.lines && d.lines + [] == d.lines;
    } else {
      assert (chunks + [c])[1..] == chunks[1..] + [c];
      var d := Drain(buffer + chunks[0]);
      if d.input.Open? {
        FeedAppend(d.input.buffer, chunks[1..], c);
        var f := Feed(d.input.buffer, chunks[1..]);
        if f.input.Open? {
          var e := Drain(f.input.buffer + c);
          assert d.lines + (f.lines + e.lines) == (d.lines + f.lines) + e.lines;
        }
      }
    }
  }

  lemma ReceiveInput(s: State, fd: int, bytes: string)
    requires Tables(s) && InputSettled(s) && fd in s.sessions && !s.sessions[fd].closing
    ensures InputExcept(Receive(s, fd, bytes), fd)
  {
    hide Feed, Drain, Subscriptions, Names, Orders, Roles;
    var t, w := Receive(s, fd, bytes), Who(s, fd);
    assert Settled(s, fd);
    FeedAppend("", s.hist.chunks[w], bytes);
    forall x | x in t.sessions && x != fd ensures Settled(t, x) {
      assert Settled(s, x);
    }
    forall v: nat ensures Log(t.hist.handled, v) <= FramedInput(t, v).lines {
      assert Log(s.hist.handled, v) <= FramedInput(s, v).lines;
    }
  }

  /** Taking a line off the buffer moves it from what is to be handled to what was. */
  lemma TakeLineInput(s: State, fd: int)
    requires Tables(s) && InputExcept(s, fd) && fd in s.sessions
    requires Newline(s.sessions[fd].inbuf) < |s.sessions[fd].inbuf|
    ensures var t, line := TakeLine(s, fd), FirstLine(s.sessions[fd].inbuf);
            if IsQuit(line) then Ended(t, fd) else InputExcept(t, fd)
  {
    hide Feed, IsQuit, Newline, Subscriptions, Names, Orders, Roles;
    var t, w, line := TakeLine(s, fd), Who(s, fd), FirstLine(s.sessions[fd].inbuf);
    assert Underway(s, fd);
    var f, d := FramedInput(s, w), Drain(s.sessions[fd].inbuf);
    assert t.hist.handled[w] == s.hist.handled[w] + [line];
    if !IsQuit(line) {
      var e := Drain(AfterLine(s.sessions[fd].inbuf));
      assert s.hist.handled[w] + ([line] + e.lines) == (s.hist.handled[w] + [line]) + e.lines;
    }
    forall x | x in t.sessions && x != fd ensures Settled(t, x) {
      assert Settled(s, x);
    }
    forall v: nat ensures Log(t.hist.handled, v) <= FramedInput(t, v).lines {
      assert Log(s.hist.handled, v) <= FramedInput(s, v).lines;
    }
  }

  /** A session that will handle no more lines has handled all there are. */
  ghost predicate Ended(s: State, fd: int) {
    && (forall x :: x in s.sessions && x != fd ==> Settled(s, x))
    && (forall w: nat :: Log(s.hist.handled, w) <= FramedInput(s, w).lines)
    && Log(s.hist.handled, Who(s, fd)) == FramedInput(s, Who(s, fd)).lines
  }

  lemma OnwardEnded(s: State, t: State, fd: int)
    requires Ended(s, fd) && Onward(s, t)
    ensures Ended(t, fd)
  {
    hide Feed;
    forall x | x in t.sessions && x != fd ensures Settled(t, x) {
      assert Settled(s, x);
    }
  }

  lemma ClosingInput(s: State, fd: int)
    requires Ended(s, fd) && s.listener !in s.sessions && fd in s.sessions
    ensures InputSettled(Closing(s, fd))
  {
    hide Feed;
    var t := Closing(s, fd);
    forall x | x in t.sessions ensures Settled(t, x) {
      assert x != fd ==> Settled(s, x);
    }
  }

  lemma OrderlyCloseInput(s: State, fd: int)
    requires Ended(s, fd) && s.listener !in s.sessions
    ensures InputSettled(BeginOrderlyClose(s, fd))
  {
    hide Feed, BeginOrderlyClose, Onward;
    if fd in s.sessions {
      ClosingInput(s, fd);
      OrderlyCloseOnward(s, fd);
      OnwardInput(Closing(s, fd), BeginOrderlyClose(s, fd), s.listener);
    } else {
      assert BeginOrderlyClose(s, fd) == s by { NoSession(s, fd); }
      assert forall x :: x in s.sessions ==> Settled(s, x);
    }
  }

  lemma NoSession(s: State, fd: int)
    requires fd !in s.sessions
    ensures BeginOrderlyClose(s, fd) == s
  {
  }

  /** A buffer without a newline has been dealt with, unless it is too long. */
  lemma NothingLeft(s: State, fd: int)
    requires InputExcept(s, fd) && fd in s.sessions && s.listener !in s.sessions
    requires var inbuf := s.sessions[fd].inbuf; Newline(inbuf) == |inbuf|
    ensures if |s.sessions[fd].inbuf| <= MAX_LINE then InputSettled(s) else Ended(s, fd)
  {
    hide Feed, Newline;
    var lines := Log(s.hist.handled, Who(s, fd));
    assert Underway(s, fd) && lines + [] == lines;
  }

  lemma LostSession(s: State, fd: int)
    requires InputExcept(s, fd) && fd !in s.sessions && s.listener !in s.sessions
    ensures InputSettled(s)
  {
    hide Feed;
  }

  /** From a settled session nothing is left to handle either. */
  lemma SettledEnds(s: State, fd: int)
    requires InputSettled(s) && fd in s.sessions && s.listener !in s.sessions
    ensures Ended(s, fd)
  {
    hide Feed;
    assert Settled(s, fd);
  }
}
