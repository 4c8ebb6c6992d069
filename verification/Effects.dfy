/** That commands, sends, reads and accepts do what they are for, and not only keep things in agreement. */
module Effects {
  import opened Sequences
  import opened Protocol
  import opened Framing
  import opened Sockets
  import opened Exchange
  import opened Loop
  import opened Invariants
  import opened Output
  import Inputs
  import opened Announcements
  import opened Safety
  import opened Lifetimes
  import opened OrderBooks
  import B = Book

  // ----- commands

  /** A login that is accepted makes the session that trader; one that is not changes nothing about the client. */
  lemma LoginTakesEffect(s: State, fd: int, cmd: ParsedCommand)
    requires Keyed(s) && fd in s.sessions && |cmd.args| == 1 && s.sessions[fd].role != MarketData
    ensures var t, name := HandleLogin(s, fd, cmd), cmd.args[0];
            fd in t.sessions ==>
              if !s.sessions[fd].loggedIn && name !in s.usernames
              then HasName(t, fd, name) && t.sessions[fd].role == Trader && t.sessions[fd].subscriptions == s.sessions[fd].subscriptions
              else SameClient(t.sessions[fd], s.sessions[fd])
  {
    hide SendTo;
    var ses, name := s.sessions[fd], cmd.args[0];
    if ses.loggedIn {
      SendToFrame(s, fd, Error(AlreadyLoggedIn(ses.username)));
    } else if name in s.usernames {
      SendToFrame(s, fd, Error(UsernameTaken(name)));
    } else {
      LoginOnward(s, fd, name);
      SendToFrame(LoggedIn(s, fd, name), fd, Ok);
    }
  }

  /** Afterwards the instrument is subscribed exactly after SUBSCRIBE, and every other subscription is as before. */
  lemma SubscriptionTakesEffect(s: State, fd: int, cmd: ParsedCommand, instrument: string)
    requires Keyed(s) && fd in s.sessions && s.sessions[fd].role != Trader
    ensures var t := HandleSubscription(s, fd, cmd);
            fd in t.sessions ==>
              && (instrument in t.sessions[fd].subscriptions <==>
                    if instrument == cmd.instrument then cmd.kind == Subscribe else instrument in s.sessions[fd].subscriptions)
              && (cmd.kind == Subscribe ==> t.sessions[fd].role == MarketData)
  {
    hide SendTo;
    if cmd.kind == Subscribe {
      SubscribedOnward(s, fd, cmd.instrument);
      SendToFrame(Subscribed(s, fd, cmd.instrument), fd, Ok);
    } else if cmd.instrument in s.sessions[fd].subscriptions {
      DepartedOnward(s, fd, cmd.instrument);
      SendToFrame(Departed(s, fd, cmd.instrument), fd, Ok);
    } else {
      SendToFrame(s, fd, Error(NotSubscribed(cmd.instrument)));
    }
  }

  /** Since these operations the book has seen only the removal of orders of sessions that are gone. */
  ghost predicate Since(ops: seq<B.Op>, t: State) {
    && ops <= t.hist.ops
    && forall k :: |ops| <= k < |t.hist.ops| ==> t.hist.ops[k].RemoveOwner? && t.hist.ops[k].owner !in t.sessions
  }

  lemma SinceChains(ops: seq<B.Op>, t: State, u: State)
    requires Since(ops, t) && Since(t.hist.ops, u) && u.sessions.Keys <= t.sessions.Keys
    ensures Since(ops, u)
  {
    forall k | |ops| <= k < |u.hist.ops| ensures u.hist.ops[k].RemoveOwner? && u.hist.ops[k].owner !in u.sessions {
      if k < |t.hist.ops| {
        assert u.hist.ops[k] == t.hist.ops[k];
      }
    }
  }

  lemma DropSince(s: State, fd: int)
    ensures Since(s.hist.ops, Drop(s, fd))
  {
    hide B.Apply;
  }

  lemma SettleSince(s: State, fd: int)
    requires fd in s.sessions && s.sessions[fd].fd == fd
    ensures Since(s.hist.ops, Settle(s, fd))
  {
    hide Drop, Compact, Rearmed, Finished, Wanted;
    DropSince(Update(s, fd, Compact(s.sessions[fd])), Compact(s.sessions[fd]).fd);
  }

  lemma SendToSince(s: State, fd: int, r: Response)
    requires Keyed(s)
    ensures Since(s.hist.ops, SendTo(s, fd, r))
  {
    hide Since, Drop, Settle, Render, WriteOut, Transmit;
    if fd in s.sessions {
      var u := Enqueue(s, fd, r);
      var t := Written(u, fd, WriteOut(Pending(u.sessions[fd]), u.sends));
      assert s.sessions[fd].fd == fd;
      DropSince(t, fd);
      SettleSince(t, fd);
    } else {
      NoneSince(s);
    }
  }

  lemma NoneSince(s: State)
    ensures Since(s.hist.ops, s)
  {
  }

  lemma ThenSendSince(ops: seq<B.Op>, s: State, fd: int, r: Response)
    requires Keyed(s) && Since(ops, s)
    ensures Since(ops, SendTo(s, fd, r)) && Keyed(SendTo(s, fd, r))
  {
    hide SendTo, Since, Keyed;
    SendToSince(s, fd, r);
    SendToOnward(s, fd, r);
    SinceChains(ops, s, SendTo(s, fd, r));
  }

  lemma {:induction false} FanOutSince(ops: seq<B.Op>, s: State, targets: seq<int>, r: Response)
    requires Keyed(s) && Since(ops, s)
    ensures Since(ops, FanOut(s, targets, r))
    decreases |targets|
  {
    hide SendTo, Since, Keyed;
    if targets != [] {
      ThenSendSince(ops, s, targets[0], r);
      FanOutSince(ops, SendTo(s, targets[0], r), targets[1..], r);
    }
  }

  lemma PublishSince(ops: seq<B.Op>, s: State, x: TradeExecution)
    requires Keyed(s) && Since(ops, s)
    ensures Since(ops, Publish(s, x))
  {
    hide SendTo, FanOut, Enumerate, Keyed;
    var t := SendTo(s, x.buyer, Bought(x.instrument, x.quantity, x.price));
    ThenSendSince(ops, s, x.buyer, Bought(x.instrument, x.quantity, x.price));
    ThenSendSince(ops, t, x.seller, Sold(x.instrument, x.quantity, x.price));
    NotifiedOnward(s, x);
    AnnounceOnward(Notified(s, x), x);
    var v := Announce(Notified(s, x), x);
    assert Since(ops, v) && Since(ops, NextHint(v));
    if x.instrument in v.subscribers {
      FanOutSince(ops, NextHint(v), Enumerate(Hint(v), v.subscribers[x.instrument]), Trade(x.instrument, x.quantity, x.price));
    }
  }

  lemma {:induction false} PublishAllSince(ops: seq<B.Op>, s: State, fd: int, xs: seq<TradeExecution>)
    requires Keyed(s) && Since(ops, s)
    ensures Since(ops, PublishAll(s, fd, xs))
    decreases |xs|
  {
    hide Publish, Since, Keyed;
    if xs != [] {
      PublishSince(ops, s, xs[0]);
      PublishOnward(s, xs[0]);
      PublishAllSince(ops, Publish(s, xs[0]), fd, xs[1..]);
    }
  }

  /**
  An accepted order enters the book once, as submitted; an accepted or refused cancel is applied once; and
  apart from that the book only loses the orders of sessions lost while answers and notices were sent.
  */
  lemma TradingReachesBook(s: State, fd: int, cmd: ParsedCommand)
    requires Keyed(s) && fd in s.sessions && TradingBar(s, fd, cmd.kind) == []
    ensures Since(s.hist.ops + [OrderOp(fd, cmd)], HandleOrder(s, fd, cmd))
    ensures Since(s.hist.ops + [B.Cancel(cmd.orderId, fd)], HandleCancel(s, fd, cmd))
  {
    hide SendTo, PublishAll, B.Apply, Executions, Keyed, TradingBar, CancelAnswer;
    var op, cancel := OrderOp(fd, cmd), B.Cancel(cmd.orderId, fd);
    SubmittedOnward(s, fd, op);
    ThenSendSince(s.hist.ops + [op], Submitted(s, fd, op), fd, OrderAccepted(s.book.nextId));
    PublishAllSince(s.hist.ops + [op], SendTo(Submitted(s, fd, op), fd, OrderAccepted(s.book.nextId)), fd,
                    Executions(B.Apply(s.book, op).fills));
    SubmittedOnward(s, fd, cancel);
    ThenSendSince(s.hist.ops + [cancel], BookStep(s, cancel), fd, CancelAnswer(s.book, fd, cmd.orderId));
  }

  // ----- sending

  /** The bytes a list of answers takes altogether. */
  function Taken(sends: seq<SendOutcome>): nat {
    if sends == [] then 0
    else Taken(sends[..|sends| - 1]) + if sends[|sends| - 1].Wrote? then sends[|sends| - 1].count else 0
  }

  predicate Progress(o: SendOutcome) {
    (o.Wrote? && o.count > 0) || o.SendInterrupted?
  }

  predicate Refusal(o: SendOutcome) {
    o.SendFailed? || o == Wrote(0)
  }

  /** A flush uses up this many answers, and takes as many bytes as they allow. */
  predicate UsesUp(pending: nat, sends: seq<SendOutcome>, used: nat) {
    var w := WriteOut(pending, sends);
    used <= |sends| && w.rest == sends[used..] && w.count == B.Min(pending, Taken(sends[..used]))
  }

  /** All but the last of them made progress, and after the last everything is written, or the socket blocks or fails. */
  predicate StopsAfter(pending: nat, sends: seq<SendOutcome>, used: nat) {
    var w := WriteOut(pending, sends);
    && used <= |sends|
    && (forall k :: 0 <= k < used - 1 ==> Progress(sends[k]))
    && (w.failed <==> used > 0 && Refusal(sends[used - 1]))
    && (!w.failed && w.count < pending ==> used == |sends| || (used > 0 && sends[used - 1].SendWouldBlock?))
  }

  /** The bytes that one answer takes of those that are pending. */
  function Advance(pending: nat, o: SendOutcome): (n: nat)
    ensures n <= pending
  {
    if o.Wrote? then B.Min(o.count, pending) else 0
  }

  lemma UsesOneMore(pending: nat, sends: seq<SendOutcome>, more: nat)
    requires pending > 0 && sends != [] && Progress(sends[0])
    requires UsesUp(pending - Advance(pending, sends[0]), sends[1..], more)
    ensures UsesUp(pending, sends, more + 1)
  {
    assert sends[..1] == [sends[0]] && [sends[0]][..0] == [];
    assert sends[..more + 1] == [sends[0]] + sends[1..][..more] && sends[more + 1..] == sends[1..][more..];
    TakenConcat([sends[0]], sends[1..][..more]);
  }

  lemma StopsOneLater(pending: nat, sends: seq<SendOutcome>, more: nat)
    requires pending > 0 && sends != [] && Progress(sends[0])
    requires StopsAfter(pending - Advance(pending, sends[0]), sends[1..], more)
    ensures StopsAfter(pending, sends, more + 1)
  {
    assert forall k :: 1 <= k < |sends| ==> sends[k] == sends[1..][k - 1];
  }

  /**
  A flush goes on as long as the socket makes progress: it uses up a prefix of the answers, takes as many
  bytes as they allow, and stops only when everything is written, the socket would block, or it fails.
  */
  lemma {:induction false} WritesWhatItCan(pending: nat, sends: seq<SendOutcome>) returns (used: nat)
    ensures UsesUp(pending, sends, used) && StopsAfter(pending, sends, used)
    decreases |sends|
  {
    hide UsesUp, StopsAfter, WriteOut;
    if pending > 0 && sends != [] && Progress(sends[0]) {
      var more := WritesWhatItCan(pending - Advance(pending, sends[0]), sends[1..]);
      UsesOneMore(pending, sends, more);
      StopsOneLater(pending, sends, more);
      used := more + 1;
    } else {
      used := if pending == 0 || sends == [] then 0 else 1;
      StopsAtOnce(pending, sends, used);
    }
  }

  lemma StopsAtOnce(pending: nat, sends: seq<SendOutcome>, used: nat)
    requires if pending == 0 || sends == [] then used == 0 else used == 1 && !Progress(sends[0])
    ensures UsesUp(pending, sends, used) && StopsAfter(pending, sends, used)
  {
    assert sends[..0] == [];
    assert used == 1 ==> sends[..1] == [sends[0]] && [sends[0]][..0] == [];
  }

  lemma {:induction false} TakenConcat(a: seq<SendOutcome>, b: seq<SendOutcome>)
    ensures Taken(a + b) == Taken(a) + Taken(b)
    decreases |b|
  {
    if b == [] {
      assert a + b == a;
    } else {
      assert (a + b)[..|a + b| - 1] == a + b[..|b| - 1];
      TakenConcat(a, b[..|b| - 1]);
    }
  }

  /** The socket does not fail on a response, not too much of it stays unwritten, and it was not the last of a closing session. */
  predicate Tolerates(ses: Session, sends: seq<SendOutcome>, r: Response) {
    var w := WriteOut(Pending(ses) + |Render(r)|, sends);
    var left := Pending(ses) + |Render(r)| - w.count;
    !w.failed && left <= MAX_OUTPUT && (left > 0 || !ses.closing)
  }

  /** The socket takes everything that is pending once a response is added. */
  predicate TakesAll(ses: Session, sends: seq<SendOutcome>, r: Response) {
    WriteOut(Pending(ses) + |Render(r)|, sends).count == Pending(ses) + |Render(r)|
  }

  /** A client is given up on exactly when its socket fails, too much stays unwritten, or it is closing and drained. */
  lemma SurvivesExactlyWhen(s: State, fd: int, r: Response)
    requires Keyed(s) && fd in s.sessions
    ensures fd in SendTo(s, fd, r).sessions <==> Tolerates(s.sessions[fd], s.sends, r)
    ensures var w := WriteOut(Pending(s.sessions[fd]) + |Render(r)|, s.sends);
            fd in SendTo(s, fd, r).sessions ==>
              Pending(SendTo(s, fd, r).sessions[fd]) == Pending(s.sessions[fd]) + |Render(r)| - w.count
  {
    hide B.Apply, Render, WriteOut, Transmit, Unsent;
    var u := Enqueue(s, fd, r);
    var w := WriteOut(Pending(u.sessions[fd]), u.sends);
    var t := Written(u, fd, w);
    assert Pending(u.sessions[fd]) == Pending(s.sessions[fd]) + |Render(r)|;
    CompactKeeps(t.sessions[fd]);
  }

  lemma CompactKeeps(ses: Session)
    ensures Pending(Compact(ses)) == Pending(ses) && Compact(ses).closing == ses.closing && Compact(ses).fd == ses.fd
  {
  }

  // ----- reading

  /** The chunks one readable event delivers: up to the first short read, the end of the stream or a refusal. */
  function Deliveries(recvs: seq<RecvOutcome>): seq<string> {
    if recvs == [] then []
    else match recvs[0]
      case Received(bytes) =>
        var chunk := Clip(bytes, READ_CHUNK);
        if bytes == "" then []
        else if |chunk| < READ_CHUNK then [chunk]
        else [chunk] + Deliveries(recvs[1..])
      case RecvInterrupted => Deliveries(recvs[1..])
      case _ => []
  }

  /** Handling lines neither receives anything nor changes what descriptors denote. */
  predicate SameReceived(s: State, t: State) {
    t.hist.chunks == s.hist.chunks && t.kernel.table == s.kernel.table && |t.kernel.wire| == |s.kernel.wire|
  }

  lemma OrderlyCloseReceived(s: State, fd: int)
    ensures SameReceived(s, BeginOrderlyClose(s, fd))
  {
    hide Drop;
    if fd in s.sessions {
      DropFrame(Closing(s, fd), fd);
    }
  }

  lemma HandleMessageReceived(s: State, fd: int, line: string)
    requires Keyed(s) && fd in s.sessions
    ensures SameReceived(s, HandleMessage(s, fd, line))
  {
    hide Keyed, Parse, HandleLogin, HandleSubscription, HandleOrder, HandleCancel, BeginOrderlyClose, SendTo;
    HandleMessageOnward(s, fd, line);
    ParseWellParsed(line);
    OrderlyCloseReceived(s, fd);
  }

  lemma {:induction false} ConsumeReceived(s: State, fd: int)
    requires Keyed(s)
    ensures SameReceived(s, ConsumeMessages(s, fd).state)
    decreases if fd in s.sessions then |s.sessions[fd].inbuf| else 0
  {
    hide Keyed, HandleMessage, BeginOrderlyClose, SendTo, Newline;
    if fd in s.sessions {
      var inbuf := s.sessions[fd].inbuf;
      if Newline(inbuf) == |inbuf| {
        SendToOnward(s, fd, Error(LineTooLong));
        OrderlyCloseReceived(Refuse(s, fd, LineTooLong), fd);
      } else {
        var t, line := TakeLine(s, fd), FirstLine(inbuf);
        TakeLineKeyed(s, fd);
        HandleMessageOnward(t, fd, line);
        HandleMessageReceived(t, fd, line);
        var u := HandleMessage(t, fd, line);
        if fd in u.sessions && !u.sessions[fd].closing {
          ConsumeReceived(u, fd);
        }
      }
    }
  }

  /** From s to t, the connection behind fd received a prefix of these chunks, and all of them if it reads on. */
  predicate Took(s: State, t: State, fd: int, chunks: seq<string>) {
    && Who(t, fd) == Who(s, fd)
    && Log(s.hist.chunks, Who(s, fd)) <= Log(t.hist.chunks, Who(s, fd)) <= Log(s.hist.chunks, Who(s, fd)) + chunks
    && (fd in t.sessions && !t.sessions[fd].closing ==>
          Log(t.hist.chunks, Who(s, fd)) == Log(s.hist.chunks, Who(s, fd)) + chunks)
  }

  lemma TookNothing(s: State, t: State, fd: int, chunks: seq<string>)
    requires SameReceived(s, t) && (chunks == [] || fd !in t.sessions || t.sessions[fd].closing)
    ensures Took(s, t, fd, chunks)
  {
    assert Log(s.hist.chunks, Who(s, fd)) + [] == Log(s.hist.chunks, Who(s, fd));
  }

  lemma TookFirst(s: State, t: State, u: State, fd: int, chunk: string, more: seq<string>)
    requires fd in s.sessions && t == Receive(s, fd, chunk) && Who(s, fd) < |s.hist.chunks|
    requires Took(t, u, fd, more)
    ensures Took(s, u, fd, [chunk] + more)
  {
    var log := s.hist.chunks[Who(s, fd)];
    assert log + [chunk] + more == log + ([chunk] + more);
  }

  /** A readable event loses nothing the socket delivers, as long as the session lives and is not closing. */
  lemma {:induction false} NothingReceivedIsLost(s: State, fd: int, recvs: seq<RecvOutcome>)
    requires Keyed(s) && fd in s.sessions && !s.sessions[fd].closing && Who(s, fd) < |s.hist.chunks|
    ensures Took(s, OnReadable(s, fd, recvs), fd, Deliveries(recvs))
    decreases |recvs|
  {
    hide ConsumeMessages, BeginOrderlyClose, Drop, Receive, Keyed, Took;
    if recvs == [] {
      TookNothing(s, s, fd, []);
    } else {
      match recvs[0] {
        case Received(bytes) =>
          if bytes == "" {
            OrderlyCloseReceived(s, fd);
            TookNothing(s, BeginOrderlyClose(s, fd), fd, []);
          } else {
            ReadChunk(s, fd, recvs);
          }
        case RecvInterrupted => NothingReceivedIsLost(s, fd, recvs[1..]);
        case RecvWouldBlock => TookNothing(s, s, fd, []);
        case RecvFailed =>
          DropFrame(s, fd);
          TookNothing(s, Drop(s, fd), fd, []);
      }
    }
  }

  lemma {:induction false} ReadChunk(s: State, fd: int, recvs: seq<RecvOutcome>)
    requires Keyed(s) && fd in s.sessions && !s.sessions[fd].closing && Who(s, fd) < |s.hist.chunks|
    requires recvs != [] && recvs[0].Received? && recvs[0].bytes != ""
    ensures Took(s, OnReadable(s, fd, recvs), fd, Deliveries(recvs))
    decreases |recvs|, 0
  {
    hide ConsumeMessages, BeginOrderlyClose, Drop, Keyed, Took;
    var chunk := Clip(recvs[0].bytes, READ_CHUNK);
    var t := Receive(s, fd, chunk);
    ReceiveFaithful(s, fd, chunk);
    ConsumeReceived(t, fd);
    var c := ConsumeMessages(t, fd);
    var u, more := c.state, if |chunk| < READ_CHUNK then [] else Deliveries(recvs[1..]);
    assert [chunk] + [] == [chunk];
    if fd !in u.sessions || u.sessions[fd].closing || |chunk| < READ_CHUNK {
      StopsReading(u, fd, recvs[1..]);
      TookNothing(t, u, fd, more);
      TookFirst(s, t, u, fd, chunk, more);
    } else {
      MoreToRead(t, fd);
      NothingReceivedIsLost(u, fd, recvs[1..]);
      TookOn(t, u, OnReadable(u, fd, recvs[1..]), fd, more);
      TookFirst(s, t, OnReadable(u, fd, recvs[1..]), fd, chunk, more);
    }
  }

  lemma StopsReading(s: State, fd: int, recvs: seq<RecvOutcome>)
    requires Keyed(s)
    ensures fd !in s.sessions || s.sessions[fd].closing ==> OnReadable(s, fd, recvs) == s
  {
  }

  lemma TookOn(t: State, u: State, v: State, fd: int, more: seq<string>)
    requires SameReceived(t, u) && Took(u, v, fd, more)
    ensures Took(t, v, fd, more)
  {
  }

  /** A session left reading is one the buffer of which has been dealt with. */
  lemma {:induction false} MoreToRead(s: State, fd: int)
    requires Keyed(s)
    ensures var c := ConsumeMessages(s, fd);
            fd in c.state.sessions && !c.state.sessions[fd].closing ==> c.more
    decreases if fd in s.sessions then |s.sessions[fd].inbuf| else 0
  {
    hide Keyed, HandleMessage, SendTo, Newline, Drop;
    if fd in s.sessions {
      var inbuf := s.sessions[fd].inbuf;
      if Newline(inbuf) == |inbuf| {
        SendToOnward(s, fd, Error(LineTooLong));
        OrderlyCloseKeyed(Refuse(s, fd, LineTooLong), fd);
        hide BeginOrderlyClose;
      } else {
        hide BeginOrderlyClose;
        var t, line := TakeLine(s, fd), FirstLine(inbuf);
        TakeLineKeyed(s, fd);
        HandleMessageOnward(t, fd, line);
        var u := HandleMessage(t, fd, line);
        if fd in u.sessions && !u.sessions[fd].closing {
          MoreToRead(u, fd);
        }
      }
    }
  }

  /**
  Documented as telling whether the session is still there; it tells that, except when it gives up on an
  unfinished line, which it does exactly when framing the buffer overflows.
  */
  lemma {:induction false} ConsumeReturns(s: State, fd: int)
    requires Sound(s) && Inputs.InputExcept(s, fd) && Keyed(s) && fd in s.sessions
    ensures var c := ConsumeMessages(s, fd);
            c.more <==> fd in c.state.sessions && !Drain(s.sessions[fd].inbuf).input.Overflow?
    decreases |s.sessions[fd].inbuf|
  {
    hide Sound, Inputs.InputExcept, Inputs.Ended, HandleMessage, SendTo, BeginOrderlyClose, IsQuit, Tables, Keyed, Newline, Onward;
    SoundBasics(s);
    var inbuf := s.sessions[fd].inbuf;
    if Newline(inbuf) != |inbuf| {
      var t, line := TakeLine(s, fd), FirstLine(inbuf);
      TakeLineSound(s, fd);
      Inputs.TakeLineInput(s, fd);
      SoundBasics(t);
      HandleMessageOnward(t, fd, line);
      if IsQuit(line) {
        QuitInvariant(t, fd, line);
        OrderlyCloseKeyed(t, fd);
      } else {
        LineSound(t, fd, line);
        var u := HandleMessage(t, fd, line);
        if fd in u.sessions {
          ConsumeReturns(u, fd);
        }
      }
    }
  }

  // ----- accepting

  /** Accepting leaves the sessions there are, and their registrations, alone. */
  lemma {:induction false} AcceptLeaves(s: State, accepts: seq<AcceptOutcome>, x: int)
    requires x in s.sessions && x in s.kernel.table && x != s.listener
    ensures var t := AcceptPending(s, accepts);
            && x in t.sessions && t.sessions[x] == s.sessions[x] && x in t.kernel.table && Who(t, x) == Who(s, x)
            && (x in s.loop ==> x in t.loop && t.loop[x] == s.loop[x])
    decreases |accepts|
  {
    if accepts != [] && accepts[0].Connected? {
      var fd := accepts[0].fd;
      var t := Admit(s, fd);
      if fd >= 0 && fd != s.listener && fd !in s.kernel.table {
        AcceptLeaves(t.(loop := t.loop[fd := Interest(true, false)]), accepts[1..], x);
        AcceptLeaves(t.(sessions := t.sessions - {fd}, kernel := Close(t.kernel, fd)), accepts[1..], x);
      }
    }
  }

  /** A connection that is accepted and registered has a fresh session, registered for reading, and a number of its own. */
  lemma AcceptAdmits(s: State, fd: int, rest: seq<AcceptOutcome>)
    requires Descriptors(s) && fd >= 0 && Admissible(s, fd)
    ensures var t := AcceptPending(s, [Connected(fd, true)] + rest);
            && fd in t.sessions && t.sessions[fd] == NewSession(fd) && Who(t, fd) == |s.kernel.wire|
            && fd in t.loop && t.loop[fd] == Interest(true, false)
  {
    var accepts, u := [Connected(fd, true)] + rest, Admitted(s, fd);
    assert accepts[0] == Connected(fd, true) && accepts[1..] == rest;
    assert AcceptPending(s, accepts) == AcceptPending(u, rest);
    hide AcceptPending;
    AcceptLeaves(u, rest, fd);
  }

  // ----- closing

  /** The connection's socket has been handed everything it was ever queued. */
  predicate Delivered(s: State, w: nat) {
    Log(s.kernel.wire, w) == RenderAll(Log(s.hist.queued, w))
  }

  /** A session that starts closing is dropped exactly when everything it was queued has been written. */
  lemma OrderlyCloseDelivers(s: State, fd: int)
    requires Streams(s) && fd in s.sessions
    ensures var t := BeginOrderlyClose(s, fd);
            && (fd in t.sessions <==> Pending(s.sessions[fd]) > 0)
            && (fd !in t.sessions ==> Delivered(t, Who(s, fd)))
  {
    hide Drop, RenderAll, PlainResponse;
    assert Conserved(s, fd);
    DropFrame(Closing(s, fd), fd);
    if Pending(s.sessions[fd]) == 0 {
      assert Log(s.kernel.wire, Who(s, fd)) + "" == Log(s.kernel.wire, Who(s, fd));
      DropOutput(Closing(s, fd), fd);
    }
  }

  lemma DropOutput(s: State, fd: int)
    ensures var t := Drop(s, fd); t.kernel == s.kernel && t.hist.queued == s.hist.queued && fd !in t.sessions
  {
    hide B.Apply;
  }

  lemma WrittenDelivers(s: State, fd: int, w: Writing)
    requires Tables(s) && Streams(s) && fd in s.sessions
    requires w == WriteOut(Pending(s.sessions[fd]), s.sends) && w.count == Pending(s.sessions[fd])
    ensures var t := Written(s, fd, w);
            && fd in t.sessions && t.sessions[fd].fd == s.sessions[fd].fd
            && Delivered(t, Who(s, fd))
  {
    hide WriteOut, RenderAll, Tables;
    var t := Written(s, fd, w);
    WrittenStreams(s, fd, w);
    TablesApart(s);
    WrittenFrame(s, fd, w);
    assert Conserved(t, fd) && Unsent(t.sessions[fd]) == "";
    assert Log(t.kernel.wire, Who(t, fd)) + "" == Log(t.kernel.wire, Who(t, fd));
  }

  /** A flush that writes everything has delivered everything, whether or not it then finishes a closing session. */
  lemma DrainedIsDelivered(s: State, fd: int)
    requires Tables(s) && Streams(s) && fd in s.sessions
    requires WriteOut(Pending(s.sessions[fd]), s.sends).count == Pending(s.sessions[fd])
    ensures Delivered(Flush(s, fd), Who(s, fd))
  {
    hide Tables, Streams, RenderAll, Drop, Compact, Rearmed, Finished, Written, WriteOut;
    var w := WriteOut(Pending(s.sessions[fd]), s.sends);
    var t := Written(s, fd, w);
    WrittenDelivers(s, fd, w);
    DropOutput(t, s.sessions[fd].fd);
    DropOutput(Update(t, fd, Compact(t.sessions[fd])), Compact(t.sessions[fd]).fd);
  }

  /**
  A peer whose unfinished line is too long is told so once, and is closing or gone: it stays exactly when its
  socket tolerates the refusal without taking all of it.
  */
  lemma OversizeIsRefused(s: State, fd: int)
    requires Tables(s) && fd in s.sessions && fd in s.kernel.table
    requires var inbuf := s.sessions[fd].inbuf; Newline(inbuf) == |inbuf| > MAX_LINE
    ensures Keyed(s)
    ensures var c := ConsumeMessages(s, fd);
            && !c.more && Mailed(s, c.state, fd, [Error(LineTooLong)])
            && (fd in c.state.sessions ==> c.state.sessions[fd].closing)
            && (fd in c.state.sessions <==>
                  Tolerates(s.sessions[fd], s.sends, Error(LineTooLong)) && !TakesAll(s.sessions[fd], s.sends, Error(LineTooLong)))
  {
    hide SendTo, Drop, Newline, Tables, Apart, Render, WriteOut, Tolerates;
    assert Keyed(s) by { TablesKeyed(s); }
    var t := Refuse(s, fd, LineTooLong);
    TablesApart(s);
    SendToMail(s, fd, Error(LineTooLong), fd);
    SendToOnward(s, fd, Error(LineTooLong));
    SurvivesExactlyWhen(s, fd, Error(LineTooLong));
    OrderlyCloseKeyed(t, fd);
    if fd in t.sessions {
      DropOutput(Closing(t, fd), fd);
    }
  }

  lemma TablesKeyed(s: State)
    requires Tables(s)
    ensures Keyed(s)
  {
  }

  /** Any order of an unordered set is one the model walks it in. */
  lemma {:induction false} EveryOrderIsWalked(order: seq<int>, xs: set<int>)
    requires Distinct(order) && forall x :: x in order <==> x in xs
    ensures Enumerate(order, xs) == order
    decreases |order|
  {
    if order == [] {
      SomeKey(xs);
    } else {
      var x, rest := order[0], order[1..];
      assert x in order && order == [x] + rest;
      forall y ensures y in rest <==> y in xs - {x} {
        assert y in order <==> y == x || y in rest;
      }
      EveryOrderIsWalked(rest, xs - {x});
    }
  }
}
