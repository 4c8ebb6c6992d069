/** The event loop of the exchange server: reading, framing, and whole runs. */
module Loop {
  import opened Protocol
  import opened Framing
  import opened Sockets
  import opened Exchange
  import B = Book
  import OrderBooks

  // ----- what handling a message can disturb

  /** Nothing announced and nothing queued is ever taken back. */
  ghost predicate Grows(s: State, t: State) {
    && s.hist.tape <= t.hist.tape && |s.hist.queued| <= |t.hist.queued|
    && forall w :: 0 <= w < |s.hist.queued| ==> s.hist.queued[w] <= t.hist.queued[w]
  }

  /** Connections may be lost and output may grow; of what is left, the input side is untouched and roles stay. */
  ghost predicate Onward(s: State, t: State) {
    && t.listener == s.listener && t.paused == s.paused
    && t.kernel.table == s.kernel.table && t.kernel.closed == s.kernel.closed
    && t.hist.chunks == s.hist.chunks && t.hist.handled == s.hist.handled
    && |t.kernel.wire| == |s.kernel.wire| && |t.hist.queued| == |s.hist.queued|
    && Grows(s, t)
    && t.sessions.Keys <= s.sessions.Keys
    && (forall x :: x in t.sessions ==> Reads(s.sessions[x], t.sessions[x]))
  }

  predicate Reads(a: Session, b: Session) {
    a.fd == b.fd && a.closing == b.closing && a.inbuf == b.inbuf && RoleKept(a, b)
  }

  /** A role, once decided, and a username, once taken, stay. */
  predicate RoleKept(a: Session, b: Session) {
    && (a.role != Undecided ==> b.role == a.role)
    && (a.loggedIn ==> b.loggedIn && b.username == a.username)
  }

  lemma OnwardChains(s: State, t: State, u: State)
    requires Onward(s, t) && Onward(t, u)
    ensures Onward(s, u)
  {
  }

  lemma SendToOnward(s: State, fd: int, r: Response)
    requires Keyed(s)
    ensures Onward(s, SendTo(s, fd, r)) && Keyed(SendTo(s, fd, r))
  {
    hide SendTo;
    SendToFrame(s, fd, r);
  }

  lemma {:induction false} FanOutOnward(s: State, targets: seq<int>, r: Response)
    requires Keyed(s)
    ensures Onward(s, FanOut(s, targets, r)) && Keyed(FanOut(s, targets, r))
    decreases |targets|
  {
    hide SendTo, Onward, Keyed;
    if targets == [] {
      OnwardSelf(s);
    } else {
      var t := SendTo(s, targets[0], r);
      SendToOnward(s, targets[0], r);
      FanOutOnward(t, targets[1..], r);
      OnwardChains(s, t, FanOut(s, targets, r));
    }
  }

  lemma OnwardSelf(s: State)
    ensures Onward(s, s)
  {
  }

  lemma NotifiedOnward(s: State, x: OrderBooks.TradeExecution)
    requires Keyed(s)
    ensures Onward(s, Notified(s, x)) && Keyed(Notified(s, x))
  {
    hide SendTo, Onward, Keyed;
    var t := SendTo(s, x.buyer, Bought(x.instrument, x.quantity, x.price));
    SendToOnward(s, x.buyer, Bought(x.instrument, x.quantity, x.price));
    SendToOnward(t, x.seller, Sold(x.instrument, x.quantity, x.price));
    OnwardChains(s, t, Notified(s, x));
  }

  lemma AnnounceOnward(s: State, x: OrderBooks.TradeExecution)
    requires Keyed(s)
    ensures var t := Announce(s, x);
            Onward(s, t) && Keyed(t) && Onward(t, NextHint(t)) && Keyed(NextHint(t))
  {
  }

  lemma SpreadOnward(s: State, x: OrderBooks.TradeExecution)
    requires Keyed(s) && Onward(s, NextHint(s)) && Keyed(NextHint(s))
    ensures Onward(s, Spread(s, x)) && Keyed(Spread(s, x))
  {
    hide Onward, Keyed, FanOut, Enumerate, NextHint;
    OnwardSelf(s);
    if x.instrument in s.subscribers {
      FanOutOnward(NextHint(s), Enumerate(Hint(s), s.subscribers[x.instrument]), Trade(x.instrument, x.quantity, x.price));
      OnwardChains(s, NextHint(s), Spread(s, x));
    }
  }

  lemma PublishOnward(s: State, x: OrderBooks.TradeExecution)
    requires Keyed(s)
    ensures Onward(s, Publish(s, x)) && Keyed(Publish(s, x))
  {
    hide Notified, Announce, Spread, Onward, Keyed;
    var u := Notified(s, x);
    NotifiedOnward(s, x);
    AnnounceOnward(u, x);
    SpreadOnward(Announce(u, x), x);
    OnwardChains(s, u, Announce(u, x));
    OnwardChains(s, Announce(u, x), Publish(s, x));
  }

  lemma {:induction false} PublishAllOnward(s: State, fd: int, executions: seq<OrderBooks.TradeExecution>)
    requires Keyed(s)
    ensures var t := PublishAll(s, fd, executions); Onward(s, t) && Keyed(t)
    decreases |executions|
  {
    hide Publish, Onward, Keyed;
    if executions == [] {
      OnwardSelf(s);
    } else {
      var t := Publish(s, executions[0]);
      PublishOnward(s, executions[0]);
      PublishAllOnward(t, fd, executions[1..]);
      OnwardChains(s, t, PublishAll(t, fd, executions[1..]));
    }
  }

  lemma DropOnward(s: State, fd: int)
    requires Keyed(s)
    ensures Onward(s, Drop(s, fd)) && Keyed(Drop(s, fd))
  {
    hide Drop;
    DropFrame(s, fd);
  }

  lemma OrderlyCloseOnward(s: State, fd: int)
    requires fd in s.sessions
    ensures Onward(Closing(s, fd), BeginOrderlyClose(s, fd)) && BeginOrderlyClose(s, fd).listener == s.listener
  {
    hide Drop;
    DropFrame(Closing(s, fd), fd);
  }

  lemma OrderlyCloseKeyed(s: State, fd: int)
    requires Keyed(s)
    ensures var t := BeginOrderlyClose(s, fd); Keyed(t) && (fd in t.sessions ==> t.sessions[fd].closing)
  {
    hide B.Apply;
  }

  /** A change to the server's own tables, followed by a response. */
  lemma ThenSend(s: State, t: State, fd: int, r: Response)
    requires Onward(s, t) && Keyed(t)
    ensures Onward(s, SendTo(t, fd, r)) && Keyed(SendTo(t, fd, r))
  {
    hide Onward, Keyed, SendTo;
    SendToOnward(t, fd, r);
    OnwardChains(s, t, SendTo(t, fd, r));
  }

  lemma LoginOnward(s: State, fd: int, name: string)
    requires fd in s.sessions && Keyed(s) && !WrongRole(s, fd, Trader) && !s.sessions[fd].loggedIn
    ensures Onward(s, LoggedIn(s, fd, name)) && Keyed(LoggedIn(s, fd, name))
  {
  }

  lemma SubscribedOnward(s: State, fd: int, name: string)
    requires fd in s.sessions && Keyed(s) && !WrongRole(s, fd, MarketData)
    ensures Onward(s, Subscribed(s, fd, name)) && Keyed(Subscribed(s, fd, name))
  {
  }

  lemma DepartedOnward(s: State, fd: int, name: string)
    requires fd in s.sessions && Keyed(s) && !WrongRole(s, fd, MarketData)
    ensures Onward(s, Departed(s, fd, name)) && Keyed(Departed(s, fd, name))
  {
  }

  lemma SubmittedOnward(s: State, fd: int, op: B.Op)
    requires Keyed(s)
    ensures Onward(s, Submitted(s, fd, op)) && Keyed(Submitted(s, fd, op))
    ensures Onward(s, BookStep(s, op)) && Keyed(BookStep(s, op))
  {
    hide B.Apply;
  }

  lemma HandleOrderOnward(s: State, fd: int, cmd: ParsedCommand)
    requires fd in s.sessions && Keyed(s)
    ensures var t := HandleOrder(s, fd, cmd); Onward(s, t) && Keyed(t)
  {
    hide Onward, Keyed, SendTo, PublishAll, Submitted, B.Apply, OrderBooks.Executions, TradingBar;
    var bar := TradingBar(s, fd, cmd.kind);
    OnwardSelf(s);
    if bar != [] {
      ThenSend(s, s, fd, Error(bar[0]));
    } else {
      var op := OrderOp(fd, cmd);
      var t := SendTo(Submitted(s, fd, op), fd, OrderAccepted(s.book.nextId));
      SubmittedOnward(s, fd, op);
      ThenSend(s, Submitted(s, fd, op), fd, OrderAccepted(s.book.nextId));
      PublishAllOnward(t, fd, OrderBooks.Executions(B.Apply(s.book, op).fills));
      OnwardChains(s, t, HandleOrder(s, fd, cmd));
    }
  }

  lemma HandleCommandOnward(s: State, fd: int, cmd: ParsedCommand)
    requires fd in s.sessions && Keyed(s) && WellParsed(cmd) && !(cmd.valid && cmd.kind == Quit)
    ensures var t := HandleCommand(s, fd, cmd); Onward(s, t) && Keyed(t)
  {
    hide Onward, Keyed, SendTo, HandleOrder, BeginOrderlyClose, LoggedIn, Subscribed, Departed, BookStep, CancelAnswer,
         TradingBar;
    OnwardSelf(s);
    forall r ensures Onward(s, SendTo(s, fd, r)) && Keyed(SendTo(s, fd, r)) {
      ThenSend(s, s, fd, r);
    }
    if cmd.valid {
      match cmd.kind {
        case Login =>
          if !WrongRole(s, fd, Trader) && !s.sessions[fd].loggedIn {
            LoginOnward(s, fd, cmd.args[0]);
            ThenSend(s, LoggedIn(s, fd, cmd.args[0]), fd, Ok);
          }
        case Subscribe =>
          if !WrongRole(s, fd, MarketData) {
            SubscribedOnward(s, fd, cmd.instrument);
            ThenSend(s, Subscribed(s, fd, cmd.instrument), fd, Ok);
          }
        case Unsubscribe =>
          if !WrongRole(s, fd, MarketData) {
            DepartedOnward(s, fd, cmd.instrument);
            ThenSend(s, Departed(s, fd, cmd.instrument), fd, Ok);
          }
        case CancelCommand =>
          SubmittedOnward(s, fd, B.Cancel(cmd.orderId, fd));
          ThenSend(s, BookStep(s, B.Cancel(cmd.orderId, fd)), fd, CancelAnswer(s.book, fd, cmd.orderId));
        case _ => HandleOrderOnward(s, fd, cmd);
      }
    }
  }

  // ----- input path

  function Receive(s: State, fd: int, bytes: string): State
    requires fd in s.sessions
  {
    var ses := s.sessions[fd];
    Update(s, fd, ses.(inbuf := ses.inbuf + bytes)).(hist := s.hist.(chunks := Extend(s.hist.chunks, Who(s, fd), [bytes])))
  }

  function TakeLine(s: State, fd: int): State
    requires fd in s.sessions && Newline(s.sessions[fd].inbuf) < |s.sessions[fd].inbuf|
  {
    var ses := s.sessions[fd];
    Update(s, fd, ses.(inbuf := AfterLine(ses.inbuf)))
      .(hist := s.hist.(handled := Extend(s.hist.handled, Who(s, fd), [FirstLine(ses.inbuf)])))
  }

  datatype Consumed = Consumed(state: State, more: bool)

  /** Handles every complete line of a session's buffer, unless a line ends the session. */
  function ConsumeMessages(s: State, fd: int): (c: Consumed)
    requires Keyed(s)
    ensures Keyed(c.state)
    decreases if fd in s.sessions then |s.sessions[fd].inbuf| else 0
  {
    if fd !in s.sessions then Consumed(s, false)
    else
      var inbuf := s.sessions[fd].inbuf;
      if Newline(inbuf) == |inbuf| then
        if |inbuf| > MAX_LINE then
          SendToOnward(s, fd, Error(LineTooLong));
          OrderlyCloseKeyed(Refuse(s, fd, LineTooLong), fd);
          Consumed(BeginOrderlyClose(Refuse(s, fd, LineTooLong), fd), false)
        else Consumed(s, true)
      else
        var t := TakeLine(s, fd);
        var u := HandleMessage(t, fd, FirstLine(inbuf));
        HandleMessageOnward(t, fd, FirstLine(inbuf));
        if fd !in u.sessions then Consumed(u, false)
        else if u.sessions[fd].closing then Consumed(u, true)
        else
          ConsumeMessages(u, fd)
  }

  /** A line leaves what is left of its own buffer alone, unless it ends the session. */
  lemma HandleMessageOnward(s: State, fd: int, line: string)
    requires fd in s.sessions && Keyed(s)
    ensures var t := HandleMessage(s, fd, line);
            && Keyed(t) && (!IsQuit(line) ==> Onward(s, t))
            && (fd in t.sessions && !t.sessions[fd].closing ==> t.sessions[fd].inbuf == s.sessions[fd].inbuf)
  {
    hide Keyed, Parse, HandleOrder, HandleLogin, HandleSubscription, HandleCancel, BeginOrderlyClose;
    ParseWellParsed(line);
    if IsQuit(line) {
      OrderlyCloseKeyed(s, fd);
    } else {
      HandleCommandOnward(s, fd, Parse(line));
    }
  }

  function OnReadable(s: State, fd: int, recvs: seq<RecvOutcome>): (t: State)
    requires Keyed(s)
    ensures Keyed(t)
    decreases |recvs|
  {
    if fd !in s.sessions || s.sessions[fd].closing || recvs == [] then s
    else match recvs[0]
      case Received(bytes) =>
        if bytes == "" then
          OrderlyCloseKeyed(s, fd);
          BeginOrderlyClose(s, fd)
        else
          var chunk := Clip(bytes, READ_CHUNK);
          var c := ConsumeMessages(Receive(s, fd, chunk), fd);
          if !c.more || |chunk| < READ_CHUNK then c.state else OnReadable(c.state, fd, recvs[1..])
      case RecvInterrupted => OnReadable(s, fd, recvs[1..])
      case RecvWouldBlock => s
      case RecvFailed =>
        DropFrame(s, fd);
        Drop(s, fd)
  }

  // ----- runs

  /** One ready descriptor, with the answers its recv or accept calls will get. */
  datatype Ready = Ready(event: Event, recvs: seq<RecvOutcome>, accepts: seq<AcceptOutcome>)

  function ProcessEvent(s: State, r: Ready): (t: State)
    requires Keyed(s)
    ensures Keyed(t)
  {
    var fd := r.event.fd;
    if fd == s.listener then
      AcceptKeyed(s, r.accepts);
      AcceptPending(s, r.accepts)
    else if fd !in s.sessions then s
    else
      FlushFrame(s, fd);
      var t := if r.event.writable then Flush(s, fd) else s;
      if fd !in t.sessions then t
      else
        var u := if r.event.readable then OnReadable(t, fd, r.recvs) else t;
        DropFrame(u, fd);
        if fd in u.sessions && r.event.hangup then Drop(u, fd) else u
  }

  lemma {:induction false} AcceptKeyed(s: State, accepts: seq<AcceptOutcome>)
    requires Keyed(s)
    ensures Keyed(AcceptPending(s, accepts))
    decreases |accepts|
  {
    if accepts != [] && accepts[0].Connected? {
      var fd := accepts[0].fd;
      var t := Admit(s, fd);
      AcceptKeyed(t.(loop := t.loop[fd := Interest(true, false)]), accepts[1..]);
      AcceptKeyed(t.(sessions := t.sessions - {fd}, kernel := Close(t.kernel, fd)), accepts[1..]);
    }
  }

  function ProcessAll(s: State, ready: seq<Ready>): (t: State)
    requires Keyed(s)
    ensures Keyed(t)
    decreases |ready|
  {
    if ready == [] then s else ProcessAll(ProcessEvent(s, ready[0]), ready[1..])
  }

  /** The events of a wait concern registered descriptors only. */
  function Reported(ready: seq<Ready>, loop: map<int, Interest>): seq<Ready> {
    if ready == [] then []
    else (if ready[0].event.fd in loop then [ready[0]] else []) + Reported(ready[1..], loop)
  }

  /** What one wait brings, and whether the pause after an exhausted accept is over. */
  datatype Batch = Batch(ready: seq<Ready>, due: bool)

  /** One turn of the loop: descriptors dropped on the way are closed only at the end of it. */
  function Turn(s: State, b: Batch): (t: State)
    requires Keyed(s)
    ensures Keyed(t)
  {
    ReapClosed(ProcessAll(ResumeAccepting(s, b.due), Reported(b.ready, s.loop)))
  }

  function Turns(s: State, batches: seq<Batch>): (t: State)
    requires Keyed(s)
    ensures Keyed(t)
    decreases |batches|
  {
    if batches == [] then s else Turn(Turns(s, batches[..|batches| - 1]), batches[|batches| - 1])
  }
}
