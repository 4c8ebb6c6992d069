/** Every step of the server keeps every invariant; hence every state of every run has them. */
module Safety {
  import opened Protocol
  import opened Framing
  import opened Sockets
  import opened Exchange
  import opened Loop
  import opened Invariants
  import opened Output
  import opened Inputs
  import opened Announcements
  import opened OrderBooks
  import B = Book

  /** Tables agree, output is conserved and bounded, and interest is registered as wanted. */
  ghost predicate Core(s: State) {
    Tables(s) && Streams(s) && Registered(s)
  }

  /** All of that, and every subscriber has been told what it should. */
  ghost predicate Sound(s: State) {
    Core(s) && Tape(s)
  }

  /** A state between two events. */
  ghost predicate Invariant(s: State) {
    Sound(s) && InputSettled(s)
  }

  // ----- responses and drops

  lemma SendToCore(s: State, fd: int, r: Response)
    requires Core(s) && PlainResponse(r)
    ensures Core(SendTo(s, fd, r))
  {
    hide SendTo, PlainResponse, Streams, RestExcept, Descriptors, Subscriptions, Names, Roles, Orders;
    SendToTables(s, fd, r);
    SendToStreams(s, fd, r);
    SendToRest(s, fd, r);
  }

  lemma SendToSound(s: State, fd: int, r: Response)
    requires Sound(s) && PlainResponse(r) && !r.Trade?
    ensures Sound(SendTo(s, fd, r))
  {
    hide SendTo, PlainResponse, Tape, Tables, Streams, Registered;
    SendToCore(s, fd, r);
    SendToTape(s, fd, r);
  }

  lemma RestBusy(s: State, fd: int)
    requires Registered(s) && fd in s.sessions
    ensures RestExcept(s, fd) && s.listener != fd
  {
    hide Wanted, Finished;
    forall x | x in s.sessions ensures if x == fd then Cached(s, x) else AtRest(s, x) {
      assert AtRest(s, x);
    }
  }

  lemma DropSound(s: State, fd: int)
    requires Sound(s)
    ensures Sound(Drop(s, fd))
  {
    hide Streams, RestExcept, Descriptors, Subscriptions, Names, Roles, Orders, Tape;
    if fd in s.sessions {
      DropTables(s, fd);
      DropStreams(s, fd);
      RestBusy(s, fd);
      DropRest(s, fd);
      DropFrame(s, fd);
      DropTape(s, fd);
    }
  }

  lemma DropTape(s: State, fd: int)
    requires Tape(s)
    ensures Tape(Drop(s, fd))
  {
    hide Drop, Tape;
    DropFrame(s, fd);
    SameTape(s, Drop(s, fd));
  }

  lemma ClosingSame(s: State, fd: int)
    requires Tables(s) && Streams(s) && Tape(s) && fd in s.sessions
    ensures var t := Closing(s, fd); Tables(t) && Streams(t) && Tape(t)
  {
    hide Streams, Tables, Tape;
    SameMembersTables(s, Closing(s, fd));
    SameStreams(s, Closing(s, fd));
    SameTape(s, Closing(s, fd));
  }

  lemma OrderlyCloseSound(s: State, fd: int)
    requires Sound(s)
    ensures Sound(BeginOrderlyClose(s, fd))
  {
    hide Streams, RestExcept, Tables, Tape, Drop;
    OrderlyCloseRest(s, fd);
    if fd in s.sessions {
      var t := Closing(s, fd);
      ClosingSame(s, fd);
      if Pending(t.sessions[fd]) == 0 {
        DropTables(t, fd);
        DropStreams(t, fd);
        DropTape(t, fd);
      } else {
        SameMembersTables(t, BeginOrderlyClose(s, fd));
        SameStreams(t, BeginOrderlyClose(s, fd));
        SameTape(t, BeginOrderlyClose(s, fd));
      }
    }
  }

  // ----- publishing

  lemma {:induction false} FanOutCore(s: State, targets: seq<int>, r: Response)
    requires Core(s) && PlainResponse(r)
    ensures Core(FanOut(s, targets, r))
    decreases |targets|
  {
    hide SendTo, Core, PlainResponse;
    if targets != [] {
      SendToCore(s, targets[0], r);
      FanOutCore(SendTo(s, targets[0], r), targets[1..], r);
    }
  }

  /** Scripts and announcements are not part of what the core speaks of. */
  lemma SameCore(s: State, t: State)
    requires Core(s) && t == s.(orders := t.orders, hist := s.hist.(tape := t.hist.tape))
    ensures Core(t)
  {
    hide Streams, Tables, Registered;
    SameMembersTables(s, t);
    SameStreams(s, t);
    SameRest(s, t);
  }

  lemma PublishCore(s: State, x: TradeExecution)
    requires Core(s) && Plain(x.instrument)
    ensures Core(Publish(s, x))
  {
    hide SendTo, Core, FanOut, Enumerate;
    var t := SendTo(s, x.buyer, Bought(x.instrument, x.quantity, x.price));
    var u := SendTo(t, x.seller, Sold(x.instrument, x.quantity, x.price));
    SendToCore(s, x.buyer, Bought(x.instrument, x.quantity, x.price));
    SendToCore(t, x.seller, Sold(x.instrument, x.quantity, x.price));
    var v := Announce(u, x);
    SameCore(u, v);
    SameCore(v, NextHint(v));
    if x.instrument in v.subscribers {
      FanOutCore(NextHint(v), Enumerate(Hint(v), v.subscribers[x.instrument]), Trade(x.instrument, x.quantity, x.price));
    }
  }

  lemma {:induction false} PublishAllSound(s: State, fd: int, xs: seq<TradeExecution>)
    requires Sound(s) && forall j :: 0 <= j < |xs| ==> Plain(xs[j].instrument)
    ensures Sound(PublishAll(s, fd, xs))
    decreases |xs|
  {
    hide Publish, Tape, Tables, Streams, Registered, Plain;
    if xs != [] {
      PublishCore(s, xs[0]);
      PublishTape(s, xs[0]);
      PublishAllSound(Publish(s, xs[0]), fd, xs[1..]);
    }
  }

  // ----- commands

  /** A change of the server's own tables that leaves output and announcements alone. */
  lemma TableChange(s: State, t: State)
    requires Sound(s) && Tables(t)
    requires t.kernel == s.kernel && t.hist.queued == s.hist.queued && t.hist.tape == s.hist.tape
    requires t.loop == s.loop && t.paused == s.paused && t.listener == s.listener
    requires t.sessions.Keys == s.sessions.Keys
    requires forall fd :: fd in s.sessions ==>
               && SameOutput(t.sessions[fd], s.sessions[fd]) && t.sessions[fd].subscriptions == s.sessions[fd].subscriptions
    ensures Sound(t)
  {
    hide Streams, Tables, Registered, Tape;
    SameStreams(s, t);
    SameRest(s, t);
    SameTape(s, t);
  }

  lemma LoginSound(s: State, fd: int, cmd: ParsedCommand)
    requires Sound(s) && fd in s.sessions && cmd.valid && cmd.kind == Login && WellParsed(cmd)
    ensures Sound(HandleLogin(s, fd, cmd))
  {
    hide SendTo, Streams, Registered, Tape, Descriptors, Subscriptions, Names, Orders;
    var ses, name := s.sessions[fd], cmd.args[0];
    assert Role(ses);
    WordPlain(name);
    if WrongRole(s, fd, Trader) {
      SendToSound(s, fd, Error(NotPermitted(cmd.kind, ses.role)));
    } else if ses.loggedIn {
      SendToSound(s, fd, Error(AlreadyLoggedIn(ses.username)));
    } else if name in s.usernames {
      SendToSound(s, fd, Error(UsernameTaken(name)));
    } else {
      LoggedInTables(s, fd, name);
      TableChange(s, LoggedIn(s, fd, name));
      SendToSound(LoggedIn(s, fd, name), fd, Ok);
    }
  }

  lemma InstrumentPlain(instrument: string)
    requires IsValidInstrument(instrument)
    ensures Plain(instrument)
  {
  }

  lemma SubscribedSound(s: State, fd: int, instrument: string)
    requires Sound(s) && fd in s.sessions && !s.sessions[fd].loggedIn
    ensures Sound(Subscribed(s, fd, instrument))
  {
    hide Streams, Tables, Registered, Tape;
    var t := Subscribed(s, fd, instrument);
    SubscribedTables(s, fd, instrument);
    SubscribedTape(s, fd, instrument);
    SameStreams(s, t);
    SameRest(s, t);
  }

  lemma DepartedSound(s: State, fd: int, instrument: string)
    requires Sound(s) && fd in s.sessions && !s.sessions[fd].loggedIn
    ensures Sound(Departed(s, fd, instrument))
  {
    hide Streams, Tables, Registered, Tape;
    var t := Departed(s, fd, instrument);
    DepartedTables(s, fd, instrument);
    DepartedTape(s, fd, instrument);
    SameStreams(s, t);
    SameRest(s, t);
  }

  lemma SubscriptionSound(s: State, fd: int, cmd: ParsedCommand)
    requires Sound(s) && fd in s.sessions && IsValidInstrument(cmd.instrument)
    ensures Sound(HandleSubscription(s, fd, cmd))
  {
    hide SendTo, Sound, Subscribed, Departed, IsValidInstrument, Plain, Tables;
    SoundBasics(s);
    RoleOf(s, fd);
    InstrumentPlain(cmd.instrument);
    var ses := s.sessions[fd];
    if WrongRole(s, fd, MarketData) {
      SendToSound(s, fd, Error(NotPermitted(cmd.kind, ses.role)));
    } else if cmd.kind != Subscribe && cmd.instrument !in ses.subscriptions {
      SendToSound(s, fd, Error(NotSubscribed(cmd.instrument)));
    } else if cmd.kind == Subscribe {
      SubscribedSound(s, fd, cmd.instrument);
      SendToSound(Subscribed(s, fd, cmd.instrument), fd, Ok);
    } else {
      DepartedSound(s, fd, cmd.instrument);
      SendToSound(Departed(s, fd, cmd.instrument), fd, Ok);
    }
  }

  predicate AllIn(fills: seq<B.Fill>, instrument: string) {
    forall j :: 0 <= j < |fills| ==> fills[j].instrument == instrument
  }

  lemma {:induction false} MatchInstrument(orders: seq<B.Order>, taker: B.Order)
    ensures AllIn(B.Match(orders, taker).fills, taker.instrument)
    decreases |orders|
  {
    if orders != [] && taker.quantity > 0 {
      if B.Crosses(orders[0], taker) {
        MatchInstrument(orders[1..], B.Reduced(taker, B.FillOf(orders[0], taker).quantity));
      } else {
        MatchInstrument(orders[1..], taker);
      }
    }
  }

  lemma ExecutedInstrument(b: B.Book, op: B.Op)
    requires op.Add?
    ensures var xs := Executions(B.Apply(b, op).fills); forall j :: 0 <= j < |xs| ==> xs[j].instrument == op.instrument
  {
    MatchInstrument(b.resting, B.Taker(b, op));
  }

  lemma OrderSound(s: State, fd: int, cmd: ParsedCommand)
    requires Sound(s) && fd in s.sessions && IsValidInstrument(cmd.instrument)
    ensures Sound(HandleOrder(s, fd, cmd))
  {
    hide SendTo, PublishAll, Submitted, B.Apply, Executions, Streams, Registered, Tape, Tables, IsValidInstrument;
    var bar := TradingBar(s, fd, cmd.kind);
    if bar != [] {
      SendToSound(s, fd, Error(bar[0]));
    } else {
      var op := OrderOp(fd, cmd);
      InstrumentPlain(cmd.instrument);
      SubmittedTables(s, fd, op);
      SubmittedOnly(s, fd, op);
      TableChange(s, Submitted(s, fd, op));
      SendToSound(Submitted(s, fd, op), fd, OrderAccepted(s.book.nextId));
      ExecutedInstrument(s.book, op);
      PublishAllSound(SendTo(Submitted(s, fd, op), fd, OrderAccepted(s.book.nextId)), fd,
                      Executions(B.Apply(s.book, op).fills));
    }
  }

  lemma SubmittedOnly(s: State, fd: int, op: B.Op)
    ensures var t := Submitted(s, fd, op);
            && t.sessions == s.sessions && t.kernel == s.kernel && t.loop == s.loop && t.paused == s.paused
            && t.listener == s.listener && t.hist.queued == s.hist.queued && t.hist.tape == s.hist.tape
    ensures var t := BookStep(s, op);
            && t.sessions == s.sessions && t.kernel == s.kernel && t.loop == s.loop && t.paused == s.paused
            && t.listener == s.listener && t.hist.queued == s.hist.queued && t.hist.tape == s.hist.tape
  {
    hide B.Apply;
  }

  lemma CancelSound(s: State, fd: int, cmd: ParsedCommand)
    requires Sound(s) && fd in s.sessions
    ensures Sound(HandleCancel(s, fd, cmd))
  {
    hide SendTo, BookStep, B.Select, Streams, Registered, Tape, Tables;
    var bar := TradingBar(s, fd, cmd.kind);
    if bar != [] {
      SendToSound(s, fd, Error(bar[0]));
    } else {
      var op := B.Cancel(cmd.orderId, fd);
      CancelledTables(s, op);
      SubmittedOnly(s, fd, op);
      TableChange(s, BookStep(s, op));
      SendToSound(BookStep(s, op), fd, CancelAnswer(s.book, fd, cmd.orderId));
    }
  }

  lemma HandleCommandSound(s: State, fd: int, cmd: ParsedCommand)
    requires Sound(s) && fd in s.sessions && WellParsed(cmd)
    ensures Sound(HandleCommand(s, fd, cmd))
  {
    hide Sound, SendTo, HandleLogin, HandleSubscription, HandleOrder, HandleCancel, BeginOrderlyClose, IsValidInstrument;
    if !cmd.valid {
      SendToSound(s, fd, Error(cmd.error));
    } else {
      match cmd.kind {
        case Quit => OrderlyCloseSound(s, fd);
        case Login => LoginSound(s, fd, cmd);
        case Subscribe => SubscriptionSound(s, fd, cmd);
        case Unsubscribe => SubscriptionSound(s, fd, cmd);
        case BuyCommand => OrderSound(s, fd, cmd);
        case SellCommand => OrderSound(s, fd, cmd);
        case CancelCommand => CancelSound(s, fd, cmd);
      }
    }
  }

  // ----- reading

  function Buffered(s: State, fd: int, inbuf: string, chunks: seq<seq<string>>, handled: seq<seq<string>>): State
    requires fd in s.sessions
  {
    Update(s, fd, s.sessions[fd].(inbuf := inbuf)).(hist := s.hist.(chunks := chunks, handled := handled))
  }

  /** Moving bytes into or out of the input buffer concerns the input side only. */
  lemma BufferSound(s: State, fd: int, inbuf: string, chunks: seq<seq<string>>, handled: seq<seq<string>>)
    requires Sound(s) && fd in s.sessions && |chunks| == |s.hist.chunks| && |handled| == |s.hist.handled|
    ensures Sound(Buffered(s, fd, inbuf, chunks, handled))
  {
    hide Streams, Tables, Registered, Tape;
    var t := Buffered(s, fd, inbuf, chunks, handled);
    SameMembersTables(s, t);
    TableChange(s, t);
  }

  lemma TakeLineSound(s: State, fd: int)
    requires Sound(s) && fd in s.sessions && Newline(s.sessions[fd].inbuf) < |s.sessions[fd].inbuf|
    ensures Sound(TakeLine(s, fd))
  {
    hide Sound, Newline;
    var t := TakeLine(s, fd);
    BufferSound(s, fd, t.sessions[fd].inbuf, t.hist.chunks, t.hist.handled);
  }

  lemma ReceiveSound(s: State, fd: int, bytes: string)
    requires Sound(s) && fd in s.sessions
    ensures Sound(Receive(s, fd, bytes))
  {
    hide Sound;
    var t := Receive(s, fd, bytes);
    BufferSound(s, fd, t.sessions[fd].inbuf, t.hist.chunks, t.hist.handled);
  }

  lemma SoundBasics(s: State)
    requires Sound(s)
    ensures Tables(s) && Keyed(s) && s.listener !in s.sessions
  {
  }

  lemma OversizeInvariant(s: State, fd: int)
    requires Sound(s) && Ended(s, fd)
    ensures Invariant(BeginOrderlyClose(Refuse(s, fd, LineTooLong), fd))
  {
    hide Sound, SendTo, BeginOrderlyClose, Ended, Onward, InputExcept, Tables, Keyed;
    var t := Refuse(s, fd, LineTooLong);
    SoundBasics(s);
    SendToSound(s, fd, Error(LineTooLong));
    SendToOnward(s, fd, Error(LineTooLong));
    OnwardEnded(s, t, fd);
    SoundBasics(t);
    OrderlyCloseSound(t, fd);
    OrderlyCloseInput(t, fd);
  }

  lemma QuitInvariant(s: State, fd: int, line: string)
    requires Sound(s) && Ended(s, fd) && fd in s.sessions && IsQuit(line)
    ensures HandleMessage(s, fd, line) == BeginOrderlyClose(s, fd)
    ensures Invariant(HandleMessage(s, fd, line))
  {
    hide Sound, SendTo, BeginOrderlyClose, Ended, InputExcept, Parse, Tables;
    SoundBasics(s);
    OrderlyCloseSound(s, fd);
    OrderlyCloseInput(s, fd);
  }

  lemma LineSound(s: State, fd: int, line: string)
    requires Sound(s) && InputExcept(s, fd) && fd in s.sessions && !IsQuit(line)
    ensures var t := HandleMessage(s, fd, line);
            Sound(t) && InputExcept(t, fd) && (fd in t.sessions ==> !t.sessions[fd].closing)
  {
    hide Sound, Tables, Keyed, Parse, HandleCommand, IsQuit, Underway, Settled;
    SoundBasics(s);
    ParseWellParsed(line);
    HandleCommandSound(s, fd, Parse(line));
    HandleMessageOnward(s, fd, line);
    OnwardInput(s, HandleMessage(s, fd, line), fd);
    assert !s.sessions[fd].closing by { UnderwayReads(s, fd); }
  }

  lemma UnderwayReads(s: State, fd: int)
    requires InputExcept(s, fd) && fd in s.sessions
    ensures !s.sessions[fd].closing
  {
    hide Feed, Drain;
    assert Underway(s, fd);
  }

  lemma {:induction false} ConsumeInvariant(s: State, fd: int)
    requires Sound(s) && InputExcept(s, fd) && Keyed(s)
    ensures Invariant(ConsumeMessages(s, fd).state)
    decreases if fd in s.sessions then |s.sessions[fd].inbuf| else 0
  {
    hide Sound, InputExcept, Ended, HandleMessage, SendTo, BeginOrderlyClose, IsQuit, Tables, Keyed, Newline, Onward;
    SoundBasics(s);
    if fd !in s.sessions {
      LostSession(s, fd);
    } else {
      var inbuf := s.sessions[fd].inbuf;
      if Newline(inbuf) == |inbuf| {
        NothingLeft(s, fd);
        if |inbuf| > MAX_LINE {
          OversizeInvariant(s, fd);
        }
      } else {
        var t, line := TakeLine(s, fd), FirstLine(inbuf);
        TakeLineSound(s, fd);
        TakeLineInput(s, fd);
        SoundBasics(t);
        HandleMessageOnward(t, fd, line);
        if IsQuit(line) {
          QuitInvariant(t, fd, line);
          OrderlyCloseKeyed(t, fd);
        } else {
          var u := HandleMessage(t, fd, line);
          LineSound(t, fd, line);
          ConsumeInvariant(u, fd);
        }
      }
    }
  }

  lemma {:induction false} OnReadableInvariant(s: State, fd: int, recvs: seq<RecvOutcome>)
    requires Invariant(s) && Keyed(s)
    ensures Invariant(OnReadable(s, fd, recvs))
    decreases |recvs|
  {
    hide Sound, InputExcept, Ended, ConsumeMessages, Receive, BeginOrderlyClose, Drop, Tables, Keyed, Onward;
    SoundBasics(s);
    if fd in s.sessions && !s.sessions[fd].closing && recvs != [] {
      match recvs[0] {
        case Received(bytes) =>
          if bytes == "" {
            SettledEnds(s, fd);
            OrderlyCloseSound(s, fd);
            OrderlyCloseInput(s, fd);
          } else {
            var t := Receive(s, fd, Clip(bytes, READ_CHUNK));
            ReceiveSound(s, fd, Clip(bytes, READ_CHUNK));
            ReceiveInput(s, fd, Clip(bytes, READ_CHUNK));
            SoundBasics(t);
            ConsumeInvariant(t, fd);
            OnReadableInvariant(ConsumeMessages(t, fd).state, fd, recvs[1..]);
          }
        case RecvInterrupted => OnReadableInvariant(s, fd, recvs[1..]);
        case RecvWouldBlock =>
        case RecvFailed => DropInvariant(s, fd);
      }
    }
  }

  lemma DropInvariant(s: State, fd: int)
    requires Invariant(s)
    ensures Invariant(Drop(s, fd))
  {
    hide Sound, Drop, InputExcept, Tables, Keyed;
    SoundBasics(s);
    DropSound(s, fd);
    DropOnward(s, fd);
    OnwardInput(s, Drop(s, fd), s.listener);
  }

  lemma FlushOnward(s: State, fd: int)
    requires Keyed(s) && fd in s.sessions
    ensures Onward(s, Flush(s, fd)) && Keyed(Flush(s, fd))
  {
    hide Flush;
    FlushFrame(s, fd);
  }

  lemma FlushTape(s: State, fd: int)
    requires Keyed(s) && fd in s.sessions && Tape(s)
    ensures Tape(Flush(s, fd))
  {
    hide Flush, Tape;
    FlushFrame(s, fd);
    SameTape(s, Flush(s, fd));
  }

  lemma FlushInvariant(s: State, fd: int)
    requires Invariant(s) && fd in s.sessions
    ensures Invariant(Flush(s, fd))
  {
    SoundBasics(s);
    hide Flush, InputExcept, Streams, RestExcept, Tables, Tape, Keyed;
    RestBusy(s, fd);
    FlushTables(s, fd);
    FlushStreams(s, fd);
    FlushRest(s, fd);
    FlushTape(s, fd);
    FlushOnward(s, fd);
    OnwardInput(s, Flush(s, fd), s.listener);
  }

  // ----- accepting and closing

  lemma PauseInvariant(s: State, t: State)
    requires Invariant(s) && t == s.(paused := t.paused, loop := s.loop[s.listener := Interest(!t.paused, false)])
    ensures Invariant(t)
  {
    hide Streams, Tables, Tape, RestExcept, InputExcept;
    SameMembersTables(s, t);
    SameStreams(s, t);
    SameTape(s, t);
    PauseRest(s, t);
    SameInput(s, t);
  }

  lemma PauseRest(s: State, t: State)
    requires Registered(s) && t == s.(paused := t.paused, loop := s.loop[s.listener := Interest(!t.paused, false)])
    ensures Registered(t)
  {
    hide Wanted, Finished;
    forall fd | fd in t.sessions ensures AtRest(t, fd) {
      assert AtRest(s, fd);
    }
  }

  lemma SameInput(s: State, t: State)
    requires InputSettled(s) && t.sessions == s.sessions && t.listener == s.listener && t.kernel.table == s.kernel.table
    requires |t.kernel.wire| == |s.kernel.wire| && t.hist.chunks == s.hist.chunks && t.hist.handled == s.hist.handled
    ensures InputSettled(t)
  {
    hide Feed;
    forall fd | fd in t.sessions ensures fd != s.listener ==> Settled(t, fd) {
      assert fd != s.listener ==> Settled(s, fd);
    }
  }

  /** A new connection, registered for reading. */
  function Admitted(s: State, fd: int): State {
    Admit(s, fd).(loop := s.loop[fd := Interest(true, false)])
  }

  /** A connection that could not be registered: opened and closed again, with no session. */
  function TurnedAway(s: State, fd: int): State {
    var t := Admit(s, fd);
    t.(sessions := t.sessions - {fd}, kernel := Close(t.kernel, fd))
  }

  predicate Admissible(s: State, fd: int) {
    fd != s.listener && fd !in s.kernel.table
  }

  lemma OpenConnections(k: Kernel, fd: int)
    requires Connections(k) && fd !in k.table
    ensures Connections(OpenFd(k, fd)) && Connections(Close(OpenFd(k, fd), fd))
    ensures Close(OpenFd(k, fd), fd).table == k.table
  {
    var o := OpenFd(k, fd);
    var c := Close(o, fd);
    assert c.table == k.table;
    forall w | 0 <= w < |o.wire| ensures (w in o.closed || Denoted(o, w)) && (w in c.closed || Denoted(c, w)) {
      if w == |k.wire| {
        assert o.table[fd] == w;
        assert c.closed[|k.closed|] == w;
      } else if w in k.closed {
        var i :| 0 <= i < |k.closed| && k.closed[i] == w;
        assert c.closed[i] == w;
      } else {
        var x :| x in k.table && k.table[x] == w;
        assert o.table[x] == w && c.table[x] == w;
      }
    }
  }

  lemma AdmittedDescriptors(s: State, fd: int)
    requires Descriptors(s) && Admissible(s, fd)
    ensures Descriptors(Admitted(s, fd)) && Descriptors(TurnedAway(s, fd))
  {
    hide Connections;
    OpenConnections(s.kernel, fd);
  }

  lemma AdmittedTables(s: State, fd: int)
    requires Tables(s) && Admissible(s, fd)
    ensures Tables(Admitted(s, fd))
  {
    hide Descriptors, Names, Orders, Subscriptions, Roles, Keyed, Admitted;
    AdmittedDescriptors(s, fd);
    AdmittedOwners(s, fd);
    AdmittedMembers(s, fd);
  }

  lemma AdmittedMembers(s: State, fd: int)
    requires Descriptors(s) && Keyed(s) && Subscriptions(s) && Roles(s) && Admissible(s, fd)
    ensures var t := Admitted(s, fd); Keyed(t) && Subscriptions(t) && Roles(t)
  {
    var t := Admitted(s, fd);
    assert fd !in s.sessions;
    hide Descriptors, OpenFd;
    forall i, x ensures x in SubscribersOf(t, i) <==> x in t.sessions && i in t.sessions[x].subscriptions {
      assert SubscribersOf(t, i) == SubscribersOf(s, i);
    }
  }

  lemma AdmittedOwners(s: State, fd: int)
    requires Descriptors(s) && Names(s) && Orders(s) && Admissible(s, fd)
    ensures Names(Admitted(s, fd)) && Orders(Admitted(s, fd))
  {
    var t := Admitted(s, fd);
    assert fd !in s.sessions;
    hide Descriptors;
    assert forall x, name :: HasName(t, x, name) <==> HasName(s, x, name);
    SameMembersNames(s, t);
    forall o | Owned(s, o) ensures Owned(t, o) {}
    SameMembersOrders(s, t);
  }

  lemma TurnedAwayTables(s: State, fd: int)
    requires Tables(s) && Admissible(s, fd)
    ensures Tables(TurnedAway(s, fd))
  {
    var t := TurnedAway(s, fd);
    AdmittedDescriptors(s, fd);
    OpenConnections(s.kernel, fd);
    assert fd !in s.sessions && t.sessions == s.sessions;
    hide Descriptors;
    forall i ensures SubscribersOf(t, i) == SubscribersOf(s, i) {}
    assert forall x, name :: HasName(t, x, name) <==> HasName(s, x, name);
    SameMembersNames(s, t);
    forall o | Owned(s, o) ensures Owned(t, o) {}
    SameMembersOrders(s, t);
    hide Names, Orders;
  }

  /** The logs after one more connection, of which nothing has been seen yet. */
  ghost predicate OneMore(s: State, t: State) {
    && t.kernel.wire == s.kernel.wire + [""] && t.hist.queued == s.hist.queued + [[]]
    && t.hist.chunks == s.hist.chunks + [[]] && t.hist.handled == s.hist.handled + [[]]
    && t.hist.tape == s.hist.tape
    && |s.hist.queued| == |s.hist.chunks| == |s.hist.handled| == |s.kernel.wire|
    && (forall x :: x in s.sessions ==> x in t.sessions && t.sessions[x] == s.sessions[x] && Who(t, x) == Who(s, x) < |s.kernel.wire|)
    && (forall x :: x in t.sessions && x !in s.sessions ==> t.sessions[x] == NewSession(x) && Who(t, x) == |s.kernel.wire|)
  }

  lemma OneMoreStreams(s: State, t: State)
    requires Streams(s) && OneMore(s, t)
    ensures Streams(t)
  {
    hide PlainResponse, Render;
    forall x | x in t.sessions ensures Conserved(t, x) {
      if x in s.sessions {
        assert Conserved(s, x);
      }
    }
    forall w: nat ensures Log(t.kernel.wire, w) == Log(s.kernel.wire, w) && Log(t.hist.queued, w) == Log(s.hist.queued, w) {}
  }

  lemma OneMoreTape(s: State, t: State)
    requires Tape(s) && OneMore(s, t)
    ensures Tape(t)
  {
    hide Heard, Listening, TradesOf;
    forall x, i | x in t.sessions ensures Tuned(t, x, i) {
      if x in s.sessions {
        assert Tuned(s, x, i);
      } else {
        NeverJoined(s.hist.tape, |s.kernel.wire|, i);
        NoTrades(i);
      }
    }
  }

  lemma OneMoreInput(s: State, t: State)
    requires InputSettled(s) && OneMore(s, t) && t.listener == s.listener && s.listener !in t.sessions
    ensures InputSettled(t)
  {
    hide Drain;
    forall x | x in t.sessions ensures Settled(t, x) {
      if x in s.sessions {
        assert Settled(s, x);
      }
    }
    forall w: nat ensures Log(t.hist.chunks, w) == Log(s.hist.chunks, w) && Log(t.hist.handled, w) == Log(s.hist.handled, w) {}
    assert forall w: nat :: FramedInput(t, w) == FramedInput(s, w);
  }

  lemma AdmittedOneMore(s: State, fd: int)
    requires Descriptors(s) && Admissible(s, fd) && s.listener !in s.sessions
    ensures OneMore(s, Admitted(s, fd)) && s.listener !in Admitted(s, fd).sessions && fd !in s.sessions
    ensures Admitted(s, fd).listener == s.listener
  {
  }

  lemma TurnedAwayOneMore(s: State, fd: int)
    requires Descriptors(s) && Admissible(s, fd)
    ensures var t := TurnedAway(s, fd);
            OneMore(s, t) && t.sessions == s.sessions && t.loop == s.loop && t.listener == s.listener && t.paused == s.paused
  {
    hide Connections, OpenFd, Close;
    TurnedAwayKernel(s.kernel, fd);
    TurnedAwaySessions(s, fd);
    InUse(s);
  }

  /** Opening and closing a descriptor leaves the table as it was, and one more empty log. */
  lemma TurnedAwayKernel(k: Kernel, fd: int)
    requires fd !in k.table
    ensures var c := Close(OpenFd(k, fd), fd); c.table == k.table && c.wire == k.wire + [""]
  {
  }

  lemma TurnedAwaySessions(s: State, fd: int)
    requires fd !in s.sessions
    ensures Admit(s, fd).sessions - {fd} == s.sessions
  {
    hide OpenFd;
  }

  lemma InUse(s: State)
    requires Descriptors(s)
    ensures forall x :: x in s.sessions ==> x in s.kernel.table && Who(s, x) < |s.kernel.wire|
  {
  }

  lemma AdmittedInvariant(s: State, fd: int)
    requires Invariant(s) && Admissible(s, fd)
    ensures Invariant(Admitted(s, fd))
  {
    SoundBasics(s);
    assert Descriptors(s);
    hide Admitted, Tables, OneMore, Streams, Registered, Tape, InputExcept, Descriptors, Keyed;
    AdmittedOneMore(s, fd);
    AdmittedTables(s, fd);
    AdmittedRest(s, fd);
    OneMoreStreams(s, Admitted(s, fd));
    OneMoreTape(s, Admitted(s, fd));
    OneMoreInput(s, Admitted(s, fd));
  }

  lemma TurnedAwayInvariant(s: State, fd: int)
    requires Invariant(s) && Admissible(s, fd)
    ensures Invariant(TurnedAway(s, fd))
  {
    SoundBasics(s);
    assert Descriptors(s);
    hide TurnedAway, Tables, OneMore, Streams, Registered, Tape, InputExcept, Descriptors, Keyed;
    TurnedAwayOneMore(s, fd);
    TurnedAwayTables(s, fd);
    SameRest(s, TurnedAway(s, fd));
    OneMoreStreams(s, TurnedAway(s, fd));
    OneMoreTape(s, TurnedAway(s, fd));
    OneMoreInput(s, TurnedAway(s, fd));
  }

  lemma AdmittedRest(s: State, fd: int)
    requires Registered(s) && fd != s.listener && fd !in s.sessions
    ensures Registered(Admitted(s, fd))
  {
    var t := Admitted(s, fd);
    forall x | x in t.sessions ensures AtRest(t, x) {
      assert x != fd ==> AtRest(s, x);
    }
  }

  lemma {:induction false} AcceptInvariant(s: State, accepts: seq<AcceptOutcome>)
    requires Invariant(s)
    ensures Invariant(AcceptPending(s, accepts))
    decreases |accepts|
  {
    hide Invariant, Admit, Close;
    if accepts != [] {
      match accepts[0] {
        case Connected(fd, registered) =>
          if fd >= 0 && fd != s.listener && fd !in s.kernel.table {
            if registered {
              AdmittedInvariant(s, fd);
              assert Admitted(s, fd) == Admit(s, fd).(loop := Admit(s, fd).loop[fd := Interest(true, false)]) by { AdmitLoop(s, fd); }
              AcceptInvariant(Admitted(s, fd), accepts[1..]);
            } else {
              TurnedAwayInvariant(s, fd);
              AcceptInvariant(TurnedAway(s, fd), accepts[1..]);
            }
          }
        case AcceptWouldBlock =>
        case Exhausted => if !s.paused { PauseInvariant(s, PauseAccepting(s)); }
        case AcceptFailed =>
      }
    }
  }

  lemma AdmitLoop(s: State, fd: int)
    ensures Admit(s, fd).loop == s.loop
  {
  }

  // ----- closing dropped descriptors

  /** Closes the first of the dropped descriptors. */
  function ReapOne(s: State): State
    requires s.closedFds != []
  {
    s.(kernel := Close(s.kernel, s.closedFds[0]), closedFds := s.closedFds[1..])
  }

  lemma CloseConnections(k: Kernel, fd: int)
    requires Connections(k) && fd in k.table
    ensures Connections(Close(k, fd))
  {
    var c := Close(k, fd);
    forall w | 0 <= w < |c.wire| ensures w in c.closed || Denoted(c, w) {
      if w == k.table[fd] {
        assert c.closed[|k.closed|] == w;
      } else if w in k.closed {
        var i :| 0 <= i < |k.closed| && k.closed[i] == w;
        assert c.closed[i] == w;
      } else {
        var x :| x in k.table && k.table[x] == w;
        assert c.table[x] == w;
      }
    }
  }

  lemma ReapOneDescriptors(s: State)
    requires Descriptors(s) && s.closedFds != []
    ensures Descriptors(ReapOne(s))
    ensures forall x :: x in s.sessions ==> Who(ReapOne(s), x) == Who(s, x)
  {
    hide Connections;
    CloseConnections(s.kernel, s.closedFds[0]);
    assert s.closedFds == [s.closedFds[0]] + s.closedFds[1..];
  }

  lemma ReapOneTables(s: State)
    requires Tables(s) && s.closedFds != []
    ensures Tables(ReapOne(s))
  {
    var t := ReapOne(s);
    ReapOneDescriptors(s);
    hide Descriptors;
    forall i ensures SubscribersOf(t, i) == SubscribersOf(s, i) {}
    assert forall x, name :: HasName(t, x, name) <==> HasName(s, x, name);
    SameMembersNames(s, t);
    assert forall o :: Owned(s, o) ==> Owned(t, o);
    SameMembersOrders(s, t);
    hide Names, Orders;
  }

  lemma ReapOneInvariant(s: State)
    requires Invariant(s) && s.closedFds != []
    ensures Invariant(ReapOne(s))
  {
    var t := ReapOne(s);
    ReapOneTables(s);
    ReapOneDescriptors(s);
    hide Feed, Tables, RenderAll, PlainResponse, Heard, Listening, TradesOf, Wanted, Finished;
    SameRest(s, t);
    ReapOneLogs(s, t);
  }

  lemma ReapOneLogs(s: State, t: State)
    requires Streams(s) && Tape(s) && InputSettled(s) && t.sessions == s.sessions && t.hist == s.hist
    requires t.kernel.wire == s.kernel.wire && t.listener == s.listener
    requires forall x :: x in s.sessions ==> Who(t, x) == Who(s, x)
    ensures Streams(t) && Tape(t) && InputSettled(t)
  {
    hide Feed, RenderAll, PlainResponse, Heard, Listening, TradesOf;
    forall x | x in t.sessions ensures Conserved(t, x) {
      assert Conserved(s, x);
    }
    forall x, i | x in t.sessions ensures Tuned(t, x, i) {
      assert Tuned(s, x, i);
    }
    forall x | x in t.sessions && x != s.listener ensures Settled(t, x) {
      assert Settled(s, x);
    }
    forall w: nat ensures FramedInput(t, w) == FramedInput(s, w) {}
    assert forall x :: x in t.sessions ==> if x == s.listener then Underway(s, x) else Settled(s, x);
  }

  lemma {:induction false} ReapInvariant(s: State)
    requires Invariant(s)
    ensures Invariant(ReapClosed(s))
    decreases |s.closedFds|
  {
    hide Invariant, Close;
    if s.closedFds == [] {
      assert ReapClosed(s) == s;
    } else {
      ReapOneInvariant(s);
      ReapInvariant(ReapOne(s));
      assert ReapClosed(s) == ReapClosed(ReapOne(s));
    }
  }

  // ----- runs

  lemma ProcessEventInvariant(s: State, r: Ready)
    requires Invariant(s) && Keyed(s)
    ensures Invariant(ProcessEvent(s, r))
  {
    hide Invariant, Flush, OnReadable, Drop, AcceptPending, Keyed;
    var fd := r.event.fd;
    if fd == s.listener {
      AcceptInvariant(s, r.accepts);
    } else if fd in s.sessions {
      FlushInvariant(s, fd);
      FlushOnward(s, fd);
      var t := if r.event.writable then Flush(s, fd) else s;
      if fd in t.sessions {
        OnReadableInvariant(t, fd, r.recvs);
        var u := if r.event.readable then OnReadable(t, fd, r.recvs) else t;
        DropInvariant(u, fd);
      }
    }
  }

  lemma {:induction false} ProcessAllInvariant(s: State, ready: seq<Ready>)
    requires Invariant(s) && Keyed(s)
    ensures Invariant(ProcessAll(s, ready))
    decreases |ready|
  {
    hide Invariant, ProcessEvent, Keyed;
    if ready != [] {
      ProcessEventInvariant(s, ready[0]);
      ProcessAllInvariant(ProcessEvent(s, ready[0]), ready[1..]);
    }
  }

  lemma TurnInvariant(s: State, b: Batch)
    requires Invariant(s) && Keyed(s)
    ensures Invariant(Turn(s, b))
  {
    hide Invariant, ProcessAll, ReapClosed, Reported;
    var t := ResumeAccepting(s, b.due);
    if s.paused && b.due {
      PauseInvariant(s, t);
    }
    ProcessAllInvariant(t, Reported(b.ready, s.loop));
    ReapInvariant(ProcessAll(t, Reported(b.ready, s.loop)));
  }

  lemma InitialInvariant(listener: int, sends: seq<SendOutcome>, orders: seq<seq<int>>)
    ensures var s := Initial(listener, sends, orders); Invariant(s) && Keyed(s)
  {
    var s := Initial(listener, sends, orders);
    InitialTables(listener, sends, orders);
    assert Streams(s) && Tape(s) && InputSettled(s) by { hide Tables; }
    hide Tables, Streams, Tape, InputExcept;
  }

  lemma InitialTables(listener: int, sends: seq<SendOutcome>, orders: seq<seq<int>>)
    ensures var s := Initial(listener, sends, orders); Tables(s) && Keyed(s)
  {
  }

  /** Every state at the end of a turn of the loop, in every run, has all the invariants. */
  lemma {:induction false} RunInvariant(listener: int, sends: seq<SendOutcome>, orders: seq<seq<int>>, batches: seq<Batch>)
    ensures var s := Initial(listener, sends, orders); Keyed(s) && Invariant(Turns(s, batches))
    decreases |batches|
  {
    hide Invariant, Turn;
    InitialInvariant(listener, sends, orders);
    if batches != [] {
      RunInvariant(listener, sends, orders, batches[..|batches| - 1]);
      TurnInvariant(Turns(Initial(listener, sends, orders), batches[..|batches| - 1]), batches[|batches| - 1]);
    }
  }
}
