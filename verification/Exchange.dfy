/**
The exchange server as a state machine.  Everything the server keeps (sessions, subscriber sets,
usernames, descriptors waiting to be closed, the book, loop registrations) is one value, together
with the operating system as far as the server can see it and a history that only proofs look at.
Every function below is one function of the server.
*/
module Exchange {
  import opened Protocol
  import opened Framing
  import opened Sockets
  import B = Book
  import OrderBooks

  const MAX_OUTPUT: nat := 16 * 1024 * 1024

  // ----- sessions

  datatype SessionRecord = SessionRecord(
    fd: int, role: ClientRole, inbuf: string, outbuf: string, outStart: nat, closing: bool, backlogged: bool,
    writeInterest: bool, readInterest: bool, username: string, loggedIn: bool, subscriptions: set<string>)

  /** No more of the output buffer has been written than there is. */
  type Session = r: SessionRecord | r.outStart <= |r.outbuf|
    witness SessionRecord(-1, Undecided, "", "", 0, false, false, false, true, "", false, {})

  function NewSession(fd: int): Session {
    SessionRecord(fd, Undecided, "", "", 0, false, false, false, true, "", false, {})
  }

  /** The output the socket has not taken yet. */
  function Unsent(ses: Session): string {
    ses.outbuf[ses.outStart..]
  }

  function Pending(ses: Session): nat {
    |ses.outbuf| - ses.outStart
  }

  // ----- the operating system

  /**
  The descriptor table maps an open descriptor to the connection it denotes; connections are numbered
  in order of acceptance.  `wire` is what has been handed to each connection's socket, `closed` the
  connections closed so far, `fault` whether a descriptor that was not open was ever closed or written to.
  */
  datatype Kernel = Kernel(table: map<int, nat>, wire: seq<string>, closed: seq<nat>, fault: bool)

  function Extend<T>(logs: seq<seq<T>>, i: nat, more: seq<T>): seq<seq<T>> {
    if i < |logs| then logs[i := logs[i] + more] else logs
  }

  function Transmit(k: Kernel, fd: int, bytes: string): Kernel {
    if fd in k.table then k.(wire := Extend(k.wire, k.table[fd], bytes)) else k.(fault := true)
  }

  function Close(k: Kernel, fd: int): Kernel {
    if fd in k.table then k.(table := k.table - {fd}, closed := k.closed + [k.table[fd]])
    else k.(fault := true)
  }

  function CloseAll(k: Kernel, fds: seq<int>): Kernel
    decreases |fds|
  {
    if fds == [] then k else CloseAll(Close(k, fds[0]), fds[1..])
  }

  function OpenFd(k: Kernel, fd: int): Kernel {
    k.(table := k.table[fd := |k.wire|], wire := k.wire + [""])
  }

  // ----- history

  /** What was announced to subscribers, and who was listening. */
  datatype Note = Joined(who: nat, instrument: string) | Parted(who: nat, instrument: string)
                | Announced(instrument: string, quantity: int, price: int)

  /** Per connection: responses queued, chunks received and lines handled.  And: which connection submitted
      an order, the operations on the book, and the announcements. */
  datatype History = History(queued: seq<seq<Response>>, chunks: seq<seq<string>>, handled: seq<seq<string>>,
                             submitter: map<int, nat>, ops: seq<B.Op>, tape: seq<Note>)

  datatype State = State(
    sessions: map<int, Session>, subscribers: map<string, set<int>>, usernames: set<string>, closedFds: seq<int>,
    book: B.Book, paused: bool, loop: map<int, Interest>, listener: int,
    sends: seq<SendOutcome>, orders: seq<seq<int>>, kernel: Kernel, hist: History)

  function Initial(listener: int, sends: seq<SendOutcome>, orders: seq<seq<int>>): State {
    State(map[], map[], {}, [], B.EMPTY_BOOK, false, map[listener := Interest(true, false)], listener, sends, orders,
          Kernel(map[], [], [], false), History([], [], [], map[], [], []))
  }

  /** The connection a descriptor denotes. */
  function Who(s: State, fd: int): nat {
    if fd in s.kernel.table then s.kernel.table[fd] else |s.kernel.wire|
  }

  function Update(s: State, fd: int, ses: Session): State {
    s.(sessions := s.sessions[fd := ses])
  }

  function BookStep(s: State, op: B.Op): State {
    s.(book := B.Apply(s.book, op).book, hist := s.hist.(ops := s.hist.ops + [op]))
  }

  function SubscribersOf(s: State, instrument: string): set<int> {
    if instrument in s.subscribers then s.subscribers[instrument] else {}
  }

  // ----- unordered containers

  function Least(xs: set<int>): (x: int)
    requires xs != {}
    ensures x in xs
  {
    LeastExists(xs);
    var x :| x in xs && forall y :: y in xs ==> x <= y;
    x
  }

  lemma {:induction false} LeastExists(xs: set<int>)
    ensures xs == {} || exists x :: x in xs && forall y :: y in xs ==> x <= y
    decreases |xs|
  {
    OrderBooks.SomeKey(xs);
    if xs != {} {
      var x :| x in xs;
      var rest := xs - {x};
      LeastExists(rest);
      if rest == {} {
        assert xs == {x};
      } else {
        var m :| m in rest && forall y :: y in rest ==> m <= y;
        var least := if x < m then x else m;
        assert forall y :: y in xs ==> y == x || y in rest;
        assert least in xs && forall y :: y in xs ==> least <= y;
      }
    }
  }

  /** Some order in which an unordered set is walked: any order is the result of some hint. */
  function Enumerate(hint: seq<int>, xs: set<int>): seq<int>
    decreases |hint|, |xs|
  {
    if xs == {} then []
    else if hint == [] then [Least(xs)] + Enumerate([], xs - {Least(xs)})
    else if hint[0] in xs then [hint[0]] + Enumerate(hint[1..], xs - {hint[0]})
    else Enumerate(hint[1..], xs)
  }

  function Hint(s: State): seq<int> {
    if s.orders == [] then [] else s.orders[0]
  }

  function NextHint(s: State): State {
    if s.orders == [] then s else s.(orders := s.orders[1..])
  }

  // ----- connection lifecycle

  /** Erases fd from the subscriber sets of the given instruments. */
  function Unsubscribed(subscribers: map<string, set<int>>, instruments: set<string>, fd: int): map<string, set<int>> {
    map i | i in subscribers.Keys + instruments ::
      (if i in subscribers then subscribers[i] else {}) - (if i in instruments then {fd} else {})
  }

  function Drop(s: State, fd: int): State {
    if fd !in s.sessions then s
    else
      var ses := s.sessions[fd];
      var t := BookStep(s, B.RemoveOwner(fd));
      t.(sessions := s.sessions - {fd},
         subscribers := Unsubscribed(s.subscribers, ses.subscriptions, fd),
         usernames := if ses.loggedIn then s.usernames - {ses.username} else s.usernames,
         loop := s.loop - {fd},
         closedFds := s.closedFds + [fd])
  }

  function PauseAccepting(s: State): State {
    if s.paused then s else s.(paused := true, loop := s.loop[s.listener := Interest(false, false)])
  }

  function ResumeAccepting(s: State, due: bool): State {
    if !s.paused || !due then s else s.(paused := false, loop := s.loop[s.listener := Interest(true, false)])
  }

  /** A fresh connection: its descriptor, its session and its empty logs. */
  function Admit(s: State, fd: int): State {
    var h := s.hist;
    s.(kernel := OpenFd(s.kernel, fd),
       sessions := if fd in s.sessions then s.sessions else s.sessions[fd := NewSession(fd)],
       hist := h.(queued := h.queued + [[]], chunks := h.chunks + [[]], handled := h.handled + [[]]))
  }

  function AcceptPending(s: State, accepts: seq<AcceptOutcome>): State
    decreases |accepts|
  {
    if accepts == [] then s
    else match accepts[0]
      case Connected(fd, registered) =>
        if fd < 0 || fd == s.listener || fd in s.kernel.table then s
        else
          var t := Admit(s, fd);
          if registered then AcceptPending(t.(loop := t.loop[fd := Interest(true, false)]), accepts[1..])
          else AcceptPending(t.(sessions := t.sessions - {fd}, kernel := Close(t.kernel, fd)), accepts[1..])
      case AcceptWouldBlock => s
      case Exhausted => PauseAccepting(s)
      case AcceptFailed => s
  }

  function ReapClosed(s: State): State {
    s.(kernel := CloseAll(s.kernel, s.closedFds), closedFds := [])
  }

  function ShutdownAll(s: State): State {
    var t := NextHint(s);
    ReapClosed(t.(kernel := CloseAll(s.kernel, Enumerate(Hint(s), s.sessions.Keys)), sessions := map[]))
  }

  // ----- output path

  datatype Writing = Writing(count: nat, rest: seq<SendOutcome>, failed: bool)

  /** How far the socket lets a flush go. */
  function WriteOut(pending: nat, sends: seq<SendOutcome>): (w: Writing)
    ensures w.count <= pending
    decreases |sends|
  {
    if pending == 0 || sends == [] then Writing(0, sends, false)
    else match sends[0]
      case Wrote(count) =>
        if count == 0 then Writing(0, sends[1..], true)
        else
          var n := if count < pending then count else pending;
          var w := WriteOut(pending - n, sends[1..]);
          w.(count := n + w.count)
      case SendInterrupted => WriteOut(pending, sends[1..])
      case SendWouldBlock => Writing(0, sends[1..], false)
      case SendFailed => Writing(0, sends[1..], true)
  }

  function Advanced(ses: Session, n: nat): Session
    requires n <= Pending(ses)
  {
    ses.(outStart := ses.outStart + n)
  }

  /** The operating system after a flush has handed over part of the output. */
  function Handed(k: Kernel, fd: int, bytes: string): Kernel {
    if bytes == "" then k else Transmit(k, fd, bytes)
  }

  function Written(s: State, fd: int, w: Writing): State
    requires fd in s.sessions && w.count <= Pending(s.sessions[fd])
  {
    var ses := s.sessions[fd];
    s.(sends := w.rest, kernel := Handed(s.kernel, ses.fd, Unsent(ses)[..w.count]),
       sessions := s.sessions[fd := Advanced(ses, w.count)])
  }

  /** Reclaims the consumed prefix of the output buffer. */
  function Compact(ses: Session): Session {
    if Pending(ses) == 0 then ses.(outbuf := "", outStart := 0)
    else if ses.outStart > READ_CHUNK then ses.(outbuf := Unsent(ses), outStart := 0)
    else ses
  }

  /** Registered interest after a flush: reading unless closing, writing as long as output is pending. */
  function Wanted(ses: Session): Interest {
    Interest(!ses.closing, Pending(ses) > 0)
  }

  /** A session is given up on when it will not drain, and is finished when it is closing and has drained. */
  predicate Finished(ses: Session) {
    Pending(ses) > MAX_OUTPUT || (Pending(ses) == 0 && ses.closing)
  }

  function Rearmed(ses: Session): Session {
    var want := Wanted(ses);
    ses.(backlogged := Pending(ses) > 0, readInterest := want.read, writeInterest := want.write)
  }

  function Settle(s: State, fd: int): State
    requires fd in s.sessions
  {
    var ses := Compact(s.sessions[fd]);
    if Finished(ses) then Drop(Update(s, fd, ses), ses.fd)
    else
      var changed := Wanted(ses) != Interest(ses.readInterest, ses.writeInterest);
      Update(s, fd, Rearmed(ses)).(loop := if changed then s.loop[ses.fd := Wanted(ses)] else s.loop)
  }

  function Flush(s: State, fd: int): State
    requires fd in s.sessions
  {
    var w := WriteOut(Pending(s.sessions[fd]), s.sends);
    var t := Written(s, fd, w);
    if w.failed then Drop(t, s.sessions[fd].fd) else Settle(t, fd)
  }

  function Enqueue(s: State, fd: int, r: Response): State
    requires fd in s.sessions
  {
    var ses := s.sessions[fd];
    var t := Update(s, fd, ses.(outbuf := ses.outbuf + Render(r)));
    t.(hist := s.hist.(queued := Extend(s.hist.queued, Who(s, fd), [r])))
  }

  function SendTo(s: State, fd: int, r: Response): State {
    if fd !in s.sessions then s else Flush(Enqueue(s, fd, r), fd)
  }

  // ----- protocol

  function Closing(s: State, fd: int): State
    requires fd in s.sessions
  {
    Update(s, fd, s.sessions[fd].(closing := true, inbuf := ""))
  }

  /** Stops reading, and keeps the session only as long as it has output to write. */
  function BeginOrderlyClose(s: State, fd: int): State {
    if fd !in s.sessions then s
    else
      var t := Closing(s, fd);
      if Pending(t.sessions[fd]) == 0 then Drop(t, fd)
      else Update(t, fd, t.sessions[fd].(readInterest := false, writeInterest := true))
             .(loop := s.loop[fd := Interest(false, true)])
  }

  predicate WrongRole(s: State, fd: int, required: ClientRole)
    requires fd in s.sessions
  {
    s.sessions[fd].role != Undecided && s.sessions[fd].role != required
  }

  function Refuse(s: State, fd: int, reason: Reason): State {
    SendTo(s, fd, Error(reason))
  }

  function HandleLogin(s: State, fd: int, cmd: ParsedCommand): State
    requires fd in s.sessions && |cmd.args| == 1
  {
    var ses := s.sessions[fd];
    var username := cmd.args[0];
    if WrongRole(s, fd, Trader) then Refuse(s, fd, NotPermitted(cmd.kind, ses.role))
    else if ses.loggedIn then Refuse(s, fd, AlreadyLoggedIn(ses.username))
    else if username in s.usernames then Refuse(s, fd, UsernameTaken(username))
    else SendTo(LoggedIn(s, fd, username), fd, Ok)
  }

  function LoggedIn(s: State, fd: int, username: string): State
    requires fd in s.sessions
  {
    Update(s, fd, s.sessions[fd].(role := Trader, username := username, loggedIn := true))
      .(usernames := s.usernames + {username})
  }

  function HandleSubscription(s: State, fd: int, cmd: ParsedCommand): State
    requires fd in s.sessions
  {
    var ses := s.sessions[fd];
    if WrongRole(s, fd, MarketData) then Refuse(s, fd, NotPermitted(cmd.kind, ses.role))
    else if cmd.kind != Subscribe && cmd.instrument !in ses.subscriptions then Refuse(s, fd, NotSubscribed(cmd.instrument))
    else SendTo(if cmd.kind == Subscribe then Subscribed(s, fd, cmd.instrument) else Departed(s, fd, cmd.instrument), fd, Ok)
  }

  /** A market-data session's subscriptions and the subscriber set of one instrument, changed together. */
  function Enrolled(s: State, fd: int, instrument: string, subscriptions: set<string>, members: set<int>, note: Note): State
    requires fd in s.sessions
  {
    Update(s, fd, s.sessions[fd].(role := MarketData, subscriptions := subscriptions))
      .(subscribers := s.subscribers[instrument := members], hist := s.hist.(tape := s.hist.tape + [note]))
  }

  function Subscribed(s: State, fd: int, instrument: string): State
    requires fd in s.sessions
  {
    Enrolled(s, fd, instrument, s.sessions[fd].subscriptions + {instrument}, SubscribersOf(s, instrument) + {fd},
             Joined(Who(s, fd), instrument))
  }

  function Departed(s: State, fd: int, instrument: string): State
    requires fd in s.sessions
  {
    Enrolled(s, fd, instrument, s.sessions[fd].subscriptions - {instrument}, SubscribersOf(s, instrument) - {fd},
             Parted(Who(s, fd), instrument))
  }

  /** What stops a client from trading, if anything does. */
  function TradingBar(s: State, fd: int, kind: CommandType): seq<Reason>
    requires fd in s.sessions
  {
    if WrongRole(s, fd, Trader) then [NotPermitted(kind, s.sessions[fd].role)]
    else if !s.sessions[fd].loggedIn then [NotLoggedIn]
    else []
  }

  function OrderOp(fd: int, cmd: ParsedCommand): B.Op {
    B.Add(fd, cmd.instrument, if cmd.kind == BuyCommand then B.Buy else B.Sell, cmd.quantity, cmd.price)
  }

  function Submitted(s: State, fd: int, op: B.Op): State {
    BookStep(s.(hist := s.hist.(submitter := s.hist.submitter[s.book.nextId := Who(s, fd)])), op)
  }

  function HandleOrder(s: State, fd: int, cmd: ParsedCommand): State
    requires fd in s.sessions
  {
    var bar := TradingBar(s, fd, cmd.kind);
    if bar != [] then Refuse(s, fd, bar[0])
    else
      var op := OrderOp(fd, cmd);
      var executions := OrderBooks.Executions(B.Apply(s.book, op).fills);
      PublishAll(SendTo(Submitted(s, fd, op), fd, OrderAccepted(s.book.nextId)), fd, executions)
  }

  /** Publishing stops when the submitter is gone, although the book has already changed. */
  function PublishAll(s: State, fd: int, executions: seq<OrderBooks.TradeExecution>): State
    decreases |executions|
  {
    if executions == [] then s
    else
      var t := Publish(s, executions[0]);
      if fd !in t.sessions then t else PublishAll(t, fd, executions[1..])
  }

  function Notified(s: State, x: OrderBooks.TradeExecution): State {
    var t := SendTo(s, x.buyer, Bought(x.instrument, x.quantity, x.price));
    SendTo(t, x.seller, Sold(x.instrument, x.quantity, x.price))
  }

  function Announce(s: State, x: OrderBooks.TradeExecution): State {
    s.(hist := s.hist.(tape := s.hist.tape + [Announced(x.instrument, x.quantity, x.price)]))
  }

  function Spread(s: State, x: OrderBooks.TradeExecution): State {
    if x.instrument !in s.subscribers then s
    else FanOut(NextHint(s), Enumerate(Hint(s), s.subscribers[x.instrument]), Trade(x.instrument, x.quantity, x.price))
  }

  /** Tells the buyer, then the seller, then every subscriber. */
  function Publish(s: State, x: OrderBooks.TradeExecution): State {
    Spread(Announce(Notified(s, x), x), x)
  }

  /** Delivers to a copy of the subscriber set, so that drops on the way do not disturb it. */
  function FanOut(s: State, targets: seq<int>, r: Response): State
    decreases |targets|
  {
    if targets == [] then s else FanOut(SendTo(s, targets[0], r), targets[1..], r)
  }

  function HandleCancel(s: State, fd: int, cmd: ParsedCommand): State
    requires fd in s.sessions
  {
    var bar := TradingBar(s, fd, cmd.kind);
    if bar != [] then Refuse(s, fd, bar[0])
    else SendTo(BookStep(s, B.Cancel(cmd.orderId, fd)), fd, CancelAnswer(s.book, fd, cmd.orderId))
  }

  function CancelAnswer(b: B.Book, fd: int, id: int): Response {
    if B.Select(b.resting, B.Own(id, fd)) != [] then OrderCancelled(id)
    else if exists i :: 0 <= i < |b.resting| && b.resting[i].id == id then Error(AnothersOrder(id))
    else Error(NoSuchOrder(id))
  }

  function HandleCommand(s: State, fd: int, cmd: ParsedCommand): State
    requires fd in s.sessions && WellParsed(cmd)
  {
    if !cmd.valid then Refuse(s, fd, cmd.error)
    else match cmd.kind
      case Quit => BeginOrderlyClose(s, fd)
      case Login => HandleLogin(s, fd, cmd)
      case Subscribe => HandleSubscription(s, fd, cmd)
      case Unsubscribe => HandleSubscription(s, fd, cmd)
      case BuyCommand => HandleOrder(s, fd, cmd)
      case SellCommand => HandleOrder(s, fd, cmd)
      case CancelCommand => HandleCancel(s, fd, cmd)
      case Unknown => Refuse(s, fd, UnknownCommand)
  }

  function HandleMessage(s: State, fd: int, line: string): State
    requires fd in s.sessions
  {
    ParseWellParsed(line);
    HandleCommand(s, fd, Parse(line))
  }

  // ----- what a response can disturb

  /** The parts of a session that output never touches. */
  predicate SameClient(a: Session, b: Session) {
    && a.fd == b.fd && a.role == b.role && a.inbuf == b.inbuf && a.closing == b.closing
    && a.username == b.username && a.loggedIn == b.loggedIn && a.subscriptions == b.subscriptions
  }

  /** Everything outside one connection, and of that connection everything but its output, is as before. */
  ghost predicate OnlyOutput(s: State, t: State, fd: int) {
    && t.listener == s.listener && t.paused == s.paused
    && t.kernel.table == s.kernel.table && t.kernel.closed == s.kernel.closed
    && t.hist.chunks == s.hist.chunks && t.hist.handled == s.hist.handled
    && t.hist.submitter == s.hist.submitter && t.hist.tape == s.hist.tape
    && |t.kernel.wire| == |s.kernel.wire| && |t.hist.queued| == |s.hist.queued|
    && (forall w :: 0 <= w < |s.kernel.wire| && w != Who(s, fd) ==> t.kernel.wire[w] == s.kernel.wire[w])
    && t.sessions.Keys <= s.sessions.Keys <= t.sessions.Keys + {fd}
    && (forall x :: x in t.sessions && x != fd ==> t.sessions[x] == s.sessions[x])
    && (fd in t.sessions ==> SameClient(t.sessions[fd], s.sessions[fd]))
  }

  predicate Keyed(s: State) {
    forall fd :: fd in s.sessions ==> s.sessions[fd].fd == fd
  }

  lemma OutputChains(s: State, t: State, u: State, fd: int)
    requires OnlyOutput(s, t, fd) && OnlyOutput(t, u, fd)
    ensures OnlyOutput(s, u, fd)
  {
  }

  lemma DropFrame(s: State, fd: int)
    ensures OnlyOutput(s, Drop(s, fd), fd) && Drop(s, fd).hist.queued == s.hist.queued
  {
    hide B.Apply;
  }

  lemma WrittenFrame(s: State, fd: int, w: Writing)
    requires fd in s.sessions && w.count <= Pending(s.sessions[fd]) && Keyed(s)
    ensures var t := Written(s, fd, w); OnlyOutput(s, t, fd) && t.hist == s.hist && Keyed(t) && fd in t.sessions
  {
  }

  lemma UpdateFrame(s: State, fd: int, ses: Session)
    requires fd in s.sessions && SameClient(ses, s.sessions[fd])
    ensures OnlyOutput(s, Update(s, fd, ses), fd)
  {
  }

  lemma SettleFrame(s: State, fd: int)
    requires fd in s.sessions && Keyed(s)
    ensures OnlyOutput(s, Settle(s, fd), fd) && Settle(s, fd).hist.queued == s.hist.queued
  {
    var ses := Compact(s.sessions[fd]);
    assert SameClient(ses, s.sessions[fd]) && SameClient(Rearmed(ses), s.sessions[fd]);
    hide Drop, Compact, Wanted, Rearmed, Finished, SameClient;
    UpdateFrame(s, fd, ses);
    UpdateFrame(s, fd, Rearmed(ses));
    DropFrame(Update(s, fd, ses), fd);
    OutputChains(s, Update(s, fd, ses), Drop(Update(s, fd, ses), fd), fd);
  }

  /** A flush disturbs no connection but its own. */
  lemma FlushFrame(s: State, fd: int)
    requires fd in s.sessions && Keyed(s)
    ensures OnlyOutput(s, Flush(s, fd), fd) && Flush(s, fd).hist.queued == s.hist.queued
  {
    hide Drop, Settle, Written, WriteOut, OnlyOutput;
    var w := WriteOut(Pending(s.sessions[fd]), s.sends);
    var t := Written(s, fd, w);
    WrittenFrame(s, fd, w);
    DropFrame(t, fd);
    SettleFrame(t, fd);
    OutputChains(s, t, Flush(s, fd), fd);
  }

  lemma EnqueueFrame(s: State, fd: int, r: Response)
    requires fd in s.sessions && Keyed(s)
    ensures var t := Enqueue(s, fd, r); OnlyOutput(s, t, fd) && Keyed(t) && fd in t.sessions && Who(t, fd) == Who(s, fd)
  {
  }

  /** A response disturbs no connection but the one it is for, and is queued there exactly once. */
  lemma SendToFrame(s: State, fd: int, r: Response)
    requires Keyed(s)
    ensures OnlyOutput(s, SendTo(s, fd, r), fd)
    ensures SendTo(s, fd, r).hist.queued ==
            if fd in s.sessions then Extend(s.hist.queued, Who(s, fd), [r]) else s.hist.queued
  {
    if fd in s.sessions {
      hide Flush, OnlyOutput, Keyed;
      EnqueueFrame(s, fd, r);
      FlushFrame(Enqueue(s, fd, r), fd);
      OutputChains(s, Enqueue(s, fd, r), SendTo(s, fd, r), fd);
    }
  }
}
