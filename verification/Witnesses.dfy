/** Two concrete runs, each of which shows the server doing what its comments do not say. */
module Witnesses {
  import opened Protocol
  import opened Framing
  import opened Sockets
  import opened Exchange
  import opened Loop
  import opened Invariants
  import opened Announcements
  import opened Safety
  import opened Effects
  import D = Decimal
  import Output
  import Inputs
  import Lifetimes
  import OrderBooks
  import P = Publishing
  import B = Book

  const LISTENER := 3

  // ----- one line of one client

  /** A turn in which one client's line arrives. */
  function Says(fd: int, line: string): Batch {
    Batch([Ready(Event(fd, true, false, false), [Received(line + "\n")], [])], false)
  }

  /** The line is in the logs of what was received and handled; nothing has been done about it yet. */
  function Noted(s: State, fd: int, line: string): State {
    s.(hist := s.hist.(chunks := Extend(s.hist.chunks, Who(s, fd), [line + "\n"]),
                       handled := Extend(s.hist.handled, Who(s, fd), [line])))
  }

  predicate Waiting(s: State, fd: int) {
    fd in s.sessions && !s.sessions[fd].closing && s.sessions[fd].inbuf == ""
  }

  lemma LineTaken(s: State, fd: int, line: string)
    requires Waiting(s, fd) && Plain(line)
    ensures var t := Receive(s, fd, line + "\n");
            && Newline(t.sessions[fd].inbuf) < |t.sessions[fd].inbuf|
            && FirstLine(t.sessions[fd].inbuf) == line
            && TakeLine(t, fd) == Noted(s, fd, line)
  {
    hide Newline, FirstLine, AfterLine, Plain, Extend;
    var bytes := line + "\n";
    LineOf(line);
    assert "" + bytes == bytes;
    var t := Receive(s, fd, bytes);
    assert TakeLine(t, fd).sessions == s.sessions;
  }

  lemma LineOf(line: string)
    requires Plain(line)
    ensures var bytes := line + "\n";
            Newline(bytes) < |bytes| && FirstLine(bytes) == line && AfterLine(bytes) == ""
  {
    var bytes := line + "\n";
    assert bytes[..|line|] == line && bytes[|line| + 1..] == "";
    NewlineIs(bytes, |line|);
    assert StripCr(line) == line;
  }

  lemma OneLineConsumed(s: State, fd: int, line: string)
    requires Keyed(s) && Waiting(s, fd) && Plain(line)
    ensures Keyed(Receive(s, fd, line + "\n"))
    ensures ConsumeMessages(Receive(s, fd, line + "\n"), fd).state == HandleMessage(Noted(s, fd, line), fd, line)
  {
    hide HandleMessage, Newline, Noted, TakeLine;
    var t := Receive(s, fd, line + "\n");
    assert Keyed(t);
    LineTaken(s, fd, line);
    NotedKeyed(s, fd, line);
    var u := HandleMessage(Noted(s, fd, line), fd, line);
    HandleMessageOnward(Noted(s, fd, line), fd, line);
    hide Keyed, Onward, Receive;
    NewlineIs("", 0);
  }

  lemma NotedKeyed(s: State, fd: int, line: string)
    requires Keyed(s)
    ensures Keyed(Noted(s, fd, line)) && Noted(s, fd, line).sessions == s.sessions
  {
  }

  /** A turn with one short line in it is the handling of that line. */
  lemma SaysIsHandled(s: State, fd: int, line: string)
    requires Invariant(s) && Keyed(s) && Waiting(s, fd) && Plain(line) && |line| + 1 < READ_CHUNK
    ensures Turn(s, Says(fd, line)) == ReapClosed(HandleMessage(Noted(s, fd, line), fd, line))
  {
    hide HandleMessage, ReapClosed, ConsumeMessages, Receive, Noted, Keyed, Invariant;
    var r := Ready(Event(fd, true, false, false), [Received(line + "\n")], []);
    OneLineConsumed(s, fd, line);
    RegisteredSession(s, fd);
    assert Reported([r], s.loop) == [r] by { assert [r][1..] == []; }
    assert ProcessAll(s, [r]) == ProcessEvent(s, r) by { assert [r][1..] == []; }
    assert OnReadable(s, fd, r.recvs) == ConsumeMessages(Receive(s, fd, line + "\n"), fd).state;
  }

  lemma RegisteredSession(s: State, fd: int)
    requires Invariant(s) && fd in s.sessions
    ensures fd in s.loop && fd != s.listener
  {
    hide Inputs.InputExcept, Tables, Output.Streams, Tape, Wanted, Finished;
    assert Output.AtRest(s, fd);
  }

  // ----- three clients

  /** What there is to know about a state in which three clients have been served so far and nothing is pending. */
  datatype Scene = Scene(traders: set<int>, names: set<string>, ops: seq<B.Op>, sends: seq<SendOutcome>,
                         mail: map<int, seq<Response>>)

  predicate Calm(ses: Session) {
    !ses.closing && ses.inbuf == "" && Pending(ses) == 0 && ses.role != MarketData
  }

  ghost predicate Looks(s: State, sc: Scene) {
    && s.sessions.Keys == {4, 5, 6} && s.closedFds == []
    && s.usernames == sc.names && s.hist.ops == sc.ops && s.sends == sc.sends
    && forall x :: x in s.sessions ==> Seated(s, sc, x)
  }

  predicate Seated(s: State, sc: Scene, x: int) {
    && x in s.sessions && Calm(s.sessions[x]) && (s.sessions[x].loggedIn <==> x in sc.traders)
    && x in sc.mail && Mail(s, x) == sc.mail[x]
  }

  ghost predicate Shows(s: State, sc: Scene) {
    Invariant(s) && Keyed(s) && Looks(s, sc)
  }

  /** A socket that takes a whole response leaves nothing pending. */
  lemma SendWritten(s: State, fd: int, r: Response)
    requires Keyed(s) && fd in s.sessions && Pending(s.sessions[fd]) == 0 && !s.sessions[fd].closing
    requires s.sends != [] && s.sends[0] == Wrote(|Render(r)|)
    ensures var t := SendTo(s, fd, r);
            && fd in t.sessions && Pending(t.sessions[fd]) == 0 && t.sends == s.sends[1..]
            && t.usernames == s.usernames && t.hist.ops == s.hist.ops && t.closedFds == s.closedFds
  {
    hide Drop, Text, Transmit, WriteOut;
    var u := Enqueue(s, fd, r);
    assert |Render(r)| > 0;
    WholeWrite(|Render(r)|, s.sends);
    hide Render;
    assert Pending(u.sessions[fd]) == |Render(r)|;
    CompactKeeps(Written(u, fd, WriteOut(|Render(r)|, s.sends)).sessions[fd]);
  }

  lemma WholeWrite(n: nat, sends: seq<SendOutcome>)
    requires n > 0 && sends != [] && sends[0] == Wrote(n)
    ensures WriteOut(n, sends) == Writing(n, sends[1..], false)
  {
    assert WriteOut(n - n, sends[1..]) == Writing(0, sends[1..], false);
  }

  /** The scene after a response that the socket takes. */
  function Replied(sc: Scene, fd: int, r: Response): Scene
    requires sc.sends != [] && fd in sc.mail
  {
    sc.(sends := sc.sends[1..], mail := sc.mail[fd := sc.mail[fd] + [r]])
  }

  lemma SendLooks(s: State, sc: Scene, fd: int, r: Response)
    requires Looks(s, sc) && Keyed(s) && Apart(s) && fd in s.sessions
    requires sc.sends != [] && sc.sends[0] == Wrote(|Render(r)|)
    ensures fd in sc.mail && Looks(SendTo(s, fd, r), Replied(sc, fd, r))
  {
    assert Seated(s, sc, fd);
    SendWritten(s, fd, r);
    hide SendTo, Render, Apart, Keyed, Seated;
    SendToFrame(s, fd, r);
    var t := SendTo(s, fd, r);
    forall x | x in t.sessions ensures Seated(t, Replied(sc, fd, r), x) {
      SendSeated(s, sc, fd, r, x);
    }
    hide OnlyOutput;
    assert t.sessions.Keys == {4, 5, 6} by { SendKeys(s, fd, r); }
  }

  lemma SendKeys(s: State, fd: int, r: Response)
    requires Keyed(s) && fd in SendTo(s, fd, r).sessions
    ensures SendTo(s, fd, r).sessions.Keys == s.sessions.Keys
  {
    hide SendTo, Keyed;
    SendToFrame(s, fd, r);
  }

  lemma SendSeated(s: State, sc: Scene, fd: int, r: Response, x: int)
    requires Seated(s, sc, x) && Keyed(s) && Apart(s) && sc.sends != [] && fd in sc.mail
    requires fd in SendTo(s, fd, r).sessions && Pending(SendTo(s, fd, r).sessions[fd]) == 0
    ensures Seated(SendTo(s, fd, r), Replied(sc, fd, r), x)
  {
    hide SendTo, Apart, Keyed, Mail, Pending;
    SendClient(s, fd, r, x);
    SendToMail(s, fd, r, x);
    assert Mail(s, x) + [] == Mail(s, x);
  }

  lemma SendClient(s: State, fd: int, r: Response, x: int)
    requires Apart(s) && x in s.sessions && fd in SendTo(s, fd, r).sessions
    ensures var t := SendTo(s, fd, r);
            && x in s.kernel.table && x in t.sessions && SameClient(t.sessions[x], s.sessions[x])
            && (x != fd ==> t.sessions[x] == s.sessions[x])
  {
    hide SendTo;
    SendToFrame(s, fd, r);
  }

  lemma NotedLooks(s: State, sc: Scene, fd: int, line: string)
    requires Shows(s, sc) && fd in s.sessions
    ensures var t := Noted(s, fd, line); Looks(t, sc) && Keyed(t) && Sound(t) && Tables(t) && t.book == s.book
  {
    hide Sound, Tables, Calm, Extend, Keyed, Inputs.InputExcept, Mail;
    var t := Noted(s, fd, line);
    NotedKeyed(s, fd, line);
    NotedSound(s, fd, line);
    SoundBasics(t);
    forall x | x in t.sessions ensures Seated(t, sc, x) {
      assert Seated(s, sc, x);
      NotedMail(s, fd, line, x);
    }
  }

  lemma NotedMail(s: State, fd: int, line: string, x: int)
    ensures Mail(Noted(s, fd, line), x) == Mail(s, x)
  {
  }

  lemma NotedSound(s: State, fd: int, line: string)
    requires Sound(s) && fd in s.sessions
    ensures Sound(Noted(s, fd, line))
  {
    hide Sound;
    var t := Noted(s, fd, line);
    assert t == Buffered(s, fd, s.sessions[fd].inbuf, t.hist.chunks, t.hist.handled);
    BufferSound(s, fd, s.sessions[fd].inbuf, t.hist.chunks, t.hist.handled);
  }

  lemma NothingToReap(s: State)
    requires s.closedFds == []
    ensures ReapClosed(s) == s
  {
  }

  /** What a line makes of a scene, when nobody is lost. */
  lemma LineShows(s: State, sc: Scene, next: Scene, fd: int, line: string)
    requires Shows(s, sc) && fd in s.sessions && Plain(line) && |line| + 1 < READ_CHUNK
    requires Looks(HandleMessage(Noted(s, fd, line), fd, line), next)
    ensures Shows(Turn(s, Says(fd, line)), next)
  {
    assert Seated(s, sc, fd);
    hide Invariant, Keyed, HandleMessage, Noted, Plain, Turn, Says, Mail;
    NothingToReap(HandleMessage(Noted(s, fd, line), fd, line));
    hide ReapClosed;
    SaysIsHandled(s, fd, line);
    TurnInvariant(s, Says(fd, line));
  }

  function LoginLine(name: string): string {
    Verb(Login) + (" " + name)
  }

  lemma ConcatPlain(a: string, b: string)
    requires Plain(a) && Plain(b)
    ensures Plain(a + (" " + b))
  {
  }

  lemma LoginLineRead(name: string)
    requires IsWord(name) && |name| <= MAX_USERNAME
    ensures var line := LoginLine(name); Plain(line) && |line| + 1 < READ_CHUNK && Parse(line) == Accepted(Login, [name])
  {
    WordPlain(name);
    LoginRoundTrip(name);
    ConcatPlain(Verb(Login), name);
    hide IsWord, Plain, Parse;
    assert Verb(Login) == "LOGIN";
  }

  /** The scene once a client has a name. */
  function Named(sc: Scene, fd: int, name: string): Scene {
    sc.(traders := sc.traders + {fd}, names := sc.names + {name})
  }

  /** A free name for a client that has none. */
  lemma LoginShows(s: State, sc: Scene, fd: int, name: string)
    requires Shows(s, sc) && fd in s.sessions && fd !in sc.traders && name !in sc.names && IsWord(name) && |name| <= MAX_USERNAME
    requires sc.sends != [] && sc.sends[0] == Wrote(|Render(Ok)|)
    ensures fd in sc.mail && Shows(Turn(s, Says(fd, LoginLine(name))), Replied(Named(sc, fd, name), fd, Ok))
  {
    hide Noted, Render, IsWord, Parse, Invariant, Sound, Tables, SendTo, Keyed, LoginLine, Mail, Plain, LoggedIn, Apart, Turn, Says;
    var line := LoginLine(name);
    var n := Noted(s, fd, line);
    LoginLineRead(name);
    WordPlain(name);
    NotedLooks(s, sc, fd, line);
    assert Seated(n, sc, fd);
    var u := LoggedIn(n, fd, name);
    LoggedInTables(n, fd, name);
    LoggedInLooks(n, sc, fd, name);
    TablesApart(u);
    hide Looks, Calm;
    SendLooks(u, Named(sc, fd, name), fd, Ok);
    assert HandleMessage(n, fd, line) == SendTo(u, fd, Ok);
    LineShows(s, sc, Replied(Named(sc, fd, name), fd, Ok), fd, line);
  }

  lemma LoggedInLooks(s: State, sc: Scene, fd: int, name: string)
    requires Looks(s, sc) && Keyed(s) && fd in s.sessions
    ensures var u := LoggedIn(s, fd, name); Looks(u, Named(sc, fd, name)) && Keyed(u) && fd in u.sessions
    ensures fd in sc.mail
  {
    hide Mail;
    var u := LoggedIn(s, fd, name);
    assert Seated(s, sc, fd);
    forall x | x in u.sessions ensures Seated(u, Named(sc, fd, name), x) {
      assert Seated(s, sc, x);
      assert Mail(u, x) == Mail(s, x) by { LoggedInMail(s, fd, name, x); }
    }
  }

  lemma LoggedInMail(s: State, fd: int, name: string, x: int)
    requires fd in s.sessions
    ensures Mail(LoggedIn(s, fd, name), x) == Mail(s, x)
  {
  }

  // ----- orders

  function OrderLine(buy: bool, quantity: nat): string {
    Verb(if buy then BuyCommand else SellCommand) + (" " + ("JNST" + (" " + (D.Print(quantity) + (" " + D.Print(1))))))
  }

  /** An order of so many at a price of one. */
  function Order(fd: int, buy: bool, quantity: nat): B.Op {
    B.Add(fd, "JNST", if buy then B.Buy else B.Sell, quantity, 1)
  }

  lemma OrderLinePlain(buy: bool, quantity: nat)
    requires quantity < 10
    ensures Plain(OrderLine(buy, quantity)) && |OrderLine(buy, quantity)| + 1 < READ_CHUNK
  {
    var verb, q, p := Verb(if buy then BuyCommand else SellCommand), D.Print(quantity), D.Print(1);
    assert |verb| < 10 && |q| == 1 && |p| == 1;
    PrintedWord(quantity);
    PrintedWord(1);
    WordPlain(q);
    WordPlain(p);
    InstrumentPlain("JNST");
    hide Plain, IsWord, D.Print, Verb;
    ConcatPlain(q, p);
    ConcatPlain("JNST", q + (" " + p));
    ConcatPlain(verb, "JNST" + (" " + (q + (" " + p))));
  }

  lemma OrderLineRead(fd: int, buy: bool, quantity: nat)
    requires 0 < quantity < 10
    ensures var cmd := Parse(OrderLine(buy, quantity));
            cmd.valid && cmd.kind == (if buy then BuyCommand else SellCommand) && OrderOp(fd, cmd) == Order(fd, buy, quantity)
  {
    hide Parse, D.Print, Verb;
    D.Pow10Of18();
    OrderRoundTrip(buy, "JNST", quantity, 1);
  }

  /** A logged-in client's order line is the handling of its order. */
  lemma OrderIsHandled(s: State, fd: int, buy: bool, quantity: nat)
    requires fd in s.sessions && s.sessions[fd].loggedIn && s.sessions[fd].role == Trader && 0 < quantity < 10
    ensures var line := OrderLine(buy, quantity);
            && HandleMessage(s, fd, line) == HandleOrder(s, fd, Parse(line))
            && TradingBar(s, fd, Parse(line).kind) == []
  {
    hide Parse, HandleOrder, OrderLine;
    OrderLineRead(fd, buy, quantity);
    ParseWellParsed(OrderLine(buy, quantity));
  }

  /** The scene once an order is in the book. */
  function Ordered(sc: Scene, op: B.Op): Scene {
    sc.(ops := sc.ops + [op])
  }

  lemma SubmittedLooks(s: State, sc: Scene, fd: int, op: B.Op)
    requires Looks(s, sc)
    ensures Looks(Submitted(s, fd, op), Ordered(sc, op))
  {
    hide B.Apply, Calm, Mail;
    var u := Submitted(s, fd, op);
    forall x | x in u.sessions ensures Seated(u, Ordered(sc, op), x) {
      assert Seated(s, sc, x);
      assert Mail(u, x) == Mail(s, x) by { SubmittedMail(s, fd, op, x); }
    }
  }

  lemma SubmittedMail(s: State, fd: int, op: B.Op, x: int)
    ensures Mail(Submitted(s, fd, op), x) == Mail(s, x)
  {
    hide B.Apply;
  }

  /** An order to sell one that meets nobody. */
  lemma SellShows(s: State, sc: Scene, fd: int)
    requires Shows(s, sc) && fd in s.sessions && fd in sc.traders
    requires var b := B.Run(sc.ops).book;
             && B.Apply(b, Order(fd, false, 1)).fills == []
             && sc.sends != [] && sc.sends[0] == Wrote(|Render(OrderAccepted(b.nextId))|)
    ensures fd in sc.mail
    ensures Shows(Turn(s, Says(fd, OrderLine(false, 1))),
                  Replied(Ordered(sc, Order(fd, false, 1)), fd, OrderAccepted(B.Run(sc.ops).book.nextId)))
  {
    hide Noted, Render, Parse, Invariant, Sound, Tables, SendTo, Keyed, OrderLine, Mail, Plain, Submitted, Apart, Turn, Says,
         B.Apply, B.Run, TradingBar, Calm;
    var line, op, r := OrderLine(false, 1), Order(fd, false, 1), OrderAccepted(B.Run(sc.ops).book.nextId);
    var n := Noted(s, fd, line);
    OrderLinePlain(false, 1);
    OrderLineRead(fd, false, 1);
    NotedLooks(s, sc, fd, line);
    assert Seated(n, sc, fd);
    BookOf(n);
    RoleOf(n, fd);
    OrderIsHandled(n, fd, false, 1);
    var u := Submitted(n, fd, op);
    SubmittedTables(n, fd, op);
    SubmittedLooks(n, sc, fd, op);
    SubmittedOnly(n, fd, op);
    TablesApart(u);
    assert Keyed(u) by { SubmittedOnward(n, fd, op); }
    hide Looks, Seated;
    SendLooks(u, Ordered(sc, op), fd, r);
    assert HandleMessage(n, fd, line) == SendTo(u, fd, r);
    LineShows(s, sc, Replied(Ordered(sc, op), fd, r), fd, line);
  }

  // ----- three connections

  function Arrival(): Batch {
    Batch([Ready(Event(LISTENER, true, false, false), [], [Connected(4, true), Connected(5, true), Connected(6, true)])], false)
  }

  function Three(s: State): State {
    Admitted(Admitted(Admitted(s, 4), 5), 6)
  }

  lemma AcceptOne(s: State, fd: int, rest: seq<AcceptOutcome>)
    requires fd >= 0 && Admissible(s, fd)
    ensures AcceptPending(s, [Connected(fd, true)] + rest) == AcceptPending(Admitted(s, fd), rest)
  {
    var accepts := [Connected(fd, true)] + rest;
    assert accepts[0] == Connected(fd, true) && accepts[1..] == rest;
  }

  lemma StillAdmissible(s: State, fd: int, x: int)
    requires Admissible(s, x) && x != fd
    ensures Admissible(Admitted(s, fd), x)
  {
  }

  lemma AcceptThree(s: State)
    requires s.kernel.table == map[] && s.listener == LISTENER
    ensures AcceptPending(s, Arrival().ready[0].accepts) == Three(s)
  {
    hide AcceptPending, Admitted;
    var c := Connected(6, true);
    StillAdmissible(s, 4, 5);
    StillAdmissible(s, 4, 6);
    StillAdmissible(Admitted(s, 4), 5, 6);
    AcceptOne(s, 4, [Connected(5, true), c]);
    AcceptOne(Admitted(s, 4), 5, [c]);
    AcceptOne(Admitted(Admitted(s, 4), 5), 6, []);
    assert [Connected(4, true)] + [Connected(5, true), c] == Arrival().ready[0].accepts;
    assert [Connected(5, true)] + [c] == [Connected(5, true), c] && [c] + [] == [c];
    AcceptNone(Three(s));
  }

  lemma AcceptNone(s: State)
    ensures AcceptPending(s, []) == s
  {
  }

  const NO_MAIL: map<int, seq<Response>> := map[4 := [], 5 := [], 6 := []]

  lemma ArrivalShows(sends: seq<SendOutcome>)
    ensures var s := Initial(LISTENER, sends, []);
            Keyed(s) && Shows(Turn(s, Arrival()), Scene({}, {}, [], sends, NO_MAIL))
  {
    hide Invariant, Three, Looks, Turn, Arrival;
    var s := Initial(LISTENER, sends, []);
    InitialInvariant(LISTENER, sends, []);
    TurnInvariant(s, Arrival());
    ArrivalTurn(s, sends);
    ThreeLooks(s, sends);
  }

  lemma ArrivalTurn(s: State, sends: seq<SendOutcome>)
    requires s == Initial(LISTENER, sends, []) && Keyed(s)
    ensures Turn(s, Arrival()) == Three(s)
  {
    hide AcceptPending, Admitted;
    AcceptThree(s);
    var r := Arrival().ready[0];
    assert Reported([r], s.loop) == [r] by { assert [r][1..] == []; }
    assert ProcessAll(s, [r]) == ProcessEvent(s, r) by { assert [r][1..] == []; }
    ThreeLooks(s, sends);
    NothingToReap(Three(s));
  }

  lemma ThreeLooks(s: State, sends: seq<SendOutcome>)
    requires s == Initial(LISTENER, sends, [])
    ensures Looks(Three(s), Scene({}, {}, [], sends, NO_MAIL)) && Three(s).closedFds == []
  {
    var t := Three(s);
    assert t.sessions == map[4 := NewSession(4), 5 := NewSession(5), 6 := NewSession(6)];
    assert t.hist.queued == [[], [], []];
  }

  // ----- a counterparty that is never told

  const SELLS := [Order(4, false, 1), Order(5, false, 1)]

  function Sale(id: int, fd: int): B.Order {
    B.Order(id, fd, "JNST", B.Sell, 1, 1)
  }

  lemma FirstSell()
    ensures B.Run([]).book == B.EMPTY_BOOK
    ensures B.Apply(B.EMPTY_BOOK, SELLS[0]).fills == [] && B.Run(SELLS[..1]).book == B.Book(2, [Sale(1, 4)])
  {
    var ops := SELLS[..1];
    assert ops == [SELLS[0]] && ops[..0] == [];
    assert B.Run(ops[..0]).book == B.EMPTY_BOOK;
  }

  lemma SecondSell()
    ensures B.Apply(B.Book(2, [Sale(1, 4)]), SELLS[1]).fills == []
    ensures B.Run(SELLS).book == B.Book(3, [Sale(1, 4), Sale(2, 5)])
  {
    FirstSell();
    var b, op := B.Book(2, [Sale(1, 4)]), SELLS[1];
    assert [Sale(1, 4)][1..] == [];
    var m := B.Match(b.resting, B.Taker(b, op));
    assert B.Match([], B.Taker(b, op)) == B.Matched([], 1, []);
    assert m == B.Matched([Sale(1, 4)], 1, []);
  }

  /** Buying both executes against the two sellers in turn. */
  lemma BuyBoth()
    ensures B.Apply(B.Book(3, [Sale(1, 4), Sale(2, 5)]), Order(6, true, 2)).fills ==
            [B.Fill(1, 3, 6, 4, "JNST", 1, 1), B.Fill(2, 3, 6, 5, "JNST", 1, 1)]
  {
    var b, op := B.Book(3, [Sale(1, 4), Sale(2, 5)]), Order(6, true, 2);
    var taker := B.Taker(b, op);
    assert b.resting[1..] == [Sale(2, 5)] && [Sale(2, 5)][1..] == [];
    var one := B.Reduced(taker, 1);
    assert B.Match([], B.Reduced(one, 1)).fills == [];
    assert B.Match([Sale(2, 5)], one).fills == [B.Fill(2, 3, 6, 5, "JNST", 1, 1)];
  }

  /** What has been executed stays so. */
  lemma {:induction false} FillsGrow(ops: seq<B.Op>, more: seq<B.Op>)
    requires ops <= more
    ensures B.Run(ops).fills <= B.Run(more).fills
    decreases |more|
  {
    if |ops| < |more| {
      FillsGrow(ops, more[..|more| - 1]);
    } else {
      assert ops == more;
    }
  }

  /** The buyer's socket fails on the acknowledgement: the second seller's order is filled, and it hears nothing. */
  lemma BuyerLost(s: State, sc: Scene)
    requires Shows(s, sc) && sc.traders == {4, 5, 6} && sc.ops == SELLS && sc.sends == [SendFailed]
    ensures var t := HandleMessage(Noted(s, 6, OrderLine(true, 2)), 6, OrderLine(true, 2));
            && 5 in t.sessions && 5 in sc.mail && Mail(t, 5) == sc.mail[5]
            && Since(SELLS + [Order(6, true, 2)], t) && Descriptors(t)
  {
    hide Noted, Parse, Invariant, Sound, Tables, Keyed, OrderLine, Mail, TradingBar, Calm, HandleOrder, Tolerates, B.Apply, B.Run,
         Since, Descriptors;
    var line := OrderLine(true, 2);
    var n, cmd := Noted(s, 6, line), Parse(line);
    OrderLineRead(6, true, 2);
    NotedLooks(s, sc, 6, line);
    assert Seated(n, sc, 5) && Seated(n, sc, 6);
    BookOf(n);
    RoleOf(n, 6);
    OrderIsHandled(n, 6, true, 2);
    SecondSell();
    BuyBoth();
    P.FailureNotTolerated(n.sessions[6], n.sends, OrderAccepted(n.book.nextId));
    NoPart(n, P.ExecutionsOf(n, 6, cmd)[0]);
    P.CounterpartyNotTold(n, 6, cmd, 5);
    TradingReachesBook(n, 6, cmd);
    OrderSound(n, 6, cmd);
    SoundDescriptors(HandleOrder(n, 6, cmd));
  }

  lemma SoundDescriptors(s: State)
    requires Sound(s)
    ensures Descriptors(s)
  {
  }

  lemma NoPart(s: State, e: OrderBooks.TradeExecution)
    requires Tables(s) && 5 in s.sessions && s.sessions[5].loggedIn && e.buyer != 5 && e.seller != 5
    ensures Notice(s, 5, e) == []
  {
    RoleOf(s, 5);
    assert s.sessions[5].fd == 5;
  }

  /** That turn, to its end. */
  lemma BuyTurn(s: State, sc: Scene)
    requires Shows(s, sc) && sc.traders == {4, 5, 6} && sc.ops == SELLS && sc.sends == [SendFailed]
    ensures var t := Turn(s, Says(6, OrderLine(true, 2)));
            && 5 in t.sessions && 5 in sc.mail && Mail(t, 5) == sc.mail[5]
            && B.Fill(2, 3, 6, 5, "JNST", 1, 1) in B.Run(t.hist.ops).fills
  {
    hide Noted, Invariant, Keyed, OrderLine, HandleMessage, Plain, Turn, Says, ReapClosed, Descriptors, B.Run, B.Apply;
    var line := OrderLine(true, 2);
    assert Seated(s, sc, 6);
    NotedKeyed(s, 6, line);
    var t := HandleMessage(Noted(s, 6, line), 6, line);
    OrderLinePlain(true, 2);
    SaysIsHandled(s, 6, line);
    BuyerLost(s, sc);
    Lifetimes.ReapWho(t);
    ThreeOrders();
    FillsGrow(SELLS + [Order(6, true, 2)], t.hist.ops);
    var fills := B.Run(SELLS + [Order(6, true, 2)]).fills;
    var i :| 0 <= i < |fills| && fills[i] == B.Fill(2, 3, 6, 5, "JNST", 1, 1);
    assert B.Run(t.hist.ops).fills[i] == fills[i];
  }

  lemma ThreeOrders()
    ensures B.Fill(2, 3, 6, 5, "JNST", 1, 1) in B.Run(SELLS + [Order(6, true, 2)]).fills
  {
    hide B.Apply;
    var ops := SELLS + [Order(6, true, 2)];
    assert ops[..2] == SELLS && ops[2] == Order(6, true, 2);
    SecondSell();
    BuyBoth();
    var last := B.Apply(B.Run(SELLS).book, ops[2]).fills;
    assert B.Run(ops).fills == B.Run(SELLS).fills + last;
    assert last[1] == B.Fill(2, 3, 6, 5, "JNST", 1, 1);
  }

  lemma TurnsOne(s: State, batches: seq<Batch>, b: Batch)
    requires Keyed(s)
    ensures Turns(s, batches + [b]) == Turn(Turns(s, batches), b)
  {
    hide Turn;
    assert (batches + [b])[..|batches|] == batches;
  }

  lemma TurnsNone(s: State)
    requires Keyed(s)
    ensures Turns(s, []) == s
  {
  }

  function WholeReply(r: Response): SendOutcome {
    Wrote(|Render(r)|)
  }

  function Answers(): seq<SendOutcome> {
    [WholeReply(Ok), WholeReply(Ok), WholeReply(Ok), WholeReply(OrderAccepted(1)), WholeReply(OrderAccepted(2)), SendFailed]
  }

  /** Three clients connect and log in. */
  lemma ThreeTraders() returns (batches: seq<Batch>)
    ensures Keyed(Initial(LISTENER, Answers(), []))
    ensures Shows(Turns(Initial(LISTENER, Answers(), []), batches),
                  Scene({4, 5, 6}, {"a", "b", "c"}, [], Answers()[3..], map[4 := [Ok], 5 := [Ok], 6 := [Ok]]))
  {
    hide Shows, Turn, Says, LoginLine, Arrival, Turns, Render;
    var s0 := Initial(LISTENER, Answers(), []);
    ArrivalShows(Answers());
    TurnsNone(s0);
    TurnsOne(s0, [], Arrival());
    batches := [] + [Arrival()];
    var sc := Scene({}, {}, [], Answers(), NO_MAIL);
    batches, sc := OneLogin(s0, batches, sc, 4, "a");
    batches, sc := OneLogin(s0, batches, sc, 5, "b");
    batches, sc := OneLogin(s0, batches, sc, 6, "c");
    var none: seq<Response> := [];
    assert none + [Ok] == [Ok];
    assert sc.mail == map[4 := [Ok], 5 := [Ok], 6 := [Ok]];
    assert sc.sends == Answers()[3..];
    assert sc.traders == {4, 5, 6} && sc.names == {"a", "b", "c"};
  }

  lemma OneLogin(s0: State, batches: seq<Batch>, sc: Scene, fd: int, name: string) returns (more: seq<Batch>, next: Scene)
    requires Keyed(s0) && Shows(Turns(s0, batches), sc) && fd in {4, 5, 6} && fd !in sc.traders && name !in sc.names
    requires IsWord(name) && |name| <= MAX_USERNAME && sc.sends != [] && sc.sends[0] == WholeReply(Ok)
    ensures fd in sc.mail && next == Replied(Named(sc, fd, name), fd, Ok) && Shows(Turns(s0, more), next)
  {
    hide Turn, Says, LoginLine, Turns, Render, IsWord, Invariant, Keyed;
    LoginShows(Turns(s0, batches), sc, fd, name);
    TurnsOne(s0, batches, Says(fd, LoginLine(name)));
    more := batches + [Says(fd, LoginLine(name))];
    next := Replied(Named(sc, fd, name), fd, Ok);
  }

  /** Two of them offer one each. */
  lemma TwoSellers() returns (batches: seq<Batch>)
    ensures Keyed(Initial(LISTENER, Answers(), []))
    ensures Shows(Turns(Initial(LISTENER, Answers(), []), batches),
                  Scene({4, 5, 6}, {"a", "b", "c"}, SELLS, [SendFailed],
                        map[4 := [Ok, OrderAccepted(1)], 5 := [Ok, OrderAccepted(2)], 6 := [Ok]]))
  {
    hide Shows, Turn, Says, OrderLine, Turns, Render, B.Run, B.Apply;
    var s0 := Initial(LISTENER, Answers(), []);
    batches := ThreeTraders();
    var sc := Scene({4, 5, 6}, {"a", "b", "c"}, [], Answers()[3..], map[4 := [Ok], 5 := [Ok], 6 := [Ok]]);
    FirstSell();
    SecondSell();
    batches, sc := OneSell(s0, batches, sc, 4);
    assert sc.ops == SELLS[..1] && [] + [SELLS[0]] == SELLS[..1];
    batches, sc := OneSell(s0, batches, sc, 5);
    assert sc.ops == SELLS && sc.sends == [SendFailed];
    assert [Ok] + [OrderAccepted(1)] == [Ok, OrderAccepted(1)] && [Ok] + [OrderAccepted(2)] == [Ok, OrderAccepted(2)];
    assert sc.mail == map[4 := [Ok, OrderAccepted(1)], 5 := [Ok, OrderAccepted(2)], 6 := [Ok]];
  }

  lemma OneSell(s0: State, batches: seq<Batch>, sc: Scene, fd: int) returns (more: seq<Batch>, next: Scene)
    requires Keyed(s0) && Shows(Turns(s0, batches), sc) && fd in {4, 5, 6} && fd in sc.traders
    requires var b := B.Run(sc.ops).book;
             && B.Apply(b, Order(fd, false, 1)).fills == []
             && sc.sends != [] && sc.sends[0] == WholeReply(OrderAccepted(b.nextId))
    ensures fd in sc.mail && Shows(Turns(s0, more), next)
    ensures next == Replied(Ordered(sc, Order(fd, false, 1)), fd, OrderAccepted(B.Run(sc.ops).book.nextId))
  {
    hide Turn, Says, OrderLine, Turns, Render, Invariant, Keyed, B.Run, B.Apply;
    SellShows(Turns(s0, batches), sc, fd);
    TurnsOne(s0, batches, Says(fd, OrderLine(false, 1)));
    more := batches + [Says(fd, OrderLine(false, 1))];
    next := Replied(Ordered(sc, Order(fd, false, 1)), fd, OrderAccepted(B.Run(sc.ops).book.nextId));
  }

  /**
  A run in which a seller's order is filled completely, the seller stays connected, and all it was ever
  queued are the answers to its login and to its order.
  */
  lemma TradedWithoutBeingTold() returns (batches: seq<Batch>)
    ensures Keyed(Initial(LISTENER, Answers(), []))
    ensures var t := Turns(Initial(LISTENER, Answers(), []), batches);
            && 5 in t.sessions && Mail(t, 5) == [Ok, OrderAccepted(2)]
            && B.Fill(2, 3, 6, 5, "JNST", 1, 1) in B.Run(t.hist.ops).fills
  {
    hide Shows, Turn, Says, OrderLine, Turns, Answers, B.Run, Mail;
    var s0 := Initial(LISTENER, Answers(), []);
    var before := TwoSellers();
    TurnsOne(s0, before, Says(6, OrderLine(true, 2)));
    BuyTurn(Turns(s0, before), Scene({4, 5, 6}, {"a", "b", "c"}, SELLS, [SendFailed],
                                     map[4 := [Ok, OrderAccepted(1)], 5 := [Ok, OrderAccepted(2)], 6 := [Ok]]));
    batches := before + [Says(6, OrderLine(true, 2))];
  }

  // ----- a refused client that is still there

  lemma RefusalFits()
    ensures 0 < |Render(Error(LineTooLong))| <= MAX_OUTPUT
  {
    assert |LineTooLongText()| < 100;
  }

  const FILLER: string := seq(MAX_LINE, _ => 'a')

  /** A new client of a server whose sockets take nothing sends one byte more than a line may have. */
  lemma RefusedButStillThere()
    ensures Keyed(Initial(LISTENER, [], []))
    ensures var s := Turn(Initial(LISTENER, [], []), Arrival());
            && 4 in s.sessions && Keyed(Receive(s, 4, FILLER))
            && var one := ConsumeMessages(Receive(s, 4, FILLER), 4);
               && one.more && 4 in one.state.sessions && Keyed(Receive(one.state, 4, "a"))
               && var two := ConsumeMessages(Receive(one.state, 4, "a"), 4);
                  !two.more && 4 in two.state.sessions
  {
    hide Turn, Arrival, Invariant, SendTo, Newline, Render, HandleMessage, BeginOrderlyClose, Mail;
    ArrivalShows([]);
    var s := Turn(Initial(LISTENER, [], []), Arrival());
    assert Seated(s, Scene({}, {}, [], [], NO_MAIL), 4);
    var t := Receive(s, 4, FILLER);
    assert "" + FILLER == FILLER;
    NewlineIs(FILLER, |FILLER|);
    assert ConsumeMessages(t, 4) == Consumed(t, true);
    var u := Receive(t, 4, "a");
    var inbuf := u.sessions[4].inbuf;
    NewlineIs(inbuf, |inbuf|);
    RefusalFits();
    OverfullTables(s, 4);
    OversizeIsRefused(u, 4);
  }

  lemma OverfullTables(s: State, fd: int)
    requires Invariant(s) && fd in s.sessions
    ensures var u := Receive(Receive(s, fd, FILLER), fd, "a"); Tables(u) && fd in u.kernel.table
  {
    hide Sound, Receive, Inputs.InputExcept, Tables;
    ReceiveKeepsSession(s, fd, FILLER);
    ReceiveSound(s, fd, FILLER);
    var t := Receive(s, fd, FILLER);
    ReceiveKeepsSession(t, fd, "a");
    ReceiveSound(t, fd, "a");
    SoundBasics(Receive(t, fd, "a"));
    P.LiveIsOpen(Receive(t, fd, "a"), fd);
  }

  lemma ReceiveKeepsSession(s: State, fd: int, bytes: string)
    requires fd in s.sessions
    ensures fd in Receive(s, fd, bytes).sessions
  {
  }
}
