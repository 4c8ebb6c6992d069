/** Commands by their words: which lines the parser accepts, and what the server does about each. */
module Requests {
  import opened Protocol
  import opened Exchange
  import opened Invariants
  import opened Announcements
  import opened Safety
  import opened Effects
  import opened Answers
  import D = Decimal
  import Framing
  import Sockets
  import P = Publishing
  import B = Book

  // ----- words

  const BLANKS := " \t\n\U{0B}\U{0C}\r"

  predicate IsBlank(s: string) {
    forall i :: 0 <= i < |s| ==> s[i] in BLANKS
  }

  /** Words with white space before, between and after them. */
  function Spread(words: seq<string>, gaps: seq<string>): string
    requires |gaps| == |words| + 1
  {
    if words == [] then gaps[0] else gaps[0] + (words[0] + Spread(words[1..], gaps[1..]))
  }

  predicate AllWords(words: seq<string>) {
    forall i :: 0 <= i < |words| ==> IsWord(words[i])
  }

  /** All gaps are blank, and only the outer two may be empty. */
  predicate Separate(words: seq<string>, gaps: seq<string>) {
    && |gaps| == |words| + 1
    && (forall i :: 0 <= i < |gaps| ==> IsBlank(gaps[i]))
    && (forall i :: 0 < i < |words| ==> gaps[i] != "")
  }

  lemma {:induction false} BlankSkipped(gap: string, rest: string)
    requires IsBlank(gap)
    ensures Tokens(gap + rest) == Tokens(rest)
    decreases |gap|
  {
    if gap == "" {
      assert gap + rest == rest;
    } else {
      assert gap[0] in BLANKS && IsSpace(gap[0]);
      assert (gap + rest)[1..] == gap[1..] + rest;
      BlankSkipped(gap[1..], rest);
    }
  }

  /** However they are separated, words are read as those words. */
  lemma {:induction false} WordsAreRead(words: seq<string>, gaps: seq<string>)
    requires AllWords(words) && Separate(words, gaps)
    ensures Tokens(Spread(words, gaps)) == words
    decreases |words|
  {
    hide Tokens, IsWord;
    assert IsBlank(gaps[0]);
    if words == [] {
      assert gaps[0] + "" == gaps[0];
      BlankSkipped(gaps[0], "");
      NoTokens();
    } else {
      var rest := Spread(words[1..], gaps[1..]);
      WordsAreRead(words[1..], gaps[1..]);
      BlankSkipped(gaps[0], words[0] + rest);
      GapFollows(words, gaps);
      FirstToken(words[0], rest);
    }
  }

  lemma NoTokens()
    ensures Tokens("") == []
  {
  }

  lemma GapFollows(words: seq<string>, gaps: seq<string>)
    requires words != [] && Separate(words, gaps)
    ensures var rest := Spread(words[1..], gaps[1..]); rest == "" || IsSpace(rest[0])
  {
    var gap := gaps[1];
    assert IsBlank(gap);
    assert gap != "" ==> gap[0] in BLANKS && IsSpace(gap[0]);
  }

  /** And every line is its own words, separated so. */
  lemma {:induction false} LineIsItsWords(line: string) returns (gaps: seq<string>)
    ensures AllWords(Tokens(line)) && Separate(Tokens(line), gaps) && line == Spread(Tokens(line), gaps)
    decreases |line|
  {
    var gap, t := SplitBlank(line);
    if t == "" {
      gaps := [gap];
      assert gap + t == gap;
    } else {
      var n := WordLength(t);
      var rest := t[n..];
      var more := LineIsItsWords(rest);
      assert t == t[..n] + rest;
      gaps := [gap] + more;
      var words := Tokens(line);
      assert words == [t[..n]] + Tokens(rest) && words[1..] == Tokens(rest) && gaps[1..] == more;
      FollowingGap(rest, more);
    }
  }

  lemma {:induction false} SplitBlank(line: string) returns (gap: string, t: string)
    ensures t == SkipSpaces(line) && line == gap + t && IsBlank(gap)
    decreases |line|
  {
    if line != "" && IsSpace(line[0]) {
      var g, u := SplitBlank(line[1..]);
      gap, t := [line[0]] + g, u;
      assert line == [line[0]] + line[1..];
      assert line[0] in BLANKS by { SpaceIsBlank(line[0]); }
    } else {
      gap, t := "", line;
    }
  }

  lemma SpaceIsBlank(c: char)
    requires IsSpace(c)
    ensures c in BLANKS
  {
    assert BLANKS[0] == ' ' && BLANKS[1] == '\t' && BLANKS[2] == '\n' && BLANKS[3] == '\U{0B}' && BLANKS[4] == '\U{0C}' && BLANKS[5] == '\r';
  }

  /** What follows a word begins with white space, so the gap before the next word is not empty. */
  lemma FollowingGap(rest: string, gaps: seq<string>)
    requires rest == "" || IsSpace(rest[0])
    requires Separate(Tokens(rest), gaps) && rest == Spread(Tokens(rest), gaps)
    ensures Tokens(rest) != [] ==> gaps[0] != ""
  {
    var words := Tokens(rest);
    if words != [] {
      assert IsWord(words[0]);
    }
  }

  // ----- the parser by its words

  /** One to eighteen decimal digits. */
  predicate Numeral(text: string) {
    1 <= |text| <= 18 && forall i :: 0 <= i < |text| ==> '0' <= text[i] <= '9'
  }

  predicate PositiveNumeral(text: string) {
    Numeral(text) && D.Value(text) > 0
  }

  predicate Listed(name: string) {
    name == "JNST" || name == "IMCT"
  }

  lemma NumeralIs(text: string)
    ensures D.IntegerOf(text) == if Numeral(text) then D.Some(D.Value(text)) else D.None
  {
  }

  /** The verbs, letter by letter. */
  lemma VerbsAre(word: string)
    ensures VerbOf(word) == Login <==> word == "LOGIN"
    ensures VerbOf(word) == BuyCommand <==> word == "BUY"
    ensures VerbOf(word) == SellCommand <==> word == "SELL"
    ensures VerbOf(word) == CancelCommand <==> word == "CANCEL"
    ensures VerbOf(word) == Subscribe <==> word == "SUBSCRIBE"
    ensures VerbOf(word) == Unsubscribe <==> word == "UNSUBSCRIBE"
    ensures VerbOf(word) == Quit <==> word == "QUIT"
  {
  }

  /** A line that says an order: what it is accepted as, or why it is refused. */
  lemma OrderWords(line: string, buy: bool)
    requires Tokens(line) != [] && Tokens(line)[0] == if buy then "BUY" else "SELL"
    ensures var ws, cmd := Tokens(line), Parse(line);
            && cmd.kind == (if buy then BuyCommand else SellCommand)
            && (cmd.valid <==> |ws| == 4 && Listed(ws[1]) && PositiveNumeral(ws[2]) && PositiveNumeral(ws[3]))
            && (cmd.valid ==> cmd.instrument == ws[1] && cmd.quantity == D.Value(ws[2]) && cmd.price == D.Value(ws[3]))
            && (!cmd.valid ==> cmd.error == if |ws| != 4 then Usage(cmd.kind) else OrderFault(ws))
  {
    VerbsAre(Tokens(line)[0]);
    hide Tokens, VerbOf, D.IntegerOf, D.Value, Numeral;
    var ws := Tokens(line);
    if |ws| == 4 {
      NumeralIs(ws[2]);
      NumeralIs(ws[3]);
    }
  }

  /** The first thing wrong with an order of the right length. */
  function OrderFault(ws: seq<string>): Reason
    requires |ws| == 4
  {
    if !Listed(ws[1]) then UnknownInstrument(ws[1]) else if !PositiveNumeral(ws[2]) then BadQuantity else BadPrice
  }

  lemma CancelWords(line: string)
    requires Tokens(line) != [] && Tokens(line)[0] == "CANCEL"
    ensures var ws, cmd := Tokens(line), Parse(line);
            && cmd.kind == CancelCommand
            && (cmd.valid <==> |ws| == 2 && Numeral(ws[1]))
            && (cmd.valid ==> cmd.orderId == D.Value(ws[1]))
            && (!cmd.valid ==> cmd.error == if |ws| != 2 then Usage(CancelCommand) else BadOrderId)
  {
    VerbsAre(Tokens(line)[0]);
    hide Tokens, VerbOf, D.IntegerOf, D.Value, Numeral;
    if |Tokens(line)| == 2 {
      NumeralIs(Tokens(line)[1]);
    }
  }

  lemma LoginWords(line: string)
    requires Tokens(line) != [] && Tokens(line)[0] == "LOGIN"
    ensures var ws, cmd := Tokens(line), Parse(line);
            && cmd.kind == Login
            && (cmd.valid <==> |ws| == 2 && |ws[1]| <= 64)
            && (cmd.valid ==> cmd.args == [ws[1]])
            && (!cmd.valid ==> cmd.error == if |ws| != 2 then Usage(Login) else UsernameTooLong)
  {
    VerbsAre(Tokens(line)[0]);
    hide Tokens, VerbOf;
  }

  lemma SubscriptionWords(line: string, subscribe: bool)
    requires Tokens(line) != [] && Tokens(line)[0] == if subscribe then "SUBSCRIBE" else "UNSUBSCRIBE"
    ensures var ws, cmd := Tokens(line), Parse(line);
            && cmd.kind == (if subscribe then Subscribe else Unsubscribe)
            && (cmd.valid <==> |ws| == 2 && Listed(ws[1]))
            && (cmd.valid ==> cmd.instrument == ws[1])
            && (!cmd.valid ==> cmd.error == if |ws| != 2 then Usage(cmd.kind) else UnknownInstrument(ws[1]))
  {
    VerbsAre(Tokens(line)[0]);
    hide Tokens, VerbOf;
  }

  lemma QuitWords(line: string)
    requires Tokens(line) != [] && Tokens(line)[0] == "QUIT"
    ensures var ws, cmd := Tokens(line), Parse(line);
            && cmd.kind == Quit
            && (cmd.valid <==> |ws| == 1)
            && (!cmd.valid ==> cmd.error == Usage(Quit))
  {
    VerbsAre(Tokens(line)[0]);
    hide Tokens, VerbOf;
  }

  predicate IsVerb(word: string) {
    || word == "LOGIN" || word == "BUY" || word == "SELL" || word == "CANCEL"
    || word == "SUBSCRIBE" || word == "UNSUBSCRIBE" || word == "QUIT"
  }

  /** Anything else is refused. */
  lemma OtherWords(line: string)
    requires Tokens(line) == [] || !IsVerb(Tokens(line)[0])
    ensures var cmd := Parse(line); !cmd.valid && cmd.error == if Tokens(line) == [] then EmptyMessage else UnknownCommand
  {
    if Tokens(line) != [] {
      VerbsAre(Tokens(line)[0]);
    }
    hide Tokens;
  }

  /** The lines that end a session are those that say QUIT and nothing else. */
  lemma QuitIsQuit(line: string)
    ensures Framing.IsQuit(line) <==> Tokens(line) == ["QUIT"]
  {
    hide Tokens, Parse;
    var ws := Tokens(line);
    if ws == [] {
      OtherWords(line);
    } else {
      VerbIsKind(line);
      if ws[0] == "QUIT" {
        QuitWords(line);
        assert |ws| == 1 ==> ws == ["QUIT"];
      }
    }
  }

  lemma VerbIsKind(line: string)
    requires Tokens(line) != []
    ensures Parse(line).kind == Quit <==> Tokens(line)[0] == "QUIT"
  {
    hide Tokens, VerbOf;
    VerbsAre(Tokens(line)[0]);
  }

  // ----- what each line does

  /** QUIT queues nothing; the session stays, closing and reading no more, exactly while something is pending. */
  lemma QuitLine(s: State, fd: int, line: string)
    requires Keyed(s) && fd in s.sessions && Tokens(line) == ["QUIT"]
    ensures var t := HandleMessage(s, fd, line);
            && t.hist.queued == s.hist.queued && t.kernel == s.kernel
            && (fd in t.sessions <==> Pending(s.sessions[fd]) > 0)
            && (fd in t.sessions ==>
                  && t.sessions[fd].closing && t.sessions[fd].inbuf == "" && Unsent(t.sessions[fd]) == Unsent(s.sessions[fd])
                  && fd in t.loop && t.loop[fd] == Sockets.Interest(false, true))
  {
    hide Tokens, Parse, Drop;
    QuitWords(line);
    ParseWellParsed(line);
    DropOutput(Closing(s, fd), fd);
  }

  /** The word itself. */
  lemma QuitIsAWord()
    ensures Tokens("QUIT") == ["QUIT"]
  {
    LastToken("QUIT");
  }

  /** LOGIN with a name of at most 64 characters: the answer, and what has become of the client. */
  lemma LoginLine(s: State, fd: int, line: string, name: string, x: int)
    requires Sound(s) && fd in s.sessions && x in s.kernel.table && s.sessions[fd].role != MarketData
    requires Tokens(line) == ["LOGIN", name] && |name| <= 64
    ensures var t, ses, free := HandleMessage(s, fd, line), s.sessions[fd], name !in s.usernames;
            && Answered(s, t, fd, x, if ses.loggedIn then Error(AlreadyLoggedIn(ses.username))
                                     else if free then Ok else Error(UsernameTaken(name)))
            && (fd in t.sessions ==>
                  if !ses.loggedIn && free then HasName(t, fd, name) && t.sessions[fd].role == Trader
                  else SameClient(t.sessions[fd], ses))
  {
    hide Tokens, Parse, HandleLogin, Tables, Sound, Answered, Keyed, WellParsed;
    SoundBasics(s);
    LoginWords(line);
    ParseWellParsed(line);
    var cmd := Parse(line);
    var r := LoginAnswered(s, fd, cmd, x);
    LoginTakesEffect(s, fd, cmd);
    Handled(s, fd, line);
  }

  /** A valid command goes to its handler. */
  lemma Handled(s: State, fd: int, line: string)
    requires fd in s.sessions && Parse(line).valid
    ensures WellParsed(Parse(line))
    ensures HandleMessage(s, fd, line) == HandleCommand(s, fd, Parse(line))
  {
    hide Parse, HandleCommand;
    ParseWellParsed(line);
  }

  /** SUBSCRIBE and UNSUBSCRIBE: the answer, and what is subscribed afterwards. */
  lemma SubscriptionLine(s: State, fd: int, line: string, subscribe: bool, name: string, other: string, x: int)
    requires Sound(s) && fd in s.sessions && x in s.kernel.table && s.sessions[fd].role != Trader
    requires Tokens(line) == [if subscribe then "SUBSCRIBE" else "UNSUBSCRIBE", name] && Listed(name)
    ensures var t, had := HandleMessage(s, fd, line), s.sessions[fd].subscriptions;
            && Answered(s, t, fd, x, if subscribe || name in had then Ok else Error(NotSubscribed(name)))
            && (fd in t.sessions ==> (name in t.sessions[fd].subscriptions <==> subscribe))
            && (fd in t.sessions && other != name ==> (other in t.sessions[fd].subscriptions <==> other in had))
  {
    hide Tokens, Parse, HandleSubscription, Tables, Sound, Answered, Keyed;
    SoundBasics(s);
    SubscriptionWords(line, subscribe);
    var cmd := Parse(line);
    var r := SubscriptionAnswered(s, fd, cmd, x);
    SubscriptionTakesEffect(s, fd, cmd, name);
    SubscriptionTakesEffect(s, fd, cmd, other);
    Handled(s, fd, line);
  }

  /** A logged-in client may trade, and no other. */
  lemma MayTrade(s: State, fd: int, kind: CommandType)
    requires Tables(s) && fd in s.sessions
    ensures TradingBar(s, fd, kind) == [] <==> s.sessions[fd].loggedIn
  {
    RoleOf(s, fd);
    hide Tables;
  }

  /**
  An order line of a logged-in client: the order as the line says it is the next operation on the book, and
  the client is acknowledged with the next id before it hears anything else.
  */
  lemma OrderLine(s: State, fd: int, line: string, buy: bool, words: seq<string>)
    requires Sound(s) && fd in s.sessions && s.sessions[fd].loggedIn && words == Tokens(line) && |words| == 4
    requires words[0] == (if buy then "BUY" else "SELL") && Listed(words[1]) && PositiveNumeral(words[2]) && PositiveNumeral(words[3])
    ensures var t, side := HandleMessage(s, fd, line), if buy then B.Buy else B.Sell;
            && Since(s.hist.ops + [B.Add(fd, words[1], side, D.Value(words[2]), D.Value(words[3]))], t)
            && Mail(s, fd) + (if fd in t.sessions then [OrderAccepted(s.book.nextId)] else []) <= Mail(t, fd)
  {
    hide Tokens, Parse, HandleOrder, HandleMessage, Tables, Sound, Keyed, D.Value, Numeral, TradingBar, Since, Mail;
    SoundBasics(s);
    OrderWords(line, buy);
    var cmd := Parse(line);
    MayTrade(s, fd, cmd.kind);
    TradingReachesBook(s, fd, cmd);
    OrderAcknowledged(s, fd, cmd);
    TradeHandled(s, fd, line);
  }

  lemma OrderAcknowledged(s: State, fd: int, cmd: ParsedCommand)
    requires Sound(s) && fd in s.sessions && TradingBar(s, fd, cmd.kind) == []
    ensures var t := HandleOrder(s, fd, cmd);
            Mail(s, fd) + (if fd in t.sessions then [OrderAccepted(s.book.nextId)] else []) <= Mail(t, fd)
  {
    hide Sound, HandleOrder, TradingBar, Mail, SameSession, Notices, P.ExecutionsOf, P.Acknowledged, Published;
    P.LiveIsOpen(s, fd);
    var k := P.OrderIsPublished(s, fd, cmd, fd);
  }

  lemma TradeHandled(s: State, fd: int, line: string)
    requires fd in s.sessions && Parse(line).valid && IsTrading(Parse(line).kind)
    ensures var cmd := Parse(line);
            HandleMessage(s, fd, line) == if cmd.kind == CancelCommand then HandleCancel(s, fd, cmd) else HandleOrder(s, fd, cmd)
  {
    hide Parse, HandleCancel, HandleOrder;
    Handled(s, fd, line);
  }

  /** A cancel line of a logged-in client: applied to the id it says, and answered accordingly. */
  lemma CancelLine(s: State, fd: int, line: string, digits: string, x: int)
    requires Sound(s) && fd in s.sessions && s.sessions[fd].loggedIn && x in s.kernel.table
    requires Tokens(line) == ["CANCEL", digits] && Numeral(digits)
    ensures var t, id := HandleMessage(s, fd, line), D.Value(digits);
            && Since(s.hist.ops + [B.Cancel(id, fd)], t)
            && Answered(s, t, fd, x, CancelAnswer(s.book, fd, id))
  {
    hide Tokens, Parse, HandleCancel, HandleOrder, HandleMessage, Tables, Sound, Keyed, D.Value, Numeral, TradingBar, Since,
         Answered, CancelAnswer;
    SoundBasics(s);
    CancelWords(line);
    var cmd := Parse(line);
    MayTrade(s, fd, cmd.kind);
    TradingReachesBook(s, fd, cmd);
    CancelAnswered(s, fd, cmd, x);
    TradeHandled(s, fd, line);
  }

  /** A line that is refused is answered with the reason, and changes nothing about the client or the book. */
  lemma RefusedLine(s: State, fd: int, line: string, x: int)
    requires Sound(s) && fd in s.sessions && x in s.kernel.table && !Parse(line).valid
    ensures var t := HandleMessage(s, fd, line);
            && Answered(s, t, fd, x, Error(Parse(line).error)) && Since(s.hist.ops, t)
            && (fd in t.sessions ==> SameClient(t.sessions[fd], s.sessions[fd]))
  {
    hide Parse, Tables, Sound, SendTo, Since, Answered;
    SoundBasics(s);
    ParseWellParsed(line);
    AnsweredAfter(s, s, fd, x, Error(Parse(line).error));
    SendToSince(s, fd, Error(Parse(line).error));
    SendToFrame(s, fd, Error(Parse(line).error));
  }
}
