/** The line protocol: commands in, responses out. */
module Protocol {
  import opened Decimal

  datatype CommandType = Unknown | Login | BuyCommand | SellCommand | CancelCommand | Subscribe | Unsubscribe | Quit

  datatype ParsedCommand = ParsedCommand(kind: CommandType, args: seq<string>, valid: bool, error: Reason,
                                         instrument: string, quantity: int, price: int, orderId: int)

  datatype ClientRole = Undecided | Trader | MarketData

  /** Why a command was refused. */
  datatype Reason =
    | EmptyMessage | UnknownCommand | Usage(kind: CommandType) | UsernameTooLong | UnknownInstrument(name: string)
    | BadQuantity | BadPrice | BadOrderId
    | NotPermitted(kind: CommandType, role: ClientRole) | NotLoggedIn
    | AlreadyLoggedIn(name: string) | UsernameTaken(name: string) | NotSubscribed(name: string)
    | NoSuchOrder(id: int) | AnothersOrder(id: int) | LineTooLong

  const MAX_USERNAME := 64

  predicate IsValidInstrument(instrument: string) {
    instrument == "JNST" || instrument == "IMCT"
  }

  function Verb(kind: CommandType): (s: string)
    ensures IsWord(s) && Plain(s)
  {
    match kind
    case Login => "LOGIN"
    case BuyCommand => "BUY"
    case SellCommand => "SELL"
    case CancelCommand => "CANCEL"
    case Subscribe => "SUBSCRIBE"
    case Unsubscribe => "UNSUBSCRIBE"
    case Quit => "QUIT"
    case Unknown => "UNKNOWN"
  }

  function VerbOf(token: string): CommandType {
    if token == "LOGIN" then Login
    else if token == "BUY" then BuyCommand
    else if token == "SELL" then SellCommand
    else if token == "CANCEL" then CancelCommand
    else if token == "SUBSCRIBE" then Subscribe
    else if token == "UNSUBSCRIBE" then Unsubscribe
    else if token == "QUIT" then Quit
    else Unknown
  }

  // ----- tokens

  predicate IsSpace(c: char) {
    c == ' ' || '\t' <= c <= '\r'
  }

  /** A line without white space, at least one character long. */
  predicate IsWord(s: string) {
    s != "" && forall i :: 0 <= i < |s| ==> !IsSpace(s[i])
  }

  function SkipSpaces(s: string): (r: string)
    ensures |r| <= |s| && (r == "" || !IsSpace(r[0]))
  {
    if s != "" && IsSpace(s[0]) then SkipSpaces(s[1..]) else s
  }

  function WordLength(s: string): (n: nat)
    ensures n <= |s| && (forall i :: 0 <= i < n ==> !IsSpace(s[i])) && (n == |s| || IsSpace(s[n]))
  {
    if s == "" || IsSpace(s[0]) then 0 else 1 + WordLength(s[1..])
  }

  /** White-space separated words, as stream extraction yields them. */
  function Tokens(s: string): (r: seq<string>)
    ensures forall i :: 0 <= i < |r| ==> IsWord(r[i])
    decreases |s|
  {
    var t := SkipSpaces(s);
    if t == "" then []
    else [t[..WordLength(t)]] + Tokens(t[WordLength(t)..])
  }

  // ----- parsing

  function Rejected(kind: CommandType, args: seq<string>, reason: Reason): ParsedCommand {
    ParsedCommand(kind, args, false, reason, "", 0, 0, 0)
  }

  function Accepted(kind: CommandType, args: seq<string>): ParsedCommand {
    ParsedCommand(kind, args, true, EmptyMessage, "", 0, 0, 0)
  }

  function ParseOrder(kind: CommandType, args: seq<string>): ParsedCommand {
    if |args| != 3 then Rejected(kind, args, Usage(kind))
    else if !IsValidInstrument(args[0]) then Rejected(kind, args, UnknownInstrument(args[0]))
    else
      var quantity, price := IntegerOf(args[1]), IntegerOf(args[2]);
      if quantity.None? || quantity.value <= 0 then Rejected(kind, args, BadQuantity)
      else if price.None? || price.value <= 0 then Rejected(kind, args, BadPrice)
      else Accepted(kind, args).(instrument := args[0], quantity := quantity.value, price := price.value)
  }

  function ParseSubscription(kind: CommandType, args: seq<string>): ParsedCommand {
    if |args| != 1 then Rejected(kind, args, Usage(kind))
    else if !IsValidInstrument(args[0]) then Rejected(kind, args, UnknownInstrument(args[0]))
    else Accepted(kind, args).(instrument := args[0])
  }

  function ParseArguments(kind: CommandType, args: seq<string>): ParsedCommand {
    match kind
    case Unknown => Rejected(Unknown, args, UnknownCommand)
    case Login =>
      if |args| != 1 then Rejected(kind, args, Usage(kind))
      else if |args[0]| > MAX_USERNAME then Rejected(kind, args, UsernameTooLong)
      else Accepted(kind, args)
    case BuyCommand => ParseOrder(kind, args)
    case SellCommand => ParseOrder(kind, args)
    case CancelCommand =>
      if |args| != 1 then Rejected(kind, args, Usage(kind))
      else
        var id := IntegerOf(args[0]);
        if id.None? then Rejected(kind, args, BadOrderId) else Accepted(kind, args).(orderId := id.value)
    case Subscribe => ParseSubscription(kind, args)
    case Unsubscribe => ParseSubscription(kind, args)
    case Quit => if args != [] then Rejected(kind, args, Usage(kind)) else Accepted(kind, args)
  }

  function ParseTokens(tokens: seq<string>): ParsedCommand {
    if tokens == [] then Rejected(Unknown, [], EmptyMessage)
    else ParseArguments(VerbOf(tokens[0]), tokens[1..])
  }

  function Parse(line: string): ParsedCommand {
    ParseTokens(Tokens(line))
  }

  // ----- responses

  datatype Response =
    | Ok
    | Error(reason: Reason)
    | OrderAccepted(id: int)
    | OrderCancelled(id: int)
    | Bought(instrument: string, quantity: int, price: int)
    | Sold(instrument: string, quantity: int, price: int)
    | Trade(instrument: string, quantity: int, price: int)

  function UsageOf(kind: CommandType): (s: string)
    ensures Plain(s)
  {
    match kind
    case Login => " <username>"
    case CancelCommand => " <order_id>"
    case BuyCommand => OrderUsage()
    case SellCommand => OrderUsage()
    case Subscribe => " <instrument>"
    case Unsubscribe => " <instrument>"
    case _ => ""
  }

  function OrderUsage(): (s: string)
    ensures Plain(s)
  {
    " <instrument>" + " <quantity> <price>"
  }

  function QuantityText(): (s: string)
    ensures Plain(s)
  {
    "Quantity must be a positive integer"
  }

  function PriceText(): (s: string)
    ensures Plain(s)
  {
    "Price must be a positive integer"
  }

  function OrderIdText(): (s: string)
    ensures Plain(s)
  {
    "Order id must be a " + "non-negative integer"
  }

  function LineTooLongText(): (s: string)
    ensures Plain(s)
  {
    "Message exceeds 65536 bytes " + "without a newline"
  }

  function NotLoggedInText(): (s: string)
    ensures Plain(s)
  {
    "Not logged in: send LOGIN " + "<username> before trading"
  }

  function NotPermittedText(kind: CommandType, role: ClientRole): (s: string)
    ensures Plain(s)
  {
    Barring(Verb(kind), RoleText(role))
  }

  function Barring(verb: string, client: string): (s: string)
    requires Plain(verb) && Plain(client)
    ensures Plain(s)
  {
    verb + " is not permitted for a " + client
  }

  function RoleText(role: ClientRole): (s: string)
    ensures Plain(s)
  {
    if role == Trader then "trader client" else "market-data client"
  }

  function NoSuchOrderText(id: int): (s: string)
    ensures Plain(s)
  {
    "No such order with " + "unfilled quantity: " + PrintInt(id)
  }

  function AnothersOrderText(id: int): (s: string)
    ensures Plain(s)
  {
    "Order " + PrintInt(id) + " belongs to another trader"
  }

  function UsageText(kind: CommandType): (s: string)
    ensures Plain(s)
  {
    "Usage: " + Verb(kind) + UsageOf(kind)
  }

  function UsernameTakenText(name: string): (s: string)
    ensures Plain(name) ==> Plain(s)
  {
    "Username " + name + " is already in use"
  }

  function SyntaxText(r: Reason): (s: string)
    ensures PlainReason(r) ==> Plain(s)
  {
    match r
    case UnknownCommand => "Unknown command"
    case Usage(kind) => UsageText(kind)
    case UsernameTooLong => "Username too long"
    case UnknownInstrument(name) => "Unknown instrument " + name
    case _ => "Empty message"
  }

  function SessionText(r: Reason): (s: string)
    ensures PlainReason(r) ==> Plain(s)
  {
    match r
    case NotPermitted(kind, role) => NotPermittedText(kind, role)
    case AlreadyLoggedIn(name) => "Already logged in as " + name
    case UsernameTaken(name) => UsernameTakenText(name)
    case NotSubscribed(name) => "Not subscribed to " + name
    case _ => NotLoggedInText()
  }

  /** The reason text of an ERROR response. */
  function Explain(r: Reason): (s: string)
    ensures PlainReason(r) ==> Plain(s)
  {
    match r
    case BadQuantity => QuantityText()
    case BadPrice => PriceText()
    case BadOrderId => OrderIdText()
    case NoSuchOrder(id) => NoSuchOrderText(id)
    case AnothersOrder(id) => AnothersOrderText(id)
    case LineTooLong => LineTooLongText()
    case _ => if IsSessionReason(r) then SessionText(r) else SyntaxText(r)
  }

  predicate IsSessionReason(r: Reason) {
    r.NotPermitted? || r.AlreadyLoggedIn? || r.UsernameTaken? || r.NotSubscribed? || r.NotLoggedIn?
  }

  function Quoted(head: string, instrument: string, quantity: int, price: int): string {
    head + " " + instrument + " " + PrintInt(quantity) + " " + PrintInt(price)
  }

  /** A response without its line terminator. */
  function Text(r: Response): string {
    match r
    case Ok => "OK"
    case Error(reason) => "ERROR " + Explain(reason)
    case OrderAccepted(id) => "ORDER_ACCEPTED " + PrintInt(id)
    case OrderCancelled(id) => "ORDER_CANCELLED " + PrintInt(id)
    case Bought(instrument, quantity, price) => Quoted("BOUGHT", instrument, quantity, price)
    case Sold(instrument, quantity, price) => Quoted("SOLD", instrument, quantity, price)
    case Trade(instrument, quantity, price) => Quoted("TRADE", instrument, quantity, price)
  }

  function Render(r: Response): string {
    Text(r) + "\n"
  }

  function RenderAll(rs: seq<Response>): string {
    if rs == [] then "" else RenderAll(rs[..|rs| - 1]) + Render(rs[|rs| - 1])
  }

  // ----- text that survives line framing

  predicate IsBreak(c: char) {
    c == '\n' || c == '\r'
  }

  /** Free of line breaks and of the carriage return that framing strips. */
  predicate Plain(s: string) {
    forall i :: 0 <= i < |s| ==> !IsBreak(s[i])
  }

  /** Names echoed in a refusal are words of the peer's own line. */
  predicate PlainReason(r: Reason) {
    match r
    case UnknownInstrument(name) => Plain(name)
    case AlreadyLoggedIn(name) => Plain(name)
    case UsernameTaken(name) => Plain(name)
    case NotSubscribed(name) => Plain(name)
    case _ => true
  }

  predicate PlainResponse(r: Response) {
    match r
    case Error(reason) => PlainReason(reason)
    case Bought(instrument, _, _) => Plain(instrument)
    case Sold(instrument, _, _) => Plain(instrument)
    case Trade(instrument, _, _) => Plain(instrument)
    case _ => true
  }

  lemma QuotedPlain(head: string, instrument: string, quantity: int, price: int)
    requires Plain(head) && Plain(instrument)
    ensures Plain(Quoted(head, instrument, quantity, price))
  {
  }

  /** Every response is one line of text. */
  lemma TextPlain(r: Response)
    requires PlainResponse(r)
    ensures Plain(Text(r))
  {
    hide Explain, Quoted, PlainReason;
    match r
    case Ok =>
    case Error(reason) =>
    case OrderAccepted(id) =>
    case OrderCancelled(id) =>
    case Bought(instrument, quantity, price) => QuotedPlain("BOUGHT", instrument, quantity, price);
    case Sold(instrument, quantity, price) => QuotedPlain("SOLD", instrument, quantity, price);
    case Trade(instrument, quantity, price) => QuotedPlain("TRADE", instrument, quantity, price);
  }

  // ----- what the parser guarantees

  predicate InRange(n: int) {
    0 <= n < Pow10(MAX_DIGITS)
  }

  predicate Positive(n: int) {
    0 < n && InRange(n)
  }

  /** Accepted commands are in range, and refusals echo only words of the line. */
  predicate WellParsed(cmd: ParsedCommand) {
    if !cmd.valid then PlainReason(cmd.error)
    else match cmd.kind
      case Unknown => false
      case Login => |cmd.args| == 1 && IsWord(cmd.args[0]) && |cmd.args[0]| <= MAX_USERNAME
      case BuyCommand => IsValidInstrument(cmd.instrument) && Positive(cmd.quantity) && Positive(cmd.price)
      case SellCommand => IsValidInstrument(cmd.instrument) && Positive(cmd.quantity) && Positive(cmd.price)
      case CancelCommand => InRange(cmd.orderId)
      case Subscribe => IsValidInstrument(cmd.instrument)
      case Unsubscribe => IsValidInstrument(cmd.instrument)
      case Quit => cmd.args == []
  }

  lemma WordPlain(s: string)
    requires IsWord(s)
    ensures Plain(s)
  {
  }

  lemma ParseWellParsed(line: string)
    ensures WellParsed(Parse(line))
  {
    var tokens := Tokens(line);
    if tokens != [] {
      ArgumentsWellParsed(VerbOf(tokens[0]), tokens[1..]);
    }
  }

  lemma ArgumentsWellParsed(kind: CommandType, args: seq<string>)
    requires forall i :: 0 <= i < |args| ==> IsWord(args[i])
    ensures WellParsed(ParseArguments(kind, args))
  {
    hide IntegerOf, Pow10, IsValidInstrument;
    forall i | 0 <= i < |args| ensures Plain(args[i]) && var v := IntegerOf(args[i]); v.Some? ==> InRange(v.value) {
      WordPlain(args[i]);
      IntegerBound(args[i]);
    }
  }

  // ----- commands survive printing

  /** A word followed by white space is the first token. */
  lemma FirstToken(word: string, rest: string)
    requires IsWord(word)
    requires rest == "" || IsSpace(rest[0])
    ensures Tokens(word + rest) == [word] + Tokens(rest)
  {
    var s := word + rest;
    assert s[0] == word[0];
    assert SkipSpaces(s) == s;
    assert forall i :: 0 <= i < |word| ==> s[i] == word[i];
    assert rest != "" ==> s[|word|] == rest[0];
    assert WordLength(s) == |word|;
    assert s[..|word|] == word && s[|word|..] == rest;
  }

  lemma SpaceSkipped(rest: string)
    ensures Tokens(" " + rest) == Tokens(rest)
  {
    assert (" " + rest)[1..] == rest;
  }

  lemma PrintedWord(n: nat)
    ensures IsWord(Print(n))
  {
    PrintShape(n);
  }

  lemma ParseVerb(kind: CommandType, args: seq<string>)
    ensures ParseTokens([Verb(kind)] + args) == ParseArguments(kind, args)
  {
    assert ([Verb(kind)] + args)[1..] == args;
    assert VerbOf(Verb(kind)) == kind;
  }

  lemma OneArgument(verb: string, word: string)
    requires IsWord(verb) && IsWord(word)
    ensures Tokens(verb + (" " + word)) == [verb] + [word]
  {
    hide IsWord, Tokens;
    FirstToken(verb, " " + word);
    SpaceSkipped(word);
    LastToken(word);
  }

  lemma LastToken(word: string)
    requires IsWord(word)
    ensures Tokens(word) == [word]
  {
    assert word + "" == word;
    FirstToken(word, "");
  }

  /** CANCEL with a printed id is accepted, with that id, exactly below 10^18. */
  lemma CancelRoundTrip(id: nat)
    ensures var cmd := Parse(Verb(CancelCommand) + (" " + Print(id)));
            cmd == if id < Pow10(MAX_DIGITS) then Accepted(CancelCommand, [Print(id)]).(orderId := id)
                   else Rejected(CancelCommand, [Print(id)], BadOrderId)
  {
    hide Tokens, IsWord, Verb, VerbOf, Print, IntegerOf, Pow10, ParseTokens;
    PrintedWord(id);
    PrintedIsRead(id);
    OneArgument(Verb(CancelCommand), Print(id));
    ParseVerb(CancelCommand, [Print(id)]);
  }

  /** A printed order is accepted with the same instrument, quantity and price when both are in 1 .. 10^18 - 1. */
  lemma OrderRoundTrip(buy: bool, instrument: string, quantity: nat, price: nat)
    requires IsValidInstrument(instrument)
    ensures var kind := if buy then BuyCommand else SellCommand;
            var cmd := Parse(Verb(kind) + (" " + (instrument + (" " + (Print(quantity) + (" " + Print(price)))))));
            && cmd.kind == kind
            && (cmd.valid <==> Positive(quantity) && Positive(price))
            && (cmd.valid ==> cmd.instrument == instrument && cmd.quantity == quantity && cmd.price == price)
  {
    var kind := if buy then BuyCommand else SellCommand;
    var args := [instrument, Print(quantity), Print(price)];
    PrintedWord(quantity);
    PrintedWord(price);
    OrderTokens(Verb(kind), instrument, Print(quantity), Print(price));
    assert [Verb(kind)] + args == [Verb(kind), instrument, Print(quantity), Print(price)];
    ParseVerb(kind, args);
    OrderArguments(kind, instrument, quantity, price);
  }

  lemma OrderArguments(kind: CommandType, instrument: string, quantity: nat, price: nat)
    requires IsValidInstrument(instrument) && (kind == BuyCommand || kind == SellCommand)
    ensures var cmd := ParseArguments(kind, [instrument, Print(quantity), Print(price)]);
            && cmd.kind == kind
            && (cmd.valid <==> Positive(quantity) && Positive(price))
            && (cmd.valid ==> cmd.instrument == instrument && cmd.quantity == quantity && cmd.price == price)
  {
    hide IntegerOf, Print, Pow10, IsValidInstrument;
    PrintedIsRead(quantity);
    PrintedIsRead(price);
  }

  lemma OrderTokens(verb: string, a: string, b: string, c: string)
    requires IsWord(verb) && IsWord(a) && IsWord(b) && IsWord(c)
    ensures Tokens(verb + (" " + (a + (" " + (b + (" " + c)))))) == [verb, a, b, c]
  {
    hide IsWord, Tokens;
    FirstToken(verb, " " + (a + (" " + (b + (" " + c)))));
    SpaceSkipped(a + (" " + (b + (" " + c))));
    FirstToken(a, " " + (b + (" " + c)));
    SpaceSkipped(b + (" " + c));
    OneArgument(b, c);
  }

  /** LOGIN with any word is accepted as that name exactly up to sixty-four characters. */
  lemma LoginRoundTrip(name: string)
    requires IsWord(name)
    ensures Parse(Verb(Login) + (" " + name)) ==
            if |name| <= MAX_USERNAME then Accepted(Login, [name]) else Rejected(Login, [name], UsernameTooLong)
  {
    hide Tokens, IsWord, Verb, VerbOf, ParseTokens;
    OneArgument(Verb(Login), name);
    ParseVerb(Login, [name]);
  }

  /** A subscription is accepted exactly for the instruments of the exchange. */
  lemma SubscriptionRoundTrip(subscribe: bool, name: string)
    requires IsWord(name)
    ensures var kind := if subscribe then Subscribe else Unsubscribe;
            Parse(Verb(kind) + (" " + name)) ==
            if IsValidInstrument(name) then Accepted(kind, [name]).(instrument := name)
            else Rejected(kind, [name], UnknownInstrument(name))
  {
    hide Tokens, IsWord, Verb, VerbOf, ParseTokens, IsValidInstrument;
    var kind := if subscribe then Subscribe else Unsubscribe;
    OneArgument(Verb(kind), name);
    ParseVerb(kind, [name]);
  }

  // ----- a client can read the numbers back

  lemma QuotedTokens(head: string, instrument: string, quantity: nat, price: nat)
    requires IsWord(head) && IsWord(instrument)
    ensures Tokens(Quoted(head, instrument, quantity, price)) == [head, instrument, Print(quantity), Print(price)]
  {
    hide Tokens, IsWord, Print;
    var q, p := Print(quantity), Print(price);
    PrintedWord(quantity);
    PrintedWord(price);
    OrderTokens(head, instrument, q, p);
    assert Quoted(head, instrument, quantity, price) == head + (" " + (instrument + (" " + (q + (" " + p)))));
  }

  /** The words of a notice: what happened, the instrument, and decimals that read back as quantity and price. */
  lemma NoticeReadsBack(instrument: string, quantity: nat, price: nat)
    requires IsWord(instrument) && InRange(quantity) && InRange(price)
    ensures var q, p := Print(quantity), Print(price);
            && Tokens(Text(Bought(instrument, quantity, price))) == ["BOUGHT", instrument, q, p]
            && Tokens(Text(Sold(instrument, quantity, price))) == ["SOLD", instrument, q, p]
            && Tokens(Text(Trade(instrument, quantity, price))) == ["TRADE", instrument, q, p]
            && IntegerOf(q) == Some(quantity) && IntegerOf(p) == Some(price)
  {
    hide Tokens, Print, IntegerOf, Quoted;
    QuotedTokens("BOUGHT", instrument, quantity, price);
    QuotedTokens("SOLD", instrument, quantity, price);
    QuotedTokens("TRADE", instrument, quantity, price);
    PrintedIsRead(quantity);
    PrintedIsRead(price);
  }

  lemma AcceptedTokens(id: nat)
    ensures Tokens(Text(OrderAccepted(id))) == ["ORDER_ACCEPTED", Print(id)]
  {
    hide Tokens, Print, Explain, Quoted;
    PrintedWord(id);
    OneArgument("ORDER_ACCEPTED", Print(id));
    assert Text(OrderAccepted(id)) == "ORDER_ACCEPTED" + (" " + Print(id));
  }

  lemma CancelledTokens(id: nat)
    ensures Tokens(Text(OrderCancelled(id))) == ["ORDER_CANCELLED", Print(id)]
  {
    hide Tokens, Print, Explain, Quoted;
    PrintedWord(id);
    OneArgument("ORDER_CANCELLED", Print(id));
    assert Text(OrderCancelled(id)) == "ORDER_CANCELLED" + (" " + Print(id));
  }

  /** The id in an acknowledgement reads back, so a client can cancel by it. */
  lemma AcknowledgementReadsBack(id: nat)
    requires InRange(id)
    ensures Tokens(Text(OrderAccepted(id))) == ["ORDER_ACCEPTED", Print(id)]
    ensures Tokens(Text(OrderCancelled(id))) == ["ORDER_CANCELLED", Print(id)]
    ensures IntegerOf(Print(id)) == Some(id)
  {
    hide Tokens, Print, IntegerOf, Text;
    AcceptedTokens(id);
    CancelledTokens(id);
    PrintedIsRead(id);
  }

  // ----- a client can tell responses apart

  function HeadOf(r: Response): string {
    match r
    case Ok => "OK"
    case Error(_) => "ERROR"
    case OrderAccepted(_) => "ORDER_ACCEPTED"
    case OrderCancelled(_) => "ORDER_CANCELLED"
    case Bought(_, _, _) => "BOUGHT"
    case Sold(_, _, _) => "SOLD"
    case Trade(_, _, _) => "TRADE"
  }

  lemma HeadIsFirst(head: string, rest: string, text: string)
    requires IsWord(head) && (rest == "" || rest[0] == ' ') && text == head + rest
    ensures Tokens(text) != [] && Tokens(text)[0] == head
  {
    hide Tokens, IsWord;
    FirstToken(head, rest);
  }

  lemma HeadWord(r: Response)
    ensures IsWord(HeadOf(r))
  {
  }

  lemma TextHead(r: Response) returns (rest: string)
    ensures Text(r) == HeadOf(r) + rest && (rest == "" || rest[0] == ' ')
  {
    hide Explain, PrintInt, Quoted;
    match r
    case Ok => rest := "";
    case Error(reason) => rest := Spaced("ERROR", "ERROR ", Explain(reason));
    case OrderAccepted(id) => rest := Spaced("ORDER_ACCEPTED", "ORDER_ACCEPTED ", PrintInt(id));
    case OrderCancelled(id) => rest := Spaced("ORDER_CANCELLED", "ORDER_CANCELLED ", PrintInt(id));
    case Bought(instrument, quantity, price) => rest := QuotedHead("BOUGHT", instrument, quantity, price);
    case Sold(instrument, quantity, price) => rest := QuotedHead("SOLD", instrument, quantity, price);
    case Trade(instrument, quantity, price) => rest := QuotedHead("TRADE", instrument, quantity, price);
  }

  lemma Spaced(head: string, spaced: string, text: string) returns (rest: string)
    requires spaced == head + " "
    ensures spaced + text == head + rest && rest == " " + text
  {
    rest := " " + text;
    assert head + " " + text == head + rest;
  }

  lemma QuotedHead(head: string, instrument: string, quantity: int, price: int) returns (rest: string)
    ensures Quoted(head, instrument, quantity, price) == head + rest && rest != "" && rest[0] == ' '
  {
    rest := " " + (instrument + " " + PrintInt(quantity) + " " + PrintInt(price));
    assert Quoted(head, instrument, quantity, price) == head + rest;
  }

  /** The first word of a response says what it is. */
  lemma FirstWordTells(r: Response)
    ensures Tokens(Text(r)) != [] && Tokens(Text(r))[0] == HeadOf(r)
  {
    hide Tokens, Text, IsWord, HeadOf;
    var rest := TextHead(r);
    HeadWord(r);
    HeadIsFirst(HeadOf(r), rest, Text(r));
  }
}
