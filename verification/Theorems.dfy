/** What follows for whole runs of the exchange. */
module Theorems {
  import opened Protocol
  import opened Exchange
  import opened Loop
  import opened Invariants
  import opened Output
  import opened Announcements
  import opened Safety
  import opened Lifetimes
  import Sockets
  import Framing
  import Inputs
  import C = TcpClients
  import B = Book
  import L = Ledger

  // ----- subscribers agree

  /** The announcements about an instrument, as the messages that carry them. */
  function Trades(tape: seq<Note>, instrument: string): seq<Response> {
    if tape == [] then []
    else
      var n := tape[|tape| - 1];
      Trades(tape[..|tape| - 1], instrument)
      + if n.Announced? && n.instrument == instrument then [Trade(instrument, n.quantity, n.price)] else []
  }

  /** A connection does not part in an interval. */
  predicate Stays(tape: seq<Note>, who: nat, instrument: string) {
    forall k :: 0 <= k < |tape| && tape[k].Parted? ==> tape[k].who != who || tape[k].instrument != instrument
  }

  lemma {:induction false} HeardThroughout(before: seq<Note>, interval: seq<Note>, who: nat, instrument: string)
    requires Listening(before, who, instrument) && Stays(interval, who, instrument)
    ensures Listening(before + interval, who, instrument)
    ensures Heard(before + interval, who, instrument) == Heard(before, who, instrument) + Trades(interval, instrument)
    decreases |interval|
  {
    if interval == [] {
      assert before + interval == before;
    } else {
      var most, n := interval[..|interval| - 1], interval[|interval| - 1];
      HeardThroughout(before, most, who, instrument);
      assert before + interval == before + most + [n];
      TapeAppend(before + most, n, who, instrument);
    }
  }

  /** The session is the same connection's at both ends, subscribed at the start and not unsubscribed since. */
  ghost predicate SubscribedThroughout(s: State, t: State, x: int, instrument: string) {
    && x in s.sessions && x in t.sessions && Who(t, x) == Who(s, x)
    && instrument in s.sessions[x].subscriptions
    && s.hist.tape <= t.hist.tape && Stays(t.hist.tape[|s.hist.tape|..], Who(s, x), instrument)
  }

  /** What a connection was queued between two states of a run. */
  function MailSince(s: State, t: State, x: int): seq<Response>
    requires Mail(s, x) <= Mail(t, x)
  {
    Mail(t, x)[|Mail(s, x)|..]
  }

  /** One subscriber: what it was queued in between is what was announced in between. */
  lemma SubscriberHears(s: State, t: State, x: int, instrument: string)
    requires Sound(s) && Sound(t) && Grows(s, t) && SubscribedThroughout(s, t, x, instrument)
    ensures Mail(s, x) <= Mail(t, x) && instrument in t.sessions[x].subscriptions
    ensures TradesOf(MailSince(s, t, x), instrument) == Trades(t.hist.tape[|s.hist.tape|..], instrument)
  {
    hide Core, TradesOf, Heard, Listening, Trades, Stays;
    var interval := t.hist.tape[|s.hist.tape|..];
    assert Tuned(s, x, instrument) && Tuned(t, x, instrument);
    assert s.hist.tape + interval == t.hist.tape;
    HeardThroughout(s.hist.tape, interval, Who(s, x), instrument);
    assert Mail(s, x) <= Mail(t, x);
    TradesConcat(Mail(s, x), MailSince(s, t, x), instrument);
    assert Mail(s, x) + MailSince(s, t, x) == Mail(t, x);
    SamePrefix(TradesOf(Mail(s, x), instrument), TradesOf(MailSince(s, t, x), instrument), Trades(interval, instrument));
  }

  lemma SamePrefix(a: seq<Response>, b: seq<Response>, c: seq<Response>)
    requires a + b == a + c
    ensures b == c
  {
    assert b == (a + b)[|a|..] == (a + c)[|a|..] == c;
  }

  /**
  Over any stretch of any run, two sessions subscribed to an instrument throughout were queued the same TRADE
  messages about it, exactly those announced in the stretch and in that order, whoever else was lost.
  */
  lemma SubscribersAgree(s: State, batches: seq<Batch>, x: int, y: int, instrument: string)
    requires Invariant(s) && Keyed(s)
    requires SubscribedThroughout(s, Turns(s, batches), x, instrument)
    requires SubscribedThroughout(s, Turns(s, batches), y, instrument)
    ensures var t := Turns(s, batches);
            && Mail(s, x) <= Mail(t, x) && Mail(s, y) <= Mail(t, y)
            && TradesOf(MailSince(s, t, x), instrument) == TradesOf(MailSince(s, t, y), instrument)
               == Trades(t.hist.tape[|s.hist.tape|..], instrument)
  {
    hide Sound, SubscribedThroughout, Turns, TradesOf, Trades, Mail;
    RolesAreFixed(s, batches);
    SubscriberHears(s, Turns(s, batches), x, instrument);
    SubscriberHears(s, Turns(s, batches), y, instrument);
  }

  // ----- from the server to the client

  /**
  In every reachable state, a client that has read any part of what its socket was handed, in any chunks,
  holds a prefix of the responses queued for it; and all of them once everything is written and read.
  */
  lemma ClientHoldsResponses(s: State, w: nat, chunks: seq<string>)
    requires Sound(s) && Framing.Join(chunks) <= Log(s.kernel.wire, w)
    ensures C.ClientFeed("", chunks).lines <= C.Texts(Log(s.hist.queued, w))
    ensures forall fd :: fd in s.sessions && Who(s, fd) == w && Pending(s.sessions[fd]) == 0
                         && Framing.Join(chunks) == Log(s.kernel.wire, w) ==>
              C.ClientFeed("", chunks) == Framing.Framed(C.Texts(Log(s.hist.queued, w)), Framing.Open(""))
  {
    hide C.ClientFeed, C.Texts, RenderAll, Tables, Registered, Tape, PlainResponse;
    var rs := Log(s.hist.queued, w);
    assert Log(s.kernel.wire, w) <= RenderAll(rs) && C.AllPlain(rs);
    C.ResponsesPrefix(rs, chunks);
    forall fd | fd in s.sessions && Who(s, fd) == w && Pending(s.sessions[fd]) == 0 && Framing.Join(chunks) == Log(s.kernel.wire, w)
      ensures C.ClientFeed("", chunks) == Framing.Framed(C.Texts(rs), Framing.Open(""))
    {
      assert Conserved(s, fd) && Unsent(s.sessions[fd]) == "";
      assert Log(s.kernel.wire, w) + "" == Log(s.kernel.wire, w);
      C.ResponsesRoundTrip(rs, chunks);
    }
  }

  /** A session that is reading has handled exactly the complete lines of what it received, however it was cut up. */
  lemma SessionHandlesLines(s: State, fd: int)
    requires Invariant(s) && fd in s.sessions && !s.sessions[fd].closing
    ensures var stream := Framing.Join(Log(s.hist.chunks, Who(s, fd)));
            && Log(s.hist.handled, Who(s, fd)) == Framing.Lines(stream)
            && s.sessions[fd].inbuf == Framing.Rest(stream)
            && Framing.NoNewline(s.sessions[fd].inbuf) && |s.sessions[fd].inbuf| <= 65536
  {
    SoundBasics(s);
    hide Framing.Feed, Sound, Framing.Lines, Framing.Rest, Framing.Join;
    assert Inputs.Settled(s, fd);
    Framing.FeedSplits("", Log(s.hist.chunks, Who(s, fd)));
    assert "" + Framing.Join(Log(s.hist.chunks, Who(s, fd))) == Framing.Join(Log(s.hist.chunks, Who(s, fd)));
  }

  // ----- every reachable state, spelled out

  /**
  A session's key is its own open descriptor, which no dropped session shares; what its socket took and what
  it still buffers is all it was ever queued; its backlog and its buffer are bounded; it is registered for,
  and caches, exactly the interest it needs; and a closing session still has output.
  */
  predicate InOrder(s: State, fd: int)
    requires fd in s.sessions
  {
    var ses, w := s.sessions[fd], Who(s, fd);
    && ses.fd == fd && fd != s.listener && fd in s.kernel.table && fd !in s.closedFds
    && w < |s.kernel.wire| == |s.hist.queued|
    && s.kernel.wire[w] + Unsent(ses) == RenderAll(s.hist.queued[w])
    && Pending(ses) <= 16 * 1024 * 1024 && |ses.outbuf| <= 16 * 1024 * 1024 + 65536
    && fd in s.loop && s.loop[fd] == Sockets.Interest(!ses.closing, Pending(ses) > 0)
    && ses.readInterest == !ses.closing && ses.writeInterest == (Pending(ses) > 0)
    && (ses.closing ==> Pending(ses) > 0)
  }

  lemma SessionInOrder(s: State, fd: int)
    requires Invariant(s) && fd in s.sessions
    ensures InOrder(s, fd)
  {
    hide Inputs.InputExcept, Subscriptions, Names, Roles, Orders, Tape, RenderAll;
    assert Conserved(s, fd) && AtRest(s, fd);
  }

  /** Every session of every reachable state is in order, and nothing but sessions and the listener is registered. */
  lemma EverySession(listener: int, sends: seq<Sockets.SendOutcome>, orders: seq<seq<int>>, batches: seq<Batch>)
    ensures var start := Initial(listener, sends, orders);
            && Keyed(start)
            && var s := Turns(start, batches);
               && (forall fd :: fd in s.sessions ==> InOrder(s, fd))
               && s.loop.Keys == s.sessions.Keys + {s.listener}
               && s.loop[s.listener] == Sockets.Interest(!s.paused, false)
  {
    hide InOrder, Turns, Invariant;
    RunInvariant(listener, sends, orders, batches);
    var s := Turns(Initial(listener, sends, orders), batches);
    forall fd | fd in s.sessions ensures InOrder(s, fd) {
      SessionInOrder(s, fd);
    }
    RegisteredKeys(s);
  }

  lemma RegisteredKeys(s: State)
    requires Invariant(s)
    ensures s.loop.Keys == s.sessions.Keys + {s.listener} && s.loop[s.listener] == Sockets.Interest(!s.paused, false)
  {
    hide Inputs.InputExcept, Tables, Streams, Tape, Wanted, Finished;
    forall fd | fd in s.sessions ensures fd in s.loop.Keys {
      assert AtRest(s, fd);
    }
    forall fd | fd in s.loop.Keys ensures fd in s.sessions.Keys + {s.listener} {}
  }

  /** The order ledger balances in every reachable state of the server. */
  lemma ServerLedger(s: State, id: int)
    requires Tables(s)
    ensures var e := B.Run(s.hist.ops);
            && e.book == s.book
            && L.QuantityOf(e.submitted, id) ==
               L.Executed(e.fills, id) + L.QuantityOf(s.book.resting, id) + L.QuantityOf(e.withdrawn, id)
  {
    hide Descriptors, Subscriptions, Names, Roles;
    L.OrderConservation(s.hist.ops, id);
  }
}
