/**
Line framing of a byte stream that arrives in arbitrary chunks.  The server reads at most READ_CHUNK
bytes at a time, handles every complete line, and gives up on a peer whose unfinished line has grown
past MAX_LINE.
*/
module Framing {
  import opened Protocol

  const MAX_LINE: nat := 65536
  const READ_CHUNK: nat := 65536

  // ----- splitting at newlines

  predicate NoNewline(s: string) {
    forall i :: 0 <= i < |s| ==> s[i] != '\n'
  }

  /** The position of the first newline, or the length when there is none. */
  function Newline(s: string): (n: nat)
    ensures n <= |s| && NoNewline(s[..n]) && (n < |s| ==> s[n] == '\n')
  {
    if s == "" || s[0] == '\n' then 0
    else
      assert forall i :: 0 <= i < 1 + Newline(s[1..]) ==> i == 0 || s[i] == s[1..][i - 1];
      1 + Newline(s[1..])
  }

  lemma NewlineIs(s: string, n: nat)
    requires n <= |s| && NoNewline(s[..n]) && (n < |s| ==> s[n] == '\n')
    ensures Newline(s) == n
  {
    var m := Newline(s);
    assert forall i :: 0 <= i < n ==> s[i] == s[..n][i];
    assert forall i :: 0 <= i < m ==> s[i] == s[..m][i];
  }

  /** Drops one trailing carriage return. */
  function StripCr(line: string): string {
    if line != "" && line[|line| - 1] == '\r' then line[..|line| - 1] else line
  }

  function FirstLine(s: string): string {
    StripCr(s[..Newline(s)])
  }

  function AfterLine(s: string): string
    requires Newline(s) < |s|
  {
    s[Newline(s) + 1..]
  }

  /** Every complete line of a stream. */
  function Lines(s: string): seq<string>
    decreases |s|
  {
    if Newline(s) == |s| then [] else [FirstLine(s)] + Lines(AfterLine(s))
  }

  /** What follows the last newline. */
  function Rest(s: string): string
    decreases |s|
  {
    if Newline(s) == |s| then s else Rest(AfterLine(s))
  }

  function Join(chunks: seq<string>): string {
    if chunks == [] then "" else chunks[0] + Join(chunks[1..])
  }

  lemma ExtendLine(a: string, b: string)
    ensures Newline(a) < |a| ==>
              Newline(a + b) == Newline(a) && FirstLine(a + b) == FirstLine(a) && AfterLine(a + b) == AfterLine(a) + b
    ensures Newline(a) == |a| ==> Newline(a + b) == |a| + Newline(b)
  {
    var n := Newline(a);
    if n < |a| {
      assert (a + b)[..n] == a[..n];
      NewlineIs(a + b, n);
    } else {
      var m := Newline(b);
      assert (a + b)[..n + m] == a + b[..m];
      assert a == a[..n];
      NewlineIs(a + b, n + m);
    }
  }

  /** Splitting what is left of a first part together with a second part is splitting the whole. */
  lemma {:induction false} SplitConcat(a: string, b: string)
    ensures Lines(a + b) == Lines(a) + Lines(Rest(a) + b) && Rest(a + b) == Rest(Rest(a) + b)
    decreases |a|
  {
    ExtendLine(a, b);
    if Newline(a) < |a| {
      SplitConcat(AfterLine(a), b);
    }
  }

  lemma {:induction false} RestNoNewline(s: string)
    ensures NoNewline(Rest(s)) && Newline(Rest(s)) == |Rest(s)|
    decreases |s|
  {
    if Newline(s) < |s| {
      RestNoNewline(AfterLine(s));
    } else {
      assert s[..|s|] == s;
    }
  }

  /** A line ends at its newline; one carriage return before that belongs to the ending, and no more than one. */
  lemma LineEndings(line: string, rest: string)
    requires NoNewline(line)
    ensures Lines(line + "\r\n" + rest) == [line] + Lines(rest)
    ensures line == "" || line[|line| - 1] != '\r' ==> Lines(line + "\n" + rest) == [line] + Lines(rest)
    ensures Rest(line + "\n" + rest) == Rest(rest) && Lines(line) == [] && Rest(line) == line
  {
    var a, b := line + "\r", line + "\n" + rest;
    var c := a + "\n" + rest;
    assert c == line + "\r\n" + rest;
    assert b[..|line|] == line && b[|line| + 1..] == rest;
    assert c[..|a|] == a && c[|a| + 1..] == rest && a[..|a| - 1] == line;
    NewlineIs(b, |line|);
    NewlineIs(c, |a|);
    NewlineIs(line, |line|);
  }

  // ----- the server's framer

  /** A connection's input side: waiting with an unfinished line, closed by QUIT, or given up on. */
  datatype Input = Open(buffer: string) | Left | Overflow

  datatype Framed = Framed(lines: seq<string>, input: Input)

  /** Lines handled so far, before more is framed. */
  function After(lines: seq<string>, f: Framed): Framed {
    Framed(lines + f.lines, f.input)
  }

  predicate IsQuit(line: string) {
    Parse(line).valid && Parse(line).kind == Quit
  }

  /** Handles every complete line of the buffer. */
  function Drain(buffer: string): Framed
    decreases |buffer|
  {
    if Newline(buffer) == |buffer| then Framed([], if |buffer| > MAX_LINE then Overflow else Open(buffer))
    else if IsQuit(FirstLine(buffer)) then Framed([FirstLine(buffer)], Left)
    else After([FirstLine(buffer)], Drain(AfterLine(buffer)))
  }

  /** Reads chunk after chunk, as long as the connection is open. */
  function Feed(buffer: string, chunks: seq<string>): Framed
    decreases |chunks|
  {
    if chunks == [] then Framed([], Open(buffer))
    else
      var f := Drain(buffer + chunks[0]);
      if f.input.Open? then After(f.lines, Feed(f.input.buffer, chunks[1..])) else f
  }

  /** A way to read a stream: non-empty chunks of at most READ_CHUNK bytes. */
  predicate Chunking(chunks: seq<string>, stream: string) {
    Join(chunks) == stream && forall i :: 0 <= i < |chunks| ==> 0 < |chunks[i]| <= READ_CHUNK
  }

  /** Between reads the buffer holds no newline and at most MAX_LINE bytes, whatever was received. */
  lemma {:induction false} DrainLeaves(buffer: string)
    ensures var f := Drain(buffer); f.input.Open? ==> NoNewline(f.input.buffer) && |f.input.buffer| <= MAX_LINE
    ensures var f := Drain(buffer); f.input.Open? ==> f == Framed(Lines(buffer), Open(Rest(buffer)))
    decreases |buffer|
  {
    if Newline(buffer) == |buffer| {
      assert buffer[..|buffer|] == buffer;
    } else if !IsQuit(FirstLine(buffer)) {
      DrainLeaves(AfterLine(buffer));
    }
  }

  /** While a connection stays open it has handled exactly the complete lines of what it received. */
  lemma {:induction false} FeedSplits(buffer: string, chunks: seq<string>)
    requires NoNewline(buffer) && |buffer| <= MAX_LINE
    ensures var f, stream := Feed(buffer, chunks), buffer + Join(chunks);
            f.input.Open? ==>
              && f == Framed(Lines(stream), Open(Rest(stream)))
              && NoNewline(f.input.buffer) && |f.input.buffer| <= MAX_LINE
    decreases |chunks|
  {
    if chunks == [] {
      assert buffer + "" == buffer;
      NewlineIs(buffer, |buffer|);
    } else {
      var a, rest := buffer + chunks[0], Join(chunks[1..]);
      assert buffer + Join(chunks) == a + rest;
      DrainLeaves(a);
      SplitConcat(a, rest);
      var f := Drain(a);
      if f.input.Open? {
        FeedSplits(f.input.buffer, chunks[1..]);
      }
    }
  }

  // ----- when the chunks matter

  datatype Verdict = Certain(framed: Framed) | Ambiguous

  function Following(line: string, v: Verdict): Verdict {
    if v.Certain? then Certain(After([line], v.framed)) else Ambiguous
  }

  /**
  What the stream alone decides.  A line longer than MAX_LINE is given up on before its newline arrives,
  unless the newline comes in the same read as the byte that makes it too long; and that is possible
  for lines of up to MAX_LINE + READ_CHUNK - 1 bytes, and for no others.
  */
  function Decide(stream: string): Verdict
    decreases |stream|
  {
    var n := Newline(stream);
    if n == |stream| then Certain(Framed([], if n > MAX_LINE then Overflow else Open(stream)))
    else if n >= MAX_LINE + READ_CHUNK then Certain(Framed([], Overflow))
    else if n > MAX_LINE then Ambiguous
    else if IsQuit(FirstLine(stream)) then Certain(Framed([FirstLine(stream)], Left))
    else Following(FirstLine(stream), Decide(AfterLine(stream)))
  }

  /** The verdict on a + b, once a has been drained. */
  predicate Agrees(f: Framed, a: string, b: string) {
    var whole := Decide(a + b);
    && whole.Certain?
    && if f.input.Open? then
         var rest := Decide(f.input.buffer + b);
         rest.Certain? && whole.framed == After(f.lines, rest.framed)
       else whole.framed == f
  }

  lemma PartialLineAgrees(a: string, b: string)
    requires Newline(a) == |a| && Decide(a + b).Certain?
    ensures Agrees(Drain(a), a, b)
  {
    hide IsQuit;
    ExtendLine(a, b);
    var whole := Decide(a + b).framed;
    assert [] + whole.lines == whole.lines;
  }

  /** Draining the part read so far agrees with what the whole stream decides. */
  lemma {:induction false} DrainDecides(a: string, b: string)
    requires |a| <= MAX_LINE + READ_CHUNK && Decide(a + b).Certain?
    ensures Agrees(Drain(a), a, b)
    decreases |a|
  {
    hide IsQuit;
    ExtendLine(a, b);
    if Newline(a) == |a| {
      PartialLineAgrees(a, b);
    } else if !IsQuit(FirstLine(a)) {
      var f, line := Drain(AfterLine(a)), FirstLine(a);
      assert Decide(a + b) == Following(line, Decide(AfterLine(a) + b));
      DrainDecides(AfterLine(a), b);
      if f.input.Open? {
        var rest := Decide(f.input.buffer + b).framed;
        assert [line] + (f.lines + rest.lines) == ([line] + f.lines) + rest.lines;
      }
    }
  }

  lemma {:induction false} FeedDecides(buffer: string, chunks: seq<string>)
    requires NoNewline(buffer) && |buffer| <= MAX_LINE
    requires forall i :: 0 <= i < |chunks| ==> |chunks[i]| <= READ_CHUNK
    requires Decide(buffer + Join(chunks)).Certain?
    ensures Feed(buffer, chunks) == Decide(buffer + Join(chunks)).framed
    decreases |chunks|
  {
    if chunks == [] {
      assert buffer + "" == buffer;
      NewlineIs(buffer, |buffer|);
    } else {
      var a, rest := buffer + chunks[0], Join(chunks[1..]);
      assert buffer + Join(chunks) == a + rest;
      DrainDecides(a, rest);
      DrainLeaves(a);
      if Drain(a).input.Open? {
        FeedDecides(Drain(a).input.buffer, chunks[1..]);
      }
    }
  }

  // ----- an ambiguous stream really can be read in two ways

  function Bytes(s: string): seq<string> {
    if s == "" then [] else [[s[0]]] + Bytes(s[1..])
  }

  lemma {:induction false} BytesChunk(s: string)
    ensures Chunking(Bytes(s), s)
  {
    if s != "" {
      BytesChunk(s[1..]);
      assert Bytes(s)[1..] == Bytes(s[1..]);
    }
  }

  lemma {:induction false} JoinConcat(a: seq<string>, b: seq<string>)
    ensures Join(a + b) == Join(a) + Join(b)
  {
    if a == [] {
      assert a + b == b;
    } else {
      assert (a + b)[1..] == a[1..] + b;
      JoinConcat(a[1..], b);
    }
  }

  lemma ChunkConcat(a: seq<string>, s: string, b: seq<string>, t: string)
    requires Chunking(a, s) && Chunking(b, t)
    ensures Chunking(a + b, s + t)
  {
    JoinConcat(a, b);
  }

  /** Reading part of a line byte by byte only fills the buffer. */
  lemma {:induction false} FeedBytes(buffer: string, s: string, more: seq<string>)
    requires NoNewline(buffer + s) && |buffer + s| <= MAX_LINE
    ensures Feed(buffer, Bytes(s) + more) == Feed(buffer + s, more)
    decreases |s|
  {
    if s == "" {
      assert buffer + s == buffer && Bytes(s) + more == more;
    } else {
      var next := buffer + [s[0]];
      assert (Bytes(s) + more)[0] == [s[0]] && (Bytes(s) + more)[1..] == Bytes(s[1..]) + more;
      assert next + s[1..] == buffer + s;
      assert NoNewline(next) by {
        forall i | 0 <= i < |next| ensures next[i] != '\n' {
          assert next[i] == (buffer + s)[i];
        }
      }
      NewlineIs(next, |next|);
      FeedBytes(next, s[1..], more);
    }
  }

  /** A short line, read byte by byte, is handled and leaves the buffer empty. */
  lemma FeedLine(head: string, more: seq<string>)
    requires NoNewline(head) && |head| <= MAX_LINE && !IsQuit(StripCr(head))
    ensures Feed("", Bytes(head) + (["\n"] + more)) == After([StripCr(head)], Feed("", more))
  {
    hide IsQuit;
    assert "" + head == head;
    FeedBytes("", head, ["\n"] + more);
    DrainLine(head);
    assert (["\n"] + more)[0] == "\n" && (["\n"] + more)[1..] == more;
  }

  lemma DrainLine(head: string)
    requires NoNewline(head) && !IsQuit(StripCr(head))
    ensures Drain(head + "\n") == Framed([StripCr(head)], Open(""))
  {
    hide IsQuit;
    var line := head + "\n";
    assert line[..|head|] == head;
    NewlineIs(line, |head|);
    assert AfterLine(line) == "";
  }

  /** The two readings of an ambiguous stream: byte by byte, or with the long line's tail in one read. */
  lemma {:induction false} TwoReadings(stream: string) returns (one: seq<string>, two: seq<string>)
    requires Decide(stream).Ambiguous?
    ensures Chunking(one, stream) && Chunking(two, stream) && Feed("", one) != Feed("", two)
    decreases |stream|
  {
    hide IsQuit;
    var n := Newline(stream);
    if n > MAX_LINE {
      one, two := SplitLongLine(stream);
    } else {
      one, two := TwoReadings(AfterLine(stream));
      AfterDiffers([FirstLine(stream)], Feed("", one), Feed("", two));
      one := LineThen(stream, one);
      two := LineThen(stream, two);
    }
  }

  /** Reads the first line byte by byte, then the rest of the stream as given. */
  lemma LineThen(stream: string, more: seq<string>) returns (chunks: seq<string>)
    requires Newline(stream) < |stream| && Newline(stream) <= MAX_LINE && !IsQuit(FirstLine(stream))
    requires Chunking(more, AfterLine(stream))
    ensures Chunking(chunks, stream) && Feed("", chunks) == After([FirstLine(stream)], Feed("", more))
  {
    hide IsQuit, Feed, Newline, NoNewline, Chunking, Bytes, StripCr;
    var head := stream[..Newline(stream)];
    chunks := Bytes(head) + (["\n"] + more);
    FeedLine(head, more);
    SplitAt(stream, Newline(stream));
    ThreePieces(head, "\n", AfterLine(stream), more);
  }

  lemma SplitAt(s: string, n: nat)
    requires n < |s| && s[n] == '\n'
    ensures s == s[..n] + ("\n" + s[n + 1..])
  {
  }

  lemma ThreePieces(head: string, mid: string, tail: string, more: seq<string>)
    requires 0 < |mid| <= READ_CHUNK && Chunking(more, tail)
    ensures Chunking(Bytes(head) + ([mid] + more), head + (mid + tail))
  {
    BytesChunk(head);
    assert Chunking([mid], mid) by {
      assert Join([mid]) == mid + Join([mid][1..]) && Join([mid][1..]) == "" && mid + "" == mid;
    }
    ChunkConcat([mid], mid, more, tail);
    ChunkConcat(Bytes(head), head, [mid] + more, mid + tail);
  }

  lemma AfterDiffers(lines: seq<string>, f: Framed, g: Framed)
    requires f != g
    ensures After(lines, f) != After(lines, g)
  {
    if f.lines != g.lines {
      assert (lines + f.lines)[|lines|..] == f.lines && (lines + g.lines)[|lines|..] == g.lines;
    }
  }

  lemma SplitLongLine(stream: string) returns (one: seq<string>, two: seq<string>)
    requires Newline(stream) < |stream| && MAX_LINE < Newline(stream) < MAX_LINE + READ_CHUNK
    ensures Chunking(one, stream) && Chunking(two, stream) && Feed("", one) != Feed("", two)
  {
    hide IsQuit;
    var n := Newline(stream);
    var head, mid, tail := stream[..MAX_LINE], stream[MAX_LINE..n + 1], stream[n + 1..];
    assert stream == head + (mid + tail) && head + mid == stream[..n + 1];
    one, two := Bytes(head) + Bytes(mid + tail), Bytes(head) + ([mid] + Bytes(tail));
    BytesChunk(head);
    BytesChunk(mid + tail);
    BytesChunk(tail);
    ChunkConcat(Bytes(head), head, Bytes(mid + tail), mid + tail);
    ThreePieces(head, mid, tail, Bytes(tail));
    HeadIsPlain(stream, MAX_LINE);
    assert "" + head == head;
    FeedBytes("", head, Bytes(mid + tail));
    FeedBytes("", head, [mid] + Bytes(tail));
    OneMoreByte(stream, head, mid, tail);
    WholeLine(stream, head, mid, Bytes(tail));
  }

  /** The tail of the line with its newline in one read: the line is handled, however long it is. */
  lemma WholeLine(stream: string, head: string, mid: string, more: seq<string>)
    requires Newline(stream) < |stream| && head + mid == stream[..Newline(stream) + 1]
    ensures Feed(head, [mid] + more).lines != []
  {
    hide IsQuit;
    var n := Newline(stream);
    assert stream[..n + 1][..n] == stream[..n];
    NewlineIs(head + mid, n);
    assert ([mid] + more)[0] == mid;
  }

  lemma HeadIsPlain(stream: string, k: nat)
    requires k <= Newline(stream)
    ensures NoNewline(stream[..k])
  {
    assert forall i :: 0 <= i < k ==> stream[..k][i] == stream[..Newline(stream)][i];
  }

  /** One byte past the limit and no newline: the server gives up with no line handled. */
  lemma OneMoreByte(stream: string, head: string, mid: string, tail: string)
    requires stream == head + (mid + tail) && |head| == MAX_LINE < Newline(stream) < |stream|
    ensures Feed(head, Bytes(mid + tail)) == Framed([], Overflow)
  {
    hide IsQuit, Newline, NoNewline;
    var next := stream[..MAX_LINE + 1];
    HeadIsPlain(stream, MAX_LINE + 1);
    assert next[..|next|] == next;
    NewlineIs(next, |next|);
    assert next == head + [(mid + tail)[0]];
    assert Drain(next) == Framed([], Overflow);
    hide Drain;
  }

  /**
  Chunk independence, exactly: every way of reading a stream gives the same lines and the same outcome
  if and only if the first line longer than MAX_LINE, before any QUIT, is unfinished or longer than a
  full buffer and a read can hold.
  */
  lemma ChunkIndependence(stream: string)
    ensures (forall one, two :: Chunking(one, stream) && Chunking(two, stream) ==> Feed("", one) == Feed("", two))
            <==> Decide(stream).Certain?
  {
    hide IsQuit;
    if Decide(stream).Certain? {
      forall chunks | Chunking(chunks, stream) ensures Feed("", chunks) == Decide(stream).framed {
        assert "" + stream == stream;
        FeedDecides("", chunks);
      }
    } else {
      var one, two := TwoReadings(stream);
    }
  }

  /** A line one byte too long, with its newline: read whole it is handled, read byte by byte it is not. */
  lemma AmbiguousExample(stream: string)
    requires stream == seq(MAX_LINE + 1, _ => 'a') + "\n"
    ensures Decide(stream).Ambiguous?
  {
    hide IsQuit;
    assert stream[..MAX_LINE + 1] == seq(MAX_LINE + 1, _ => 'a');
    NewlineIs(stream, MAX_LINE + 1);
  }

  predicate ShortLines(stream: string)
    decreases |stream|
  {
    Newline(stream) <= MAX_LINE && (Newline(stream) < |stream| ==> ShortLines(AfterLine(stream)))
  }

  /** When no newline-free run is longer than MAX_LINE, the chunks never matter. */
  lemma {:induction false} ShortLinesDecide(stream: string)
    requires ShortLines(stream)
    ensures Decide(stream).Certain?
    decreases |stream|
  {
    if Newline(stream) < |stream| {
      ShortLinesDecide(AfterLine(stream));
    }
  }
}
