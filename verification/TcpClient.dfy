/** The client's end of a connection: reassembling the server's responses. */
module TcpClients {
  import opened Protocol
  import opened Framing
  import opened Sockets

  const CLIENT_CHUNK: nat := 8192

  datatype Reading = Reading(data: string, ok: bool)

  /** The bytes one call reads, and whether the connection is still up. */
  function Readings(recvs: seq<RecvOutcome>): Reading {
    if recvs == [] then Reading("", true)
    else match recvs[0]
      case Received(bytes) =>
        if bytes == "" then Reading("", false)
        else if |bytes| < CLIENT_CHUNK then Reading(bytes, true)
        else
          var more := Readings(recvs[1..]);
          Reading(Clip(bytes, CLIENT_CHUNK) + more.data, more.ok)
      case RecvInterrupted => Readings(recvs[1..])
      case RecvWouldBlock => Reading("", true)
      case RecvFailed => Reading("", false)
  }

  /**
  A call reads full buffers and what the first call that does not fill one brings; the connection is down
  exactly when that is the end of the stream or a failure.
  */
  lemma {:induction false} ReadingsAre(chunks: seq<string>, last: RecvOutcome, more: seq<RecvOutcome>)
    requires AllFull(chunks, CLIENT_CHUNK) && !last.RecvInterrupted? && (last.Received? ==> |last.bytes| < CLIENT_CHUNK)
    ensures var r := Readings(Calls(chunks) + [last] + more);
            && r.data == Join(chunks) + (if last.Received? then last.bytes else "")
            && (r.ok <==> last.RecvWouldBlock? || (last.Received? && last.bytes != ""))
    decreases |chunks|
  {
    var recvs := Calls(chunks) + [last] + more;
    if chunks == [] {
      assert recvs[0] == last;
    } else {
      assert recvs[0] == Received(chunks[0]) && recvs[1..] == Calls(chunks[1..]) + [last] + more;
      ReadingsAre(chunks[1..], last, more);
      var b := if last.Received? then last.bytes else "";
      assert chunks[0] + (Join(chunks[1..]) + b) == Join(chunks) + b;
    }
  }

  lemma Unsplit(s: string)
    requires NoNewline(s)
    ensures Lines(s) == [] && Rest(s) == s
  {
    NewlineIs(s, |s|);
  }

  class TcpClient {
    var inbuf: string

    ghost predicate Valid()
      reads this
    {
      NoNewline(inbuf)
    }

    constructor ()
      ensures Valid() && inbuf == ""
    {
      inbuf := "";
    }

    /** Moves every complete line of the buffer to the output. */
    method TakeLines(out: seq<string>) returns (out': seq<string>)
      modifies this
      ensures Valid() && inbuf == Rest(old(inbuf)) && out' == out + Lines(old(inbuf))
    {
      out' := out;
      while Newline(inbuf) < |inbuf|
        invariant out' + Lines(inbuf) == out + Lines(old(inbuf)) && Rest(inbuf) == Rest(old(inbuf))
        decreases |inbuf|
      {
        var line := inbuf[..Newline(inbuf)];
        inbuf := AfterLine(inbuf);
        out' := out' + [StripCr(line)];
      }
      RestNoNewline(inbuf);
    }

    method ReceiveMessages(recvs: seq<RecvOutcome>) returns (ok: bool, out: seq<string>)
      requires Valid()
      modifies this
      ensures Valid() && ok == Readings(recvs).ok
      ensures var stream := old(inbuf) + Readings(recvs).data; out == Lines(stream) && inbuf == Rest(stream)
    {
      hide Lines, Rest, Newline, NoNewline;
      out := [];
      ghost var taken := "";
      Unsplit(inbuf);
      assert old(inbuf) + taken == inbuf;
      var i := 0;
      while i < |recvs|
        invariant Valid() && i <= |recvs|
        invariant Readings(recvs) == Reading(taken + Readings(recvs[i..]).data, Readings(recvs[i..]).ok)
        invariant out == Lines(old(inbuf) + taken) && inbuf == Rest(old(inbuf) + taken)
      {
        assert recvs[i..][1..] == recvs[i + 1..];
        match recvs[i] {
          case Received(bytes) =>
            if bytes == "" {
              assert taken + "" == taken;
              return false, out;
            }
            var chunk := Clip(bytes, CLIENT_CHUNK);
            SplitConcat(old(inbuf) + taken, chunk);
            assert old(inbuf) + taken + chunk == old(inbuf) + (taken + chunk);
            inbuf := inbuf + chunk;
            out := TakeLines(out);
            taken := taken + chunk;
            if |bytes| < CLIENT_CHUNK {
              return true, out;
            }
          case RecvInterrupted =>
          case RecvWouldBlock =>
            assert taken + "" == taken;
            return true, out;
          case RecvFailed =>
            assert taken + "" == taken;
            return false, out;
        }
        i := i + 1;
      }
      assert taken + "" == taken;
      ok := true;
    }
  }

  // ----- the round trip

  function Texts(rs: seq<Response>): seq<string> {
    seq(|rs|, i requires 0 <= i < |rs| => Text(rs[i]))
  }

  predicate AllPlain(rs: seq<Response>) {
    forall i :: 0 <= i < |rs| ==> PlainResponse(rs[i])
  }

  lemma OneLine(text: string)
    requires Plain(text)
    ensures Lines(text + "\n") == [text] && Rest(text + "\n") == ""
  {
    var s := text + "\n";
    assert s[..|text|] == text;
    NewlineIs(s, |text|);
    assert AfterLine(s) == "";
    assert StripCr(text) == text;
  }

  /** Splitting what the server wrote gives back its responses, one line each, with nothing left over. */
  lemma {:induction false} RenderedIsSplit(rs: seq<Response>)
    requires AllPlain(rs)
    ensures Lines(RenderAll(rs)) == Texts(rs) && Rest(RenderAll(rs)) == ""
  {
    hide Lines, Rest, Text, PlainResponse;
    if rs == [] {
      Unsplit("");
    } else {
      var most, last := rs[..|rs| - 1], rs[|rs| - 1];
      RenderedIsSplit(most);
      SplitConcat(RenderAll(most), Render(last));
      assert "" + Render(last) == Render(last);
      TextPlain(last);
      OneLine(Text(last));
      assert Texts(rs) == Texts(most) + [Text(last)];
    }
  }

  /** What a client that reads chunk after chunk ends up with. */
  function ClientFeed(buffer: string, chunks: seq<string>): Framed
    decreases |chunks|
  {
    if chunks == [] then Framed([], Open(buffer))
    else After(Lines(buffer + chunks[0]), ClientFeed(Rest(buffer + chunks[0]), chunks[1..]))
  }

  lemma {:induction false} ClientFeedSplits(buffer: string, chunks: seq<string>)
    requires NoNewline(buffer)
    ensures var stream := buffer + Join(chunks);
            ClientFeed(buffer, chunks) == Framed(Lines(stream), Open(Rest(stream)))
    decreases |chunks|
  {
    hide Lines, Rest, Newline;
    if chunks == [] {
      assert buffer + "" == buffer;
      Unsplit(buffer);
    } else {
      var a := buffer + chunks[0];
      RestNoNewline(a);
      ClientFeedSplits(Rest(a), chunks[1..]);
      SplitConcat(a, Join(chunks[1..]));
      assert buffer + Join(chunks) == a + Join(chunks[1..]);
    }
  }

  /** A client that has read all the server's bytes, in any chunks, holds exactly the responses. */
  lemma ResponsesRoundTrip(rs: seq<Response>, chunks: seq<string>)
    requires AllPlain(rs) && Join(chunks) == RenderAll(rs)
    ensures ClientFeed("", chunks) == Framed(Texts(rs), Open(""))
  {
    hide Lines, Rest, RenderAll, Join, ClientFeed, PlainResponse;
    ClientFeedSplits("", chunks);
    assert "" + Join(chunks) == Join(chunks);
    RenderedIsSplit(rs);
  }

  /** A client that has read only part of them holds a prefix of the responses and part of the next. */
  lemma ResponsesPrefix(rs: seq<Response>, chunks: seq<string>)
    requires AllPlain(rs) && Join(chunks) <= RenderAll(rs)
    ensures ClientFeed("", chunks).lines <= Texts(rs)
  {
    hide Lines, Rest, RenderAll, Join, ClientFeed, PlainResponse;
    var read, unread := Join(chunks), RenderAll(rs)[|Join(chunks)|..];
    ClientFeedSplits("", chunks);
    assert "" + read == read && read + unread == RenderAll(rs);
    SplitConcat(read, unread);
    RenderedIsSplit(rs);
  }
}
