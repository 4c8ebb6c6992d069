/**
What a system call can answer.  The environment is a finite script of answers; a script that has run
out answers "would block".  Answers no kernel can give (more bytes than were offered, or a descriptor
that is already open) are cut down to the nearest one it can.
*/
module Sockets {

  datatype SendOutcome = Wrote(count: nat) | SendInterrupted | SendWouldBlock | SendFailed

  /** Received("") is the end of the stream. */
  datatype RecvOutcome = Received(bytes: string) | RecvInterrupted | RecvWouldBlock | RecvFailed

  /** A connection comes with the result of registering it with the event loop. */
  datatype AcceptOutcome = Connected(fd: int, registered: bool) | AcceptWouldBlock | Exhausted | AcceptFailed

  datatype Event = Event(fd: int, readable: bool, writable: bool, hangup: bool)

  datatype Interest = Interest(read: bool, write: bool)

  /** Calls that each fill the whole buffer. */
  function Calls(chunks: seq<string>): seq<RecvOutcome> {
    seq(|chunks|, i requires 0 <= i < |chunks| => Received(chunks[i]))
  }

  predicate AllFull(chunks: seq<string>, size: nat) {
    forall i :: 0 <= i < |chunks| ==> |chunks[i]| == size
  }

  /** At most as many bytes as were asked for. */
  function Clip(bytes: string, limit: nat): string {
    if |bytes| > limit then bytes[..limit] else bytes
  }
}
