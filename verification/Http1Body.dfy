/** src/lib.rs: how the connection task answers a read request of an HTTP/1 body, moving bytes from its own buffer
    into the buffer that came with the request. */
module Http1Body {
  import opened Basics
  import opened Polling
  import opened Seqs
  import opened Buffer

  /** Why a read that was needed brought nothing. */
  function FailureOf(answer: Answer): IoError {
    match answer
    case Block => TimedOut
    case Fail => StreamFailed
    case Transfer(_) => UnexpectedEof
  }

  class Connection {
    const buffer: Buffer
    // The bytes the peer sent that are not in the buffer yet.
    var wire: seq<byte>

    constructor (buffer: Buffer, wire: seq<byte>)
      ensures this.buffer == buffer && this.wire == wire
    {
      this.buffer, this.wire := buffer, wire;
    }

    /** `read_into_buffer`, bounded by a timeout. */
    method ReadIntoBuffer(answer: Answer) returns (result: Result<nat, IoError>)
      requires buffer.Valid()
      modifies this`wire, buffer, buffer.inner
      ensures buffer.Valid() && buffer.inner == old(buffer.inner)
      ensures buffer.Readable() + wire == old(buffer.Readable() + wire)
      ensures old(buffer.Readable()) <= buffer.Readable()
      ensures result.Ok? ==> result.value == |buffer.Readable()| - |old(buffer.Readable())|
      ensures result.Err? ==> buffer.Readable() == old(buffer.Readable())
      ensures answer.Transfer? <==> result.Ok?
      ensures result == Ok(0) ==> wire == [] || |buffer.Readable()| == buffer.inner.Length
      ensures result.Err? ==> result.error == (if answer.Block? then TimedOut else StreamFailed)
    {
      match answer {
        case Block => return Err(TimedOut);
        case Fail => return Err(StreamFailed);
        case Transfer(limit) =>
          var n := Min(Min(limit, buffer.AvailableForWrite()), |wire|);
          var moved := buffer.Write(wire[..n]);
          assert wire[..n] + wire[n..] == wire;
          assert wire[..n][..n] == wire[..n];
          wire := wire[n..];
          return Ok(n);
      }
    }

    /** Both places that fill the body: as much as is wanted and there, and it leaves the own buffer. */
    method Move(body: Buffer, wanted: nat) returns (moved: seq<byte>)
      requires buffer.Valid() && body.Valid() && body != buffer && body.inner != buffer.inner
      requires |body.Readable()| + wanted <= body.inner.Length
      modifies buffer`readPointer, body`readPointer, body`writePointer, body.inner
      ensures buffer.Valid() && body.Valid()
      ensures body.Readable() == old(body.Readable()) + moved
      ensures moved + buffer.Readable() == old(buffer.Readable())
      ensures |moved| == Min(wanted, |old(buffer.Readable())|)
    {
      var content := buffer.Readable();
      var n := Min(wanted, |content|);
      moved := content[..n];
      assert moved[..n] == moved;
      var _ := body.Write(moved);
      buffer.Progress(n);
    }

    /** Its first half: what the own buffer still holds. */
    method TakeBuffered(body: Buffer, wanted: nat) returns (moved: seq<byte>)
      requires buffer.Valid() && body.Valid() && body != buffer && body.inner != buffer.inner
      requires |body.Readable()| + wanted <= body.inner.Length
      modifies buffer`readPointer, body`readPointer, body`writePointer, body.inner
      ensures buffer.Valid() && body.Valid()
      ensures body.Readable() == old(body.Readable()) + moved
      ensures moved + (buffer.Readable() + wire) == old(buffer.Readable() + wire)
      ensures |moved| == Min(wanted, |old(buffer.Readable())|)
      ensures |moved| < wanted ==> moved == old(buffer.Readable()) && buffer.Readable() == []
    {
      moved := [];
      if buffer.AvailableForRead() > 0 {
        moved := Move(body, wanted);
        Regroup(moved, buffer.Readable(), wire);
        assert |moved| < wanted ==> buffer.Readable() == [] && moved + [] == moved;
      }
    }

    /** Its second half: one read from the peer, and again as much as is wanted. */
    method Refill(body: Buffer, wanted: nat, answer: Answer)
      returns (result: Result<(), IoError>, moved: seq<byte>)
      requires buffer.Valid() && body.Valid() && body != buffer && body.inner != buffer.inner
      requires |body.Readable()| + wanted <= body.inner.Length
      modifies this`wire, buffer, buffer.inner, body`readPointer, body`writePointer, body.inner
      ensures buffer.Valid() && body.Valid() && buffer.inner == old(buffer.inner)
      ensures body.Readable() == old(body.Readable()) + moved && |moved| <= wanted
      ensures moved + (buffer.Readable() + wire) == old(buffer.Readable() + wire)
      ensures result.Ok? && wanted > 0 ==> moved != []
      ensures result.Ok? ==> |moved| == wanted || buffer.Readable() == []
      ensures result.Err? ==> moved == [] && result.error == FailureOf(answer)
      ensures result == Err(UnexpectedEof) ==>
                && buffer.Readable() == old(buffer.Readable())
                && (wire == [] || |buffer.Readable()| == buffer.inner.Length)
    {
      var got := ReadIntoBuffer(answer);
      match got {
        case Err(e) => return Err(e), [];
        case Ok(0) => return Err(UnexpectedEof), [];
        case Ok(_) =>
      }
      ghost var there := buffer.Readable();
      moved := Move(body, wanted);
      assert |moved| < wanted ==> |moved| == |there|;
      Regroup(moved, buffer.Readable(), wire);
      result := Ok(());
    }

    /** `handle_background_read_req`. `continued` says whether the continue line could be written. The reply hands the
        body buffer back, with the next bytes of the wire: as many as were asked for and have room, or all there are; or
        it is an error, or there is none, and then the buffer is dropped with all that is in it. All other bytes stay
        queued in order. So a failure loses exactly what the own buffer held. */
    method HandleBackgroundRead(expectsContinue: bool, continued: bool, body: Buffer, amount: nat, answer: Answer)
      returns (stillExpects: bool, reply: Option<Result<Buffer, IoError>>, moved: seq<byte>)
      requires buffer.Valid() && body.Valid() && body != buffer && body.inner != buffer.inner
      modifies this`wire, buffer, buffer.inner, body, body.inner
      ensures buffer.Valid() && buffer.inner == old(buffer.inner)
      ensures body.Valid() && body.inner == old(body.inner) && !stillExpects
      ensures moved + (buffer.Readable() + wire) == old(buffer.Readable() + wire)
      ensures |moved| <= amount
      ensures Delivered(reply) ==> reply.value.value == body && body.Readable() == old(body.Readable()) + moved
      ensures Delivered(reply) ==>
                || |moved| == Min(amount, body.inner.Length - |old(body.Readable())|)
                || buffer.Readable() == []
      ensures reply.Some? && reply.value.Err? ==> reply.value.error == FailureOf(answer)
      ensures Delivered(reply) && amount > 0 && |old(body.Readable())| < body.inner.Length ==> moved != []
      ensures reply.None? <==> expectsContinue && !continued
      ensures reply.None? ==> moved == []
      ensures reply.Some? && reply.value.Err? ==> moved == old(buffer.Readable())
      ensures reply == Some(Err(UnexpectedEof)) ==> wire == [] || buffer.inner.Length == 0
    {
      ghost var had := body.Readable();
      body.Rotate();
      var wanted := Min(amount, body.AvailableForWrite());
      if expectsContinue && !continued {
        return false, None, [];
      }
      var available := buffer.AvailableForRead();
      stillExpects, reply := false, Some(Ok(body));
      moved := TakeBuffered(body, wanted);
      if available == 0 || available < wanted {
        var more, result;
        result, more := Refill(body, wanted - |moved|, answer);
        Regroup(had, moved, more);
        Regroup(moved, more, buffer.Readable() + wire);
        if result.Err? {
          reply := Some(Err(result.error));
          assert moved + [] == moved;
        }
        moved := moved + more;
      }
    }

    /** The handler gets its buffer back. */
    static predicate Delivered(reply: Option<Result<Buffer, IoError>>) {
      reply.Some? && reply.value.Ok?
    }
  }
}
