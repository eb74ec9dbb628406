/** What a poll answers, and how the byte stream below answers during one: the model's I/O boundary. */
module Polling {
  import opened Basics

  type pos = n: nat | n > 0 witness 1

  /** The next call moves up to that many bytes (a flush completes), is not ready, or fails. A stream without
      further answers is not ready. */
  datatype Answer = Transfer(limit: pos) | Block | Fail

  datatype IoError =
    | BrokenPipe | StreamFailed | TimedOut | UnexpectedEof | InvalidData | BufferFull | Overflow | Implementation

  datatype Poll<+T> = Ready(value: T) | Pending | Failed(error: IoError)

  /** One `poll_read` on the source; at its end it hands out nothing. */
  function ReadSource(room: nat, src: seq<byte>, env: seq<Answer>): (r: (Poll<seq<byte>>, seq<Answer>))
    ensures r.0.Ready? ==> r.0.value <= src && |r.0.value| <= room
    ensures r.0.Ready? ==> (r.0.value == [] <==> room == 0 || src == [])
  {
    if env == [] then (Pending, env)
    else
      match env[0]
      case Transfer(limit) => (Ready(src[..Min(Min(limit, room), |src|)]), env[1..])
      case Block => (Pending, env[1..])
      case Fail => (Failed(StreamFailed), env[1..])
  }
}
