/** src/http2/mod.rs: `read_next_frame` over a buffer, and that frames do not depend on how the bytes arrive. */
module FrameReader {
  import opened Basics
  import opened Seqs
  import opened Polling
  import opened BigEndian
  import opened H2Errors
  import opened Frames
  import Buffer

  datatype State = State(buf: seq<byte>, src: seq<byte>)

  /** How a loop or a call ended. */
  datatype Verdict<+T> = Got(value: T) | Refused(error: H2Error) | Waiting

  datatype Step<+T> = Step(s: State, verdict: Verdict<T>, env: seq<Answer>)

  /** `read_from_reader`: what is there goes into the buffer, as far as it fits. */
  function Arrive(capacity: nat, s: State, env: seq<Answer>): (r: Step<nat>)
    ensures r.verdict.Got? ==> |r.env| < |env|
  {
    var (got, rest) := ReadSource(if |s.buf| <= capacity then capacity - |s.buf| else 0, s.src, env);
    match got
    case Pending => Step(s, Waiting, rest)
    case Failed(_) => Step(s, Refused(ConnectionError(ProtocolError)), rest)
    case Ready(bytes) => Step(State(s.buf + bytes, s.src[|bytes|..]), Got(|bytes|), rest)
  }

  /** The two loops that read until `n` bytes are there; the second looks for a full buffer before it reads. */
  function Await(capacity: nat, n: nat, guarded: bool, s: State, env: seq<Answer>): (r: Step<()>)
    ensures r.verdict.Got? ==> |r.s.buf| >= n
    decreases |env|
  {
    if |s.buf| >= n then Step(s, Got(()), env)
    else if guarded && |s.buf| >= capacity then Step(s, Refused(ConnectionError(ProtocolError)), env)
    else
      var a := Arrive(capacity, s, env);
      match a.verdict
      case Waiting => Step(a.s, Waiting, a.env)
      case Refused(e) => Step(a.s, Refused(e), a.env)
      case Got(k) =>
        if k == 0 then Step(a.s, Refused(ConnectionError(ProtocolError)), a.env)
        else Await(capacity, n, guarded, a.s, a.env)
  }

  /** The second half of `read_next_frame`: the payload behind this header. */
  function ReadPayload(capacity: nat, raw: RawHeader, s: State, env: seq<Answer>): Step<Frame> {
    var p := Await(capacity, raw.length, true, s, env);
    match p.verdict
    case Refused(e) => Step(p.s, Refused(e), p.env)
    case Waiting => Step(p.s, Waiting, p.env)
    case Got(_) =>
      var f := FromHeaderAndPayload(raw, p.s.buf[..raw.length]);
      if f.Err? then Step(p.s, Refused(f.error), p.env)
      else Step(p.s.(buf := p.s.buf[raw.length..]), Got(f.value), p.env)
  }

  /** `read_next_frame`. */
  function ReadNext(capacity: nat, s: State, env: seq<Answer>): Step<Frame> {
    var h := Await(capacity, 9, false, s, env);
    match h.verdict
    case Refused(e) => Step(h.s, Refused(e), h.env)
    case Waiting => Step(h.s, Waiting, h.env)
    case Got(_) =>
      var raw := FromSlice(h.s.buf);
      if raw.Err? then Step(h.s, Refused(raw.error), h.env)
      else ReadPayload(capacity, raw.value, h.s.(buf := h.s.buf[9..]), h.env)
  }

  // ---------- independence of the segmentation ----------

  lemma ArriveKeeps(capacity: nat, s: State, env: seq<Answer>)
    requires |s.buf| <= capacity
    ensures var r := Arrive(capacity, s, env);
            && s.buf <= r.s.buf && r.s.buf + r.s.src == s.buf + s.src && |r.s.buf| <= capacity
            && (Fail in r.env ==> Fail in env)
            && (r.verdict.Refused? ==> r.verdict.error == ConnectionError(ProtocolError) && Fail in env)
            && (r.verdict == Got(0) ==> |s.buf| == capacity || s.src == [])
  {
    var (got, rest) := ReadSource(capacity - |s.buf|, s.src, env);
    if got.Ready? {
      assert got.value + s.src[|got.value|..] == s.src;
      assert s.buf + got.value + s.src[|got.value|..] == s.buf + (got.value + s.src[|got.value|..]);
    }
  }

  lemma {:induction false} AwaitKeeps(capacity: nat, n: nat, guarded: bool, s: State, env: seq<Answer>)
    requires |s.buf| <= capacity
    ensures var r := Await(capacity, n, guarded, s, env);
            && s.buf <= r.s.buf && r.s.buf + r.s.src == s.buf + s.src && |r.s.buf| <= capacity
            && (Fail in r.env ==> Fail in env)
            && (r.verdict.Refused? ==>
                  && r.verdict.error == ConnectionError(ProtocolError)
                  && (Fail in env || n > capacity || n > |s.buf + s.src|))
    decreases |env|
  {
    if |s.buf| < n && !(guarded && |s.buf| >= capacity) {
      ArriveKeeps(capacity, s, env);
      var a := Arrive(capacity, s, env);
      if a.verdict.Got? && a.verdict.value != 0 {
        AwaitKeeps(capacity, n, guarded, a.s, a.env);
      }
    }
  }

  lemma {:induction false} AwaitWaits(capacity: nat, n: nat, guarded: bool, s: State, env: seq<Answer>)
    ensures var r := Await(capacity, n, guarded, s, env);
            && (r.verdict.Waiting? ==> Block in env || r.env == [])
            && (Block in r.env ==> Block in env)
    decreases |env|
  {
    if |s.buf| < n && !(guarded && |s.buf| >= capacity) {
      var a := Arrive(capacity, s, env);
      if a.verdict.Got? && a.verdict.value != 0 {
        AwaitWaits(capacity, n, guarded, a.s, a.env);
      }
    }
  }

  /** A call waits only where the peer does. */
  lemma WaitsForPeer(capacity: nat, s: State, env: seq<Answer>)
    ensures var r := ReadNext(capacity, s, env); r.verdict.Waiting? ==> Block in env || r.env == []
  {
    AwaitWaits(capacity, 9, false, s, env);
    var h := Await(capacity, 9, false, s, env);
    if h.verdict.Got? {
      var raw := FromSlice(h.s.buf).value;
      AwaitWaits(capacity, raw.length, true, h.s.(buf := h.s.buf[9..]), h.env);
    }
  }

  /** A payload that does not fit is refused as soon as the buffer is full, without waiting for more. */
  lemma {:induction false} WaitsWithRoom(capacity: nat, n: nat, s: State, env: seq<Answer>)
    requires |s.buf| <= capacity
    ensures Await(capacity, n, true, s, env).verdict.Waiting? ==> |Await(capacity, n, true, s, env).s.buf| < capacity
    decreases |env|
  {
    if |s.buf| < n && |s.buf| < capacity {
      ArriveKeeps(capacity, s, env);
      var a := Arrive(capacity, s, env);
      if a.verdict.Got? && a.verdict.value != 0 {
        WaitsWithRoom(capacity, n, a.s, a.env);
      }
    }
  }

  /** A call that read the first frame of `u`, or failed where the reference does, with its error. */
  predicate ReadsAs(capacity: nat, u: seq<byte>, r: Step<Frame>, env: seq<Answer>) {
    var first := ReadFirst(capacity, u);
    && |r.s.buf| <= capacity
    && (r.verdict.Got? ==> first == Ok(Read(r.verdict.value, r.s.buf + r.s.src)))
    && (r.verdict.Refused? && Fail !in env ==> first == Err(r.verdict.error))
    && (Fail in r.env ==> Fail in env)
  }

  /** However the bytes arrive, an uninterrupted call returns the first frame of all of them and leaves the rest, and
      fails only where the reference does, with its error. */
  lemma ReadsFirst(capacity: nat, s: State, env: seq<Answer>)
    requires |s.buf| <= capacity
    ensures ReadsAs(capacity, s.buf + s.src, ReadNext(capacity, s, env), env)
  {
    var h := Await(capacity, 9, false, s, env);
    AwaitKeeps(capacity, 9, false, s, env);
    if h.verdict.Got? {
      HeaderInFront(h.s.buf, h.s.src);
      var t := h.s.(buf := h.s.buf[9..]);
      assert t.buf + t.src == (s.buf + s.src)[9..];
      PayloadReads(capacity, s.buf + s.src, FromSlice(h.s.buf).value, t, h.env);
      LaterReads(capacity, s.buf + s.src, ReadPayload(capacity, FromSlice(h.s.buf).value, t, h.env), env, h.env);
    }
  }

  lemma LaterReads(capacity: nat, u: seq<byte>, r: Step<Frame>, env: seq<Answer>, later: seq<Answer>)
    requires ReadsAs(capacity, u, r, later) && (Fail in later ==> Fail in env)
    ensures ReadsAs(capacity, u, r, env)
  {
  }

  /** The second phase, behind the header of `u`. */
  lemma PayloadReads(capacity: nat, u: seq<byte>, raw: RawHeader, t: State, env: seq<Answer>)
    requires |u| >= 9 && capacity >= 9 && |t.buf| <= capacity && u[9..] == t.buf + t.src && FromSlice(u) == Ok(raw)
    ensures ReadsAs(capacity, u, ReadPayload(capacity, raw, t, env), env)
  {
    var p := Await(capacity, raw.length, true, t, env);
    AwaitKeeps(capacity, raw.length, true, t, env);
    if p.verdict.Got? {
      PayloadInFront(u, p.s.buf, p.s.src, raw.length);
    }
  }

  lemma HeaderInFront(buf: seq<byte>, src: seq<byte>)
    requires |buf| >= 9
    ensures FromSlice(buf + src) == FromSlice(buf)
  {
    assert (buf + src)[..3] == buf[..3] && (buf + src)[5..9] == buf[5..9];
  }

  lemma PayloadInFront(u: seq<byte>, buf: seq<byte>, src: seq<byte>, n: nat)
    requires |u| >= 9 && u[9..] == buf + src && n <= |buf|
    ensures |u| >= 9 + n && u[9..9 + n] == buf[..n] && u[9 + n..] == buf[n..] + src
  {
    assert u[9..9 + n] == u[9..][..n] && u[9 + n..] == u[9..][n..];
  }

  // ---------- a whole stream of frames ----------

  /** One call after the other, as long as they return frames. */
  function ReadMany(capacity: nat, s: State, envs: seq<seq<Answer>>): (r: (seq<Frame>, Verdict<()>, State))
    decreases |envs|
  {
    if envs == [] then ([], Got(()), s)
    else
      var r := ReadNext(capacity, s, envs[0]);
      match r.verdict
      case Refused(e) => ([], Refused(e), r.s)
      case Waiting => ([], Waiting, r.s)
      case Got(f) =>
        var (frames, verdict, t) := ReadMany(capacity, r.s, envs[1..]);
        ([f] + frames, verdict, t)
  }

  function WriteAll(frames: seq<Frame>): seq<byte> {
    FlatMap(frames, Write)
  }

  predicate Fits(capacity: nat, frames: seq<Frame>) {
    forall i :: 0 <= i < |frames| ==> WellFormed(frames[i]) && |frames[i].payload| <= capacity
  }

  predicate FailsIn(envs: seq<seq<Answer>>) {
    exists i :: 0 <= i < |envs| && Fail in envs[i]
  }

  lemma FailsLater(envs: seq<seq<Answer>>)
    requires envs != []
    ensures Fail in envs[0] || FailsIn(envs[1..]) ==> FailsIn(envs)
  {
    if FailsIn(envs[1..]) {
      var i :| 0 <= i < |envs[1..]| && Fail in envs[1..][i];
      assert Fail in envs[i + 1];
    }
  }

  /** The next of the written frames comes back. */
  lemma NextFrame(capacity: nat, frames: seq<Frame>, s: State, tail: seq<byte>, env: seq<Answer>)
    requires capacity >= 9 && Fits(capacity, frames) && frames != [] && |s.buf| <= capacity
    requires s.buf + s.src == WriteAll(frames) + tail
    ensures var r := ReadNext(capacity, s, env);
            && |r.s.buf| <= capacity
            && (r.verdict.Got? ==>
                  r.verdict.value == frames[0] && r.s.buf + r.s.src == WriteAll(frames[1..]) + tail)
            && (r.verdict.Refused? ==> Fail in env)
  {
    var rest := WriteAll(frames[1..]) + tail;
    assert WriteAll(frames) + tail == Write(frames[0]) + rest;
    ReadWrittenFrame(capacity, frames[0], rest);
    ReadsFirst(capacity, s, env);
  }

  lemma FirstOf(frames: seq<Frame>, out: seq<Frame>, n: nat)
    requires 0 < n <= |frames| && out <= frames[1..]
    ensures [frames[0]] + out <= frames
    ensures out == frames[1..][..n - 1] ==> [frames[0]] + out == frames[..n]
    ensures frames[1..][n - 1..] == frames[n..]
  {
    assert [frames[0]] + frames[1..] == frames;
  }

  /** Well-formed frames written one after the other come back unchanged and in order, in whatever pieces the bytes
      arrive: the calls return a prefix of them, all of them if none has to wait, and none fails while there are
      frames and the peer's stream does not fail. */
  lemma {:induction false} FramesRoundTrip(capacity: nat, frames: seq<Frame>, s: State, tail: seq<byte>,
                                           envs: seq<seq<Answer>>)
    requires capacity >= 9 && Fits(capacity, frames) && |envs| <= |frames| && |s.buf| <= capacity
    requires s.buf + s.src == WriteAll(frames) + tail
    ensures var (out, verdict, t) := ReadMany(capacity, s, envs);
            && out <= frames
            && (verdict.Got? ==> out == frames[..|envs|] && t.buf + t.src == WriteAll(frames[|envs|..]) + tail)
            && (verdict.Refused? ==> FailsIn(envs))
    decreases |envs|
  {
    if envs != [] {
      NextFrame(capacity, frames, s, tail, envs[0]);
      FailsLater(envs);
      var r := ReadNext(capacity, s, envs[0]);
      if r.verdict.Got? {
        FramesRoundTrip(capacity, frames[1..], r.s, tail, envs[1..]);
        FirstOf(frames, ReadMany(capacity, r.s, envs[1..]).0, |envs|);
      }
    }
  }

  /** A payload that does not fit the buffer is never returned. */
  lemma TooLongNeverRead(capacity: nat, f: Frame, s: State, tail: seq<byte>, env: seq<Answer>)
    requires capacity < |f.payload| < 0x100_0000 && |s.buf| <= capacity
    requires s.buf + s.src == Write(f) + tail
    ensures !ReadNext(capacity, s, env).verdict.Got?
    ensures Block !in env && Fail !in env && |env| > |s.src| ==>
              ReadNext(capacity, s, env).verdict == Refused(ConnectionError(ProtocolError))
  {
    TooLong(capacity, f, tail);
    ReadsFirst(capacity, s, env);
    if Block !in env && |env| > |s.src| {
      NoWait(capacity, s, env);
    }
  }

  /** Every byte not yet arrived costs at most one answer. */
  lemma {:induction false} AwaitEnds(capacity: nat, n: nat, guarded: bool, s: State, env: seq<Answer>)
    requires Block !in env && |env| > |s.src|
    ensures var r := Await(capacity, n, guarded, s, env);
            && !r.verdict.Waiting? && Block !in r.env && (r.verdict.Got? ==> |r.env| > |r.s.src|)
    decreases |env|
  {
    if |s.buf| < n && !(guarded && |s.buf| >= capacity) {
      assert env[0] in env;
      var a := Arrive(capacity, s, env);
      if a.verdict.Got? && a.verdict.value != 0 {
        AwaitEnds(capacity, n, guarded, a.s, a.env);
      }
    }
  }

  lemma NoWait(capacity: nat, s: State, env: seq<Answer>)
    requires Block !in env && |env| > |s.src|
    ensures !ReadNext(capacity, s, env).verdict.Waiting?
  {
    AwaitEnds(capacity, 9, false, s, env);
    var h := Await(capacity, 9, false, s, env);
    if h.verdict.Got? && FromSlice(h.s.buf).Ok? {
      AwaitEnds(capacity, FromSlice(h.s.buf).value.length, true, h.s.(buf := h.s.buf[9..]), h.env);
    }
  }

  // ---------- the object ----------

  class Connection {
    const buffer: Buffer.Buffer
    // The bytes that have not arrived yet, how they arrive, and what was written.
    var src: seq<byte>
    var answers: seq<Answer>
    var written: seq<byte>

    ghost function View(): State
      requires buffer.Valid()
      reads this, buffer, buffer.inner
    {
      State(buffer.Readable(), src)
    }

    constructor (capacity: nat, src: seq<byte>)
      ensures buffer.Valid() && buffer.inner.Length == capacity && View() == State([], src) && written == []
    {
      buffer := new Buffer.Buffer.WithCapacity(capacity);
      this.src, answers, written := src, [], [];
    }

    /** `read_from_reader`. */
    method Receive() returns (got: Verdict<nat>)
      requires buffer.Valid()
      modifies this`src, this`answers, buffer, buffer.inner
      ensures buffer.Valid() && buffer.inner == old(buffer.inner)
      ensures Step(View(), got, answers) == Arrive(buffer.inner.Length, old(View()), old(answers))
    {
      var (poll, rest) := ReadSource(buffer.AvailableForWrite(), src, answers);
      answers := rest;
      match poll {
        case Pending => return Waiting;
        case Failed(_) => return Refused(ConnectionError(ProtocolError));
        case Ready(bytes) =>
          src := src[|bytes|..];
          var n := buffer.Write(bytes);
          assert bytes[..|bytes|] == bytes;
          return Got(|bytes|);
      }
    }

    method ReceiveUntil(n: nat, guarded: bool) returns (verdict: Verdict<()>)
      requires buffer.Valid()
      modifies this`src, this`answers, buffer, buffer.inner
      ensures buffer.Valid() && buffer.inner == old(buffer.inner)
      ensures Step(View(), verdict, answers)
           == Await(buffer.inner.Length, n, guarded, old(View()), old(answers))
    {
      while buffer.AvailableForRead() < n
        invariant buffer.Valid() && buffer.inner == old(buffer.inner)
        invariant Await(buffer.inner.Length, n, guarded, View(), answers)
               == Await(buffer.inner.Length, n, guarded, old(View()), old(answers))
        decreases |answers|
      {
        if guarded && buffer.AvailableForWrite() == 0 {
          return Refused(ConnectionError(ProtocolError));
        }
        var got := Receive();
        match got {
          case Waiting => return Waiting;
          case Refused(e) => return Refused(e);
          case Got(k) =>
            if k == 0 {
              return Refused(ConnectionError(ProtocolError));
            }
        }
      }
      return Got(());
    }

    method ReadNextFrame() returns (verdict: Verdict<Frame>)
      requires buffer.Valid()
      modifies this`src, this`answers, buffer, buffer.inner
      ensures buffer.Valid() && buffer.inner == old(buffer.inner)
      ensures Step(View(), verdict, answers) == ReadNext(buffer.inner.Length, old(View()), old(answers))
    {
      var header := ReceiveUntil(9, false);
      match header {
        case Waiting => return Waiting;
        case Refused(e) => return Refused(e);
        case Got(_) =>
      }
      var raw := FromSlice(buffer.Readable());
      if raw.Err? {
        return Refused(raw.error);
      }
      buffer.Progress(9);
      buffer.Rotate();
      var payload := ReceiveUntil(raw.value.length, true);
      match payload {
        case Waiting => return Waiting;
        case Refused(e) => return Refused(e);
        case Got(_) =>
      }
      var frame := FromHeaderAndPayload(raw.value, buffer.Readable()[..raw.value.length]);
      if frame.Err? {
        return Refused(frame.error);
      }
      buffer.Progress(raw.value.length);
      buffer.Rotate();
      return Got(frame.value);
    }

    /** `write_frame`. */
    method WriteFrame(f: Frame)
      modifies this`written
      ensures written == old(written) + Write(f)
    {
      written := written + ToBytes(|f.payload|, 3);
      written := written + [Code(f.header.kind)];
      written := written + [Bits(f.header.flags)];
      written := written + ToBytes(f.header.stream, 4);
      written := written + f.payload;
    }
  }
}
