/** src/request.rs: `ChunkedReader`, a resumable decoder over a source that hands out any part of its bytes. */
module ChunkedReader {
  import opened Basics
  import opened Polling
  import opened Runs
  import Buffer
  import opened Parse
  import opened ChunkHeader

  // ---------- the reference decoder ----------

  /** A body and what follows it, or why there is none; a size is too long for a build with overflow checks only. */
  datatype Decoded = Body(body: seq<byte>, rest: seq<byte>) | Malformed | TooLong

  function Prepend(s: seq<byte>, d: Decoded): Decoded {
    if d.Body? then Body(s + d.body, d.rest) else d
  }

  /** A line of digits and CR NL, together at most `limit` bytes. */
  predicate SizeLine(limit: nat, u: seq<byte>) {
    var n := HexRun(u);
    1 <= n && n + 2 <= limit && LineEnd(u[n..])
  }

  /** A size line, the data, and so on until size zero. A build with overflow checks takes sizes of at most 16 digits,
      one without takes the wrapped value of any. */
  function Decode(checked: bool, limit: nat, u: seq<byte>): Decoded
    decreases |u|, 0
  {
    var n := HexRun(u);
    if !SizeLine(limit, u) then Malformed
    else if checked && n > 16 then TooLong
    else
      var size := if n <= 16 then HexValue(u[..n]) else WrappedValue(u[..n]);
      if size == 0 then Terminated(u[n + 2..]) else DecodeData(checked, limit, size, u[n + 2..])
  }

  function Terminated(u: seq<byte>): Decoded {
    if LineEnd(u) then Body([], u[2..]) else Malformed
  }

  /** The rest of a chunk of which `left` bytes are still to come. */
  function DecodeData(checked: bool, limit: nat, left: nat, u: seq<byte>): Decoded
    decreases |u|, 1
  {
    if left <= |u| then Prepend(u[..left], DecodeNext(checked, limit, u[left..])) else Malformed
  }

  /** The CR NL behind the data, then the next chunk. */
  function DecodeNext(checked: bool, limit: nat, u: seq<byte>): Decoded
    decreases |u|, 0
  {
    if LineEnd(u) then Decode(checked, limit, u[2..]) else Malformed
  }

  // ---------- the reader ----------

  datatype Status = WaitingForChunk | ReadingChunk | Done

  /** `checked` tells whether the build has overflow checks, `buf` is the readable part of the header buffer of that
      capacity, and `src` what the source still holds. */
  datatype Reader = Reader(
    checked: bool,
    status: Status,
    size: nat,
    count: nat,
    buf: seq<byte>,
    capacity: nat,
    src: seq<byte>)

  function New(checked: bool, capacity: nat, src: seq<byte>): Reader {
    Reader(checked, WaitingForChunk, 0, 0, [], capacity, src)
  }

  datatype Polled = Polled(r: Reader, poll: Poll<seq<byte>>, env: seq<Answer>)

  /** `stop` is what the poll returns early. */
  datatype Filled = Filled(r: Reader, stop: Option<Poll<seq<byte>>>, env: seq<Answer>)

  function Fill(r: Reader, env: seq<Answer>): (f: Filled)
    ensures f.stop.None? ==> |f.env| < |env|
    ensures f.stop.Some? ==> !f.stop.value.Ready? && f.r == r
  {
    if |r.buf| >= r.capacity then Filled(r, Some(Failed(BufferFull)), env)
    else
      var (got, rest) := ReadSource(1, r.src, env);
      match got
      case Ready(s) =>
        if s == [] then Filled(r, Some(Failed(UnexpectedEof)), rest)
        else Filled(r.(buf := r.buf + s, src := r.src[|s|..]), None, rest)
      case Pending => Filled(r, Some(Pending), rest)
      case Failed(e) => Filled(r, Some(Failed(e)), rest)
  }

  /** The loop that looks for the end of the chunk header, a byte at a time. */
  function FillHeader(r: Reader, env: seq<Answer>): (f: Filled)
    ensures f.stop.Some? ==> !f.stop.value.Ready?
    ensures f.stop.None? ==> ChunkHeaderEnd(f.r.buf).Found?
    decreases |env|
  {
    match ChunkHeaderEnd(r.buf)
    case Found(_) => Filled(r, None, env)
    case Bad => Filled(r, Some(Failed(InvalidData)), env)
    case More =>
      var f := Fill(r, env);
      if f.stop.Some? then f else FillHeader(f.r, f.env)
  }

  /** The loop that waits for the two bytes of a line end. */
  function FillLineEnd(r: Reader, env: seq<Answer>): (f: Filled)
    ensures f.stop.Some? ==> !f.stop.value.Ready?
    ensures f.stop.None? ==> |f.r.buf| >= 2
    decreases |env|
  {
    if 2 > |r.buf| then
      var f := Fill(r, env);
      if f.stop.Some? then f else FillLineEnd(f.r, f.env)
    else Filled(r, None, env)
  }

  function ReadData(r: Reader, room: nat, env: seq<Answer>): Polled
    requires r.count < r.size
  {
    var (got, rest) := ReadSource(Min(r.size - r.count, room), r.src, env);
    match got
    case Ready(s) =>
      if s == [] then Polled(r, Failed(UnexpectedEof), rest)
      else Polled(r.(count := r.count + |s|, src := r.src[|s|..]), Ready(s), rest)
    case _ => Polled(r, got, rest)
  }

  function ReadTerminator(r: Reader, env: seq<Answer>): Polled {
    var f := FillLineEnd(r, env);
    if f.stop.Some? then Polled(f.r, f.stop.value, f.env)
    else if LineEnd(f.r.buf) then Polled(f.r, Ready([]), f.env)
    else Polled(f.r, Failed(InvalidData), f.env)
  }

  function ReadHeader(r: Reader, room: nat, env: seq<Answer>): Polled {
    var f := FillHeader(r, env);
    if f.stop.Some? then Polled(f.r, f.stop.value, f.env)
    else
      var buf := f.r.buf;
      var end := ChunkHeaderEnd(buf).end;
      var size := ParseHex(f.r.checked, buf[..HexRun(buf)]);
      if size.None? then Polled(f.r, Failed(Overflow), f.env)
      else
        var r' := f.r.(buf := buf[Min(end, |buf|)..], size := size.value, count := 0);
        if size.value > 0 then ReadData(r'.(status := ReadingChunk), room, f.env)
        else ReadTerminator(r'.(status := Done), f.env)
  }

  function ReadChunkData(r: Reader, room: nat, env: seq<Answer>): Polled
    requires r.count <= r.size
  {
    if r.count == r.size then
      var f := FillLineEnd(r, env);
      if f.stop.Some? then Polled(f.r, f.stop.value, f.env)
      else if LineEnd(f.r.buf) then
        ReadHeader(f.r.(buf := f.r.buf[2..], status := WaitingForChunk), room, f.env)
      else Polled(f.r, Failed(InvalidData), f.env)
    else ReadData(r, room, env)
  }

  function PollRead(r: Reader, room: nat, env: seq<Answer>): Polled
    requires r.count <= r.size
  {
    match r.status
    case WaitingForChunk => ReadHeader(r, room, env)
    case ReadingChunk => ReadChunkData(r, room, env)
    case Done => ReadTerminator(r, env)
  }

  // ---------- refinement ----------

  /** The scanner had no answer before the last byte came in. */
  predicate Scanning(buf: seq<byte>) {
    buf == [] || ChunkHeaderEnd(buf[..|buf| - 1]).More?
  }

  predicate Valid(r: Reader) {
    && r.count <= r.size && |r.buf| <= r.capacity
    && match r.status
       case WaitingForChunk => Scanning(r.buf)
       case ReadingChunk => r.capacity >= 3 && |r.buf| <= 2 && (r.count < r.size ==> r.buf == [])
       case Done => r.capacity >= 3 && |r.buf| <= 2
  }

  /** The bytes not taken yet. */
  function Unread(r: Reader): (u: seq<byte>)
    ensures r.buf == [] ==> u == r.src
  {
    r.buf + r.src
  }

  /** What the reference decoder makes of the bytes the reader has not passed on yet. */
  function Left(r: Reader): Decoded
    requires r.count <= r.size
  {
    match r.status
    case WaitingForChunk => Decode(r.checked, r.capacity, Unread(r))
    case ReadingChunk => DecodeData(r.checked, r.capacity, r.size - r.count, Unread(r))
    case Done => Terminated(Unread(r))
  }

  function Output(p: Poll<seq<byte>>): seq<byte> {
    if p.Ready? then p.value else []
  }

  predicate Reliable(env: seq<Answer>) {
    Fail !in env
  }

  /** A poll hands out the next bytes of the decoded body; an empty answer is the end of the body, with exactly its
      encoding taken from the source; and with room to fill and a reliable source only an undecodable input fails. */
  ghost predicate Refines(r: Reader, room: nat, env: seq<Answer>, p: Polled)
    requires r.count <= r.size
  {
    p.r.count <= p.r.size && Refined(r, room, env, p, Left(r), Left(p.r))
  }

  ghost predicate Refined(r: Reader, room: nat, env: seq<Answer>, p: Polled, before: Decoded,
                          after: Decoded)
  {
    && Valid(p.r) && p.r.capacity == r.capacity && p.r.checked == r.checked
    && before == Prepend(Output(p.poll), after)
    && (p.poll == Ready([]) ==> p.r.status.Done? && LineEnd(p.r.buf))
    && (p.poll.Ready? ==> |p.poll.value| <= room)
    && (p.poll.Failed? && room > 0 && Reliable(env) ==> !before.Body?)
    && (p.poll == Failed(Overflow) ==> before == TooLong)
  }

  lemma PrependNothing(d: Decoded)
    ensures Prepend([], d) == d
  {
    if d.Body? {
      assert [] + d.body == d.body;
    }
  }

  lemma PrependTwice(s: seq<byte>, t: seq<byte>, d: Decoded)
    ensures Prepend(s, Prepend(t, d)) == Prepend(s + t, d)
  {
    if d.Body? {
      assert s + (t + d.body) == s + t + d.body;
    }
  }

  // ---------- filling the buffer ----------

  /** What both fill loops keep, and why they stop. */
  ghost predicate FilledFrom(r: Reader, env: seq<Answer>, f: Filled) {
    && f.r.(buf := r.buf, src := r.src) == r
    && f.r.buf + f.r.src == r.buf + r.src
    && (Reliable(env) ==> Reliable(f.env))
    && (f.stop.Some? && f.stop.value.Failed? ==>
          match f.stop.value.error
          case BufferFull => |f.r.buf| >= r.capacity
          case UnexpectedEof => f.r.src == []
          case StreamFailed => !Reliable(env)
          case InvalidData => ChunkHeaderEnd(f.r.buf).Bad?
          case _ => false)
  }

  lemma FillStep(r: Reader, env: seq<Answer>)
    ensures var f := Fill(r, env);
            && FilledFrom(r, env, f) && f.stop != Some(Failed(InvalidData))
            && (f.stop.None? ==> |r.buf| < r.capacity && |f.r.buf| == |r.buf| + 1 && f.r.buf[..|r.buf|] == r.buf)
  {
    var f := Fill(r, env);
    if f.stop.None? {
      assert r.src == r.src[..1] + r.src[1..];
      assert r.buf + r.src == r.buf + r.src[..1] + r.src[1..];
    }
  }

  lemma {:induction false} FillLineEndKeeps(r: Reader, env: seq<Answer>)
    requires |r.buf| <= 2
    ensures var f := FillLineEnd(r, env);
            && FilledFrom(r, env, f) && |f.r.buf| <= 2 && f.stop != Some(Failed(InvalidData))
            && (|r.buf| <= r.capacity ==> |f.r.buf| <= r.capacity)
            && (f.stop.Some? && f.stop.value.Failed? ==> |f.r.buf| < 2)
    decreases |env|
  {
    if 2 > |r.buf| {
      FillStep(r, env);
      var f := Fill(r, env);
      if f.stop.None? {
        FillLineEndKeeps(f.r, f.env);
      }
    }
  }

  lemma {:induction false} FillHeaderKeeps(r: Reader, env: seq<Answer>)
    requires Scanning(r.buf) && |r.buf| <= r.capacity
    ensures var f := FillHeader(r, env);
            && FilledFrom(r, env, f) && Scanning(f.r.buf) && |f.r.buf| <= r.capacity
            && (f.stop == Some(Failed(InvalidData)) ==> ChunkHeaderEnd(f.r.buf).Bad?)
            && (f.stop == Some(Failed(BufferFull)) || f.stop == Some(Failed(UnexpectedEof)) ==>
                  ChunkHeaderEnd(f.r.buf).More?)
    decreases |env|
  {
    if ChunkHeaderEnd(r.buf).More? {
      FillStep(r, env);
      var f := Fill(r, env);
      if f.stop.None? {
        assert f.r.buf[..|f.r.buf| - 1] == r.buf;
        FillHeaderKeeps(f.r, f.env);
      }
    }
  }

  // ---------- headers ----------

  /** A header is found with its last byte, so the buffer holds nothing beyond it. */
  lemma FoundAtEnd(buf: seq<byte>)
    requires Scanning(buf) && ChunkHeaderEnd(buf).Found?
    ensures ChunkHeaderEnd(buf).end == |buf| == HexRun(buf) + 2 && HexRun(buf) > 0 && LineEnd(buf[HexRun(buf)..])
  {
    HeaderAccepts(buf);
    var n := HexRun(buf);
    assert buf[n..n + 2][0] == buf[n] && buf[n..n + 2][1] == buf[n + 1];
    HeaderLocal(buf, Max(n + 2, |buf| - 1));
  }

  /** A size line is a header that the scanner accepts. */
  lemma SizeLineFound(limit: nat, u: seq<byte>)
    requires SizeLine(limit, u)
    ensures ChunkHeaderEnd(u) == Found(HexRun(u) + 2)
  {
    var n := HexRun(u);
    assert u[n..n + 2] == CRNL by {
      assert u[n..][0] == u[n] && u[n..][1] == u[n + 1];
    }
    HeaderAccepts(u);
  }

  /** The scanner's verdict on the bytes in the buffer is the decoder's on all of them. */
  lemma HeaderRefused(checked: bool, limit: nat, buf: seq<byte>, src: seq<byte>)
    requires ChunkHeaderEnd(buf).Bad? || (ChunkHeaderEnd(buf).More? && (|buf| >= limit || src == []))
    ensures Decode(checked, limit, buf + src) == Malformed
  {
    var u := buf + src;
    assert u[..|buf|] == buf;
    if ChunkHeaderEnd(buf).Bad? {
      HeaderTailOnline(buf, src);
      Undecodable(checked, limit, u);
    } else if ChunkHeaderEnd(u).Found? && ChunkHeaderEnd(u).end <= limit {
      HeaderAccepts(u);
      HeaderLocal(u, |buf|);
    } else {
      Undecodable(checked, limit, u);
    }
  }

  lemma Undecodable(checked: bool, limit: nat, u: seq<byte>)
    requires !(ChunkHeaderEnd(u).Found? && ChunkHeaderEnd(u).end <= limit)
    ensures Decode(checked, limit, u) == Malformed
  {
    if SizeLine(limit, u) {
      SizeLineFound(limit, u);
    }
  }

  /** A complete header decodes to its size and what follows it. */
  lemma HeaderDecoded(checked: bool, limit: nat, buf: seq<byte>, src: seq<byte>)
    requires |buf| == HexRun(buf) + 2 <= limit && HexRun(buf) > 0 && LineEnd(buf[HexRun(buf)..])
    ensures var size := ParseHex(checked, buf[..HexRun(buf)]);
            Decode(checked, limit, buf + src) ==
              if size.None? then TooLong
              else if size.value == 0 then Terminated(src) else DecodeData(checked, limit, size.value, src)
  {
    var n := HexRun(buf);
    var u := buf + src;
    SkipOnline(buf, 0, HexClass(), src);
    assert u[..n] == buf[..n];
    assert AllHex(buf[..n]) by {
      assert forall i :: 0 <= i < n ==> HexClass()(buf[i]);
    }
    assert u[n..][0] == buf[n..][0] && u[n..][1] == buf[n..][1];
    assert u[n + 2..] == src;
  }

  // ---------- every poll refines the decoder ----------

  /** A poll for data, whatever the decoder makes of the bytes before and after it. */
  lemma DataRefined(r: Reader, room: nat, env: seq<Answer>, before: Decoded, after: Decoded)
    requires Valid(r) && r.status.ReadingChunk? && r.count < r.size
    requires before == Prepend(Output(ReadData(r, room, env).poll), after) && (r.src == [] ==> !before.Body?)
    ensures Refined(r, room, env, ReadData(r, room, env), before, after)
  {
  }

  lemma ReadDataRefines(r: Reader, room: nat, env: seq<Answer>)
    requires Valid(r) && r.status.ReadingChunk? && r.count < r.size
    ensures Refines(r, room, env, ReadData(r, room, env))
  {
    var p := ReadData(r, room, env);
    DataLeft(r, p.r, Output(p.poll), room, env);
    DataRefined(r, room, env, Left(r), Left(p.r));
  }

  lemma DataLeft(r: Reader, v: Reader, out: seq<byte>, room: nat, env: seq<Answer>)
    requires Valid(r) && r.status.ReadingChunk? && r.count < r.size
    requires v == ReadData(r, room, env).r && out == Output(ReadData(r, room, env).poll)
    ensures Left(r) == Prepend(out, Left(v))
    ensures r.src == [] ==> !Left(r).Body?
  {
    DataMoves(r, v, out, room, env);
    LeftTaken(r, v, out);
    if r.src == [] {
      LeftStarved(r);
    }
  }

  lemma DataMoves(r: Reader, v: Reader, out: seq<byte>, room: nat, env: seq<Answer>)
    requires r.status.ReadingChunk? && r.count < r.size
    requires v == ReadData(r, room, env).r && out == Output(ReadData(r, room, env).poll)
    ensures r.count + |out| <= r.size && r.src == out + v.src
    ensures v == r.(count := r.count + |out|, src := v.src)
  {
  }

  lemma LeftStarved(r: Reader)
    requires r.status.ReadingChunk? && r.count < r.size && r.buf == [] && r.src == []
    ensures !Left(r).Body?
  {
  }

  lemma LeftTaken(r: Reader, v: Reader, out: seq<byte>)
    requires r.status.ReadingChunk? && r.buf == [] && r.count + |out| <= r.size && r.src == out + v.src
    requires v == r.(count := r.count + |out|, src := v.src)
    ensures Left(r) == Prepend(out, Left(v))
  {
    var left := v.size - v.count;
    assert r.size - r.count == |out| + left;
    assert Unread(r) == out + v.src && Unread(v) == v.src;
    DataTaken(r.checked, r.capacity, left, out, v.src);
  }

  lemma DataTaken(checked: bool, limit: nat, left: nat, s: seq<byte>, u: seq<byte>)
    ensures DecodeData(checked, limit, |s| + left, s + u) == Prepend(s, DecodeData(checked, limit, left, u))
  {
    if left <= |u| {
      assert (s + u)[|s| + left..] == u[left..];
      assert (s + u)[..|s| + left] == s + u[..left];
      PrependTwice(s, u[..left], DecodeNext(checked, limit, u[left..]));
    }
  }

  lemma ReadTerminatorRefines(r: Reader, room: nat, env: seq<Answer>)
    requires Valid(r) && r.status.Done?
    ensures Refines(r, room, env, ReadTerminator(r, env))
  {
    FillLineEndKeeps(r, env);
    PrependNothing(Left(r));
    var f := FillLineEnd(r, env);
    var u := r.buf + r.src;
    assert f.stop == Some(Failed(UnexpectedEof)) ==> |u| == |f.r.buf| < 2;
    if f.stop.None? {
      assert u[0] == f.r.buf[0] && u[1] == f.r.buf[1];
    }
  }

  /** The state behind a complete header. */
  function Behind(r: Reader, size: nat): Reader {
    r.(buf := [], size := size, count := 0, status := if size > 0 then ReadingChunk else Done)
  }

  lemma HeaderTaken(r: Reader)
    requires Valid(r) && r.status.WaitingForChunk? && ChunkHeaderEnd(r.buf).Found?
    ensures var size := ParseHex(r.checked, r.buf[..HexRun(r.buf)]);
            && ChunkHeaderEnd(r.buf).end == |r.buf|
            && (size.None? ==> Left(r) == TooLong)
            && (size.Some? ==> Valid(Behind(r, size.value)) && Left(r) == Left(Behind(r, size.value)))
  {
    FoundAtEnd(r.buf);
    HeaderDecoded(r.checked, r.capacity, r.buf, r.src);
    var size := ParseHex(r.checked, r.buf[..HexRun(r.buf)]);
    if size.Some? {
      LeftBehind(r, size.value);
    }
  }

  lemma LeftBehind(r: Reader, size: nat)
    ensures Left(Behind(r, size))
         == if size == 0 then Terminated(r.src) else DecodeData(r.checked, r.capacity, size, r.src)
  {
    var v := Behind(r, size);
    assert Unread(v) == r.src && v.size - v.count == size;
  }

  lemma ReadHeaderRefines(r: Reader, room: nat, env: seq<Answer>)
    requires Valid(r) && r.status.WaitingForChunk?
    ensures Refines(r, room, env, ReadHeader(r, room, env))
  {
    FillHeaderKeeps(r, env);
    var f := FillHeader(r, env);
    assert Left(r) == Left(f.r);
    if f.stop.Some? || ParseHex(f.r.checked, f.r.buf[..HexRun(f.r.buf)]).None? {
      PrependNothing(Left(r));
      if f.stop.None? {
        HeaderTaken(f.r);
      } else if f.stop.value.Failed? && f.stop.value.error != StreamFailed {
        HeaderRefused(r.checked, r.capacity, f.r.buf, f.r.src);
      }
    } else {
      HeaderTaken(f.r);
      var v := Behind(f.r, ParseHex(f.r.checked, f.r.buf[..HexRun(f.r.buf)]).value);
      if v.size > 0 {
        ReadDataRefines(v, room, f.env);
      } else {
        ReadTerminatorRefines(v, room, f.env);
      }
      HeaderPassed(r, room, env, f, v);
    }
  }

  lemma HeaderPassed(r: Reader, room: nat, env: seq<Answer>, f: Filled, v: Reader)
    requires f == FillHeader(r, env) && f.stop.None? && ChunkHeaderEnd(f.r.buf).end == |f.r.buf|
    requires ParseHex(f.r.checked, f.r.buf[..HexRun(f.r.buf)]) == Some(v.size) && v == Behind(f.r, v.size)
    ensures ReadHeader(r, room, env) == if v.size > 0 then ReadData(v, room, f.env) else ReadTerminator(v, f.env)
  {
    assert f.r.buf[|f.r.buf|..] == [];
  }

  lemma ReadChunkDataRefines(r: Reader, room: nat, env: seq<Answer>)
    requires Valid(r) && r.status.ReadingChunk?
    ensures Refines(r, room, env, ReadChunkData(r, room, env))
  {
    if r.count == r.size {
      ChunkEndRefines(r, room, env);
    } else {
      ReadDataRefines(r, room, env);
    }
  }

  /** The CR NL behind the data, then the next header. */
  lemma ChunkEndRefines(r: Reader, room: nat, env: seq<Answer>)
    requires Valid(r) && r.status.ReadingChunk? && r.count == r.size
    ensures Refines(r, room, env, ReadChunkData(r, room, env))
  {
    FillLineEndKeeps(r, env);
    var f := FillLineEnd(r, env);
    if f.stop.None? && LineEnd(f.r.buf) {
      var v := f.r.(buf := f.r.buf[2..], status := WaitingForChunk);
      ReadHeaderRefines(v, room, f.env);
      EndPassed(r, f.r.buf, v);
      RefinesLater(r, v, room, env, f.env, ReadHeader(v, room, f.env));
    } else {
      EndAwaited(r, room, env, f);
    }
  }

  /** What is left to decode is the same behind the CR NL. */
  lemma EndPassed(r: Reader, buf: seq<byte>, v: Reader)
    requires r.status.ReadingChunk? && r.count == r.size && v.count <= v.size
    requires LineEnd(buf) && v.status.WaitingForChunk? && v.capacity == r.capacity && v.checked == r.checked
    requires v.buf == buf[2..] && buf + v.src == r.buf + r.src
    ensures Left(r) == Left(v)
  {
    var u := r.buf + r.src;
    assert u[0] == buf[0] && u[1] == buf[1] && u[2..] == v.buf + v.src;
    NothingLeft(r.checked, r.capacity, u);
  }

  lemma NothingLeft(checked: bool, limit: nat, u: seq<byte>)
    ensures DecodeData(checked, limit, 0, u) == DecodeNext(checked, limit, u)
  {
    assert u[0..] == u && u[..0] == [];
    PrependNothing(DecodeNext(checked, limit, u));
  }

  lemma RefinesLater(r: Reader, v: Reader, room: nat, env: seq<Answer>, later: seq<Answer>, p: Polled)
    requires r.count <= r.size && v.count <= v.size && Left(r) == Left(v)
    requires v.capacity == r.capacity && v.checked == r.checked
    requires Refines(v, room, later, p) && (Reliable(env) ==> Reliable(later))
    ensures Refines(r, room, env, p)
  {
  }

  /** The poll ends before the next header. */
  lemma EndAwaited(r: Reader, room: nat, env: seq<Answer>, f: Filled)
    requires Valid(r) && r.status.ReadingChunk? && r.count == r.size
    requires f == FillLineEnd(r, env) && (f.stop.Some? || !LineEnd(f.r.buf))
    ensures Refines(r, room, env, ReadChunkData(r, room, env))
  {
    FillLineEndKeeps(r, env);
    var u := r.buf + r.src;
    NothingLeft(r.checked, r.capacity, u);
    PrependNothing(Left(r));
    assert Left(f.r) == Left(r);
    if f.stop.None? {
      assert u[0] == f.r.buf[0] && u[1] == f.r.buf[1];
    } else {
      assert f.stop == Some(Failed(UnexpectedEof)) ==> |u| == |f.r.buf| < 2;
    }
  }

  lemma PollRefines(r: Reader, room: nat, env: seq<Answer>)
    requires Valid(r)
    ensures Refines(r, room, env, PollRead(r, room, env))
  {
    match r.status
    case WaitingForChunk => ReadHeaderRefines(r, room, env);
    case ReadingChunk => ReadChunkDataRefines(r, room, env);
    case Done => ReadTerminatorRefines(r, room, env);
  }

  /** After the end every poll says so again, without touching the source. */
  lemma EndStays(r: Reader, room: nat, env: seq<Answer>)
    requires r.count <= r.size && r.status.Done? && LineEnd(r.buf)
    ensures PollRead(r, room, env) == Polled(r, Ready([]), env)
    ensures Left(r) == Body([], (r.buf + r.src)[2..])
  {
  }

  /** A poll waits only when the source does. */
  lemma WaitsForSource(r: Reader, room: nat, env: seq<Answer>)
    requires r.count <= r.size
    ensures var p := PollRead(r, room, env); p.poll.Pending? ==> Block in env || p.env == []
  {
    if r.status.WaitingForChunk? {
      HeaderWaits(r, room, env);
    } else if r.status.Done? || r.count == r.size {
      LineEndWaits(r, env);
      var f := FillLineEnd(r, env);
      if r.status.ReadingChunk? && f.stop.None? && LineEnd(f.r.buf) {
        HeaderWaits(f.r.(buf := f.r.buf[2..], status := WaitingForChunk), room, f.env);
      }
    }
  }

  lemma {:induction false} LineEndWaits(r: Reader, env: seq<Answer>)
    ensures var f := FillLineEnd(r, env);
            (f.stop == Some(Pending) ==> Block in env || f.env == []) && (Block in f.env ==> Block in env)
    decreases |env|
  {
    if 2 > |r.buf| && Fill(r, env).stop.None? {
      LineEndWaits(Fill(r, env).r, Fill(r, env).env);
    }
  }

  lemma {:induction false} ScanWaits(r: Reader, env: seq<Answer>)
    ensures var f := FillHeader(r, env);
            (f.stop == Some(Pending) ==> Block in env || f.env == []) && (Block in f.env ==> Block in env)
    decreases |env|
  {
    if ChunkHeaderEnd(r.buf).More? && Fill(r, env).stop.None? {
      ScanWaits(Fill(r, env).r, Fill(r, env).env);
    }
  }

  lemma HeaderWaits(r: Reader, room: nat, env: seq<Answer>)
    ensures var p := ReadHeader(r, room, env); p.poll.Pending? ==> Block in env || p.env == []
  {
    ScanWaits(r, env);
    var f := FillHeader(r, env);
    if f.stop.None? {
      var buf := f.r.buf;
      var size := ParseHex(f.r.checked, buf[..HexRun(buf)]);
      if size == Some(0) {
        LineEndWaits(f.r.(buf := buf[Min(ChunkHeaderEnd(buf).end, |buf|)..], size := 0, count := 0, status := Done),
                     f.env);
      }
    }
  }

  // ---------- runs ----------

  datatype Call = Call(room: pos, env: seq<Answer>)

  /** A reader and what its caller saw: the bytes, how many polls were not pending, whether one told the end or
      failed, whether the source was reliable all along, and whether a size overflowed. */
  datatype Session = Session(
    r: Reader,
    out: seq<byte>,
    turns: nat,
    ended: bool,
    failed: bool,
    reliable: bool,
    overflowed: bool)

  function Start(checked: bool, limit: nat, src: seq<byte>): Session {
    Session(New(checked, limit, src), [], 0, false, false, true, false)
  }

  function Do(s: Session, c: Call): Session {
    if s.r.count > s.r.size then s
    else
      var p := PollRead(s.r, c.room, c.env);
      Session(p.r, s.out + Output(p.poll), if p.poll.Pending? then s.turns else s.turns + 1,
              s.ended || p.poll == Ready([]), s.failed || p.poll.Failed?, s.reliable && Fail !in c.env,
              s.overflowed || p.poll == Failed(Overflow))
  }

  ghost predicate Sound(checked: bool, limit: nat, src: seq<byte>, s: Session) {
    && Valid(s.r) && s.r.capacity == limit && s.r.checked == checked
    && Decode(checked, limit, src) == Prepend(s.out, Left(s.r))
    && (s.ended ==> s.r.status.Done? && LineEnd(s.r.buf))
    && (s.failed && s.reliable ==> !Decode(checked, limit, src).Body?)
    && (s.overflowed ==> Decode(checked, limit, src) == TooLong)
    && (!s.failed && !s.ended ==> s.turns <= |s.out|)
  }

  lemma StartSound(checked: bool, limit: nat, src: seq<byte>)
    ensures Sound(checked, limit, src, Start(checked, limit, src))
  {
    assert [] + src == src;
    PrependNothing(Decode(checked, limit, src));
  }

  lemma DoSound(checked: bool, limit: nat, src: seq<byte>, s: Session, c: Call)
    requires Sound(checked, limit, src, s)
    ensures Sound(checked, limit, src, Do(s, c))
  {
    PollRefines(s.r, c.room, c.env);
    var p := PollRead(s.r, c.room, c.env);
    PrependTwice(s.out, Output(p.poll), Left(p.r));
    if s.ended {
      EndStays(s.r, c.room, c.env);
    }
  }

  lemma EndDecoded(checked: bool, limit: nat, src: seq<byte>, s: Session)
    requires Sound(checked, limit, src, s) && s.ended
    ensures Decode(checked, limit, src) == Body(s.out, s.r.src)
    ensures forall c :: Do(s, c).r == s.r && Do(s, c).out == s.out && !PollRead(s.r, c.room, c.env).poll.Failed?
  {
    EndStays(s.r, 0, []);
    assert (s.r.buf + s.r.src)[2..] == s.r.src;
    assert s.out + [] == s.out;
    forall c: Call
      ensures Do(s, c).r == s.r && Do(s, c).out == s.out && !PollRead(s.r, c.room, c.env).poll.Failed?
    {
      EndStays(s.r, c.room, c.env);
    }
  }

  /** Over every run of polls, in both builds: what came out is a prefix of the decoded body; an end is told only when
      it is all of it, exactly its encoding was taken from the source, and then every poll says so; a reliable source
      can fail the reader only with bytes the reference decoder refuses, and a size overflows only where it finds one
      too long; and before the end every turn brings a byte. */
  lemma DecodesSource(checked: bool, limit: nat, src: seq<byte>, calls: seq<Call>)
    ensures var s := After(Do, Start(checked, limit, src), calls);
            && (Decode(checked, limit, src).Body? ==> s.out <= Decode(checked, limit, src).body)
            && (s.ended ==> Decode(checked, limit, src) == Body(s.out, s.r.src))
            && (s.ended ==> forall c :: Do(s, c).r == s.r && Do(s, c).out == s.out)
            && (s.failed && s.reliable ==> !Decode(checked, limit, src).Body?)
            && (s.overflowed ==> Decode(checked, limit, src) == TooLong)
            && (!s.failed && !s.ended ==> s.turns <= |s.out|)
  {
    StartSound(checked, limit, src);
    forall s, c | Sound(checked, limit, src, s) ensures Sound(checked, limit, src, Do(s, c)) {
      DoSound(checked, limit, src, s, c);
    }
    Invariant(Do, s => Sound(checked, limit, src, s), Start(checked, limit, src), calls);
    var s := After(Do, Start(checked, limit, src), calls);
    if s.ended {
      EndDecoded(checked, limit, src, s);
    }
  }

  // ---------- the two builds ----------

  /** No size line of more than 16 digits comes before the end, or before the first error. */
  predicate ShortSizes(limit: nat, u: seq<byte>)
    decreases |u|, 0
  {
    var n := HexRun(u);
    SizeLine(limit, u) ==> n <= 16 && (HexValue(u[..n]) == 0 || ShortData(limit, HexValue(u[..n]), u[n + 2..]))
  }

  predicate ShortData(limit: nat, left: nat, u: seq<byte>)
    decreases |u|, 1
  {
    left <= |u| ==> ShortNext(limit, u[left..])
  }

  predicate ShortNext(limit: nat, u: seq<byte>)
    decreases |u|, 0
  {
    LineEnd(u) ==> ShortSizes(limit, u[2..])
  }

  /** A build with overflow checks decodes what one without decodes, if and only if no size line needs more than 16
      digits; otherwise the size is too long for it. */
  lemma {:induction false} BuildsDecode(limit: nat, u: seq<byte>)
    ensures Decode(true, limit, u) == if ShortSizes(limit, u) then Decode(false, limit, u) else TooLong
    ensures Decode(true, limit, u) == Decode(false, limit, u) <==> ShortSizes(limit, u)
    ensures Decode(false, limit, u) != TooLong
    decreases |u|, 0
  {
    var n := HexRun(u);
    if SizeLine(limit, u) {
      BuildsData(limit, if n <= 16 then HexValue(u[..n]) else WrappedValue(u[..n]), u[n + 2..]);
    }
  }

  lemma {:induction false} BuildsData(limit: nat, left: nat, u: seq<byte>)
    ensures DecodeData(true, limit, left, u)
         == if ShortData(limit, left, u) then DecodeData(false, limit, left, u) else TooLong
    ensures DecodeData(false, limit, left, u) != TooLong
    decreases |u|, 1
  {
    if left <= |u| && LineEnd(u[left..]) {
      BuildsDecode(limit, u[left..][2..]);
    }
  }

  /** The same reader in a build without overflow checks. */
  function Unchecked(r: Reader): Reader {
    r.(checked := false)
  }

  lemma FillBuilds(r: Reader, env: seq<Answer>)
    ensures var f := Fill(r, env); Fill(Unchecked(r), env) == f.(r := Unchecked(f.r))
  {
  }

  lemma {:induction false} FillHeaderBuilds(r: Reader, env: seq<Answer>)
    ensures var f := FillHeader(r, env); FillHeader(Unchecked(r), env) == f.(r := Unchecked(f.r))
    ensures FillHeader(r, env).stop != Some(Failed(Overflow)) && FillHeader(r, env).r.checked == r.checked
    decreases |env|
  {
    FillBuilds(r, env);
    if ChunkHeaderEnd(r.buf).More? && Fill(r, env).stop.None? {
      FillHeaderBuilds(Fill(r, env).r, Fill(r, env).env);
    }
  }

  lemma {:induction false} FillLineEndBuilds(r: Reader, env: seq<Answer>)
    ensures var f := FillLineEnd(r, env); FillLineEnd(Unchecked(r), env) == f.(r := Unchecked(f.r))
    ensures FillLineEnd(r, env).stop != Some(Failed(Overflow)) && FillLineEnd(r, env).r.checked == r.checked
    decreases |env|
  {
    FillBuilds(r, env);
    if 2 > |r.buf| && Fill(r, env).stop.None? {
      FillLineEndBuilds(Fill(r, env).r, Fill(r, env).env);
    }
  }

  /** The polls of both builds agree, or the one with overflow checks stops at a size line of more than 16 digits, where
      the other goes on. */
  predicate Agree(p: Polled, q: Polled) {
    if p.poll == Failed(Overflow) then
      q.poll != Failed(Overflow) && ChunkHeaderEnd(p.r.buf).Found? && HexRun(p.r.buf) > 16
    else
      q == p.(r := Unchecked(p.r))
  }

  lemma DataBuilds(r: Reader, room: nat, env: seq<Answer>)
    requires r.count < r.size
    ensures var p := ReadData(r, room, env);
            ReadData(Unchecked(r), room, env) == p.(r := Unchecked(p.r)) && p.poll != Failed(Overflow)
  {
  }

  lemma TerminatorBuilds(r: Reader, env: seq<Answer>)
    ensures var p := ReadTerminator(r, env);
            ReadTerminator(Unchecked(r), env) == p.(r := Unchecked(p.r)) && p.poll != Failed(Overflow)
  {
    FillLineEndBuilds(r, env);
  }

  lemma HeaderBuilds(r: Reader, room: nat, env: seq<Answer>)
    requires r.checked
    ensures Agree(ReadHeader(r, room, env), ReadHeader(Unchecked(r), room, env))
  {
    FillHeaderBuilds(r, env);
    var f := FillHeader(r, env);
    if f.stop.None? {
      var buf := f.r.buf;
      HeaderAccepts(buf);
      var size := ParseHex(false, buf[..HexRun(buf)]);
      assert size.Some?;
      var v := f.r.(buf := buf[Min(ChunkHeaderEnd(buf).end, |buf|)..], size := size.value, count := 0);
      if size.value > 0 {
        DataBuilds(v.(status := ReadingChunk), room, f.env);
      } else {
        TerminatorBuilds(v.(status := Done), f.env);
      }
    }
  }

  lemma PollBuilds(r: Reader, room: nat, env: seq<Answer>)
    requires r.count <= r.size && r.checked
    ensures Agree(PollRead(r, room, env), PollRead(Unchecked(r), room, env))
  {
    match r.status
    case WaitingForChunk => HeaderBuilds(r, room, env);
    case Done => TerminatorBuilds(r, env);
    case ReadingChunk =>
      if r.count < r.size {
        DataBuilds(r, room, env);
      } else {
        FillLineEndBuilds(r, env);
        var f := FillLineEnd(r, env);
        if f.stop.None? && LineEnd(f.r.buf) {
          HeaderBuilds(f.r.(buf := f.r.buf[2..], status := WaitingForChunk), room, f.env);
        }
      }
  }

  lemma {:induction false} OverflowStays(s: Session, calls: seq<Call>)
    requires s.overflowed
    ensures After(Do, s, calls).overflowed
    decreases |calls|
  {
    if calls != [] {
      OverflowStays(Do(s, calls[0]), calls[1..]);
    }
  }

  lemma {:induction false} Lockstep(s: Session, calls: seq<Call>)
    requires Valid(s.r) && s.r.checked
    ensures var a := After(Do, s, calls);
            !a.overflowed ==> After(Do, s.(r := Unchecked(s.r)), calls) == a.(r := Unchecked(a.r))
    decreases |calls|
  {
    if calls != [] {
      var s1 := Do(s, calls[0]);
      if s1.overflowed {
        OverflowStays(s1, calls[1..]);
      } else {
        DoBuilds(s, calls[0]);
        Lockstep(s1, calls[1..]);
      }
    }
  }

  lemma DoBuilds(s: Session, c: Call)
    requires Valid(s.r) && s.r.checked && !Do(s, c).overflowed
    ensures Do(s.(r := Unchecked(s.r)), c) == Do(s, c).(r := Unchecked(Do(s, c).r))
    ensures Valid(Do(s, c).r) && Do(s, c).r.checked
  {
    PollBuilds(s.r, c.room, c.env);
    PollRefines(s.r, c.room, c.env);
  }

  /** In every run the two builds do the same until a size overflows, and so for good where no size line needs more than
      16 digits. */
  lemma BuildsAgree(limit: nat, src: seq<byte>, calls: seq<Call>)
    ensures var a := After(Do, Start(true, limit, src), calls);
            var b := After(Do, Start(false, limit, src), calls);
            && (!a.overflowed ==> b == a.(r := Unchecked(a.r)))
            && (ShortSizes(limit, src) ==> !a.overflowed)
  {
    Lockstep(Start(true, limit, src), calls);
    DecodesSource(true, limit, src, calls);
    BuildsDecode(limit, src);
  }

  // ---------- the object ----------

  class ChunkedReader {
    const checked: bool
    const buffer: Buffer.Buffer
    var status: Status
    var size: nat
    var count: nat
    // The source: what it still holds, and what it will answer.
    var src: seq<byte>
    var answers: seq<Answer>

    ghost predicate Ok()
      reads this, buffer
    {
      buffer.Valid() && count <= size
    }

    ghost function View(): Reader
      requires buffer.Valid()
      reads this, buffer, buffer.inner
    {
      Reader(checked, status, size, count, buffer.Readable(), buffer.inner.Length, src)
    }

    constructor (checked: bool, capacity: nat, src: seq<byte>)
      ensures Ok() && View() == New(checked, capacity, src) && fresh(buffer) && fresh(buffer.inner)
    {
      this.checked := checked;
      buffer := new Buffer.Buffer.WithCapacity(capacity);
      status, size, count := WaitingForChunk, 0, 0;
      this.src, answers := src, [];
    }

    /** `poll_read` of the source. */
    method PollSource(room: nat) returns (poll: Poll<seq<byte>>)
      modifies this`src, this`answers
      ensures (poll, answers) == ReadSource(room, old(src), old(answers))
      ensures src == if poll.Ready? then old(src)[|poll.value|..] else old(src)
    {
      if answers == [] {
        return Pending;
      }
      var answer := answers[0];
      answers := answers[1..];
      match answer {
        case Transfer(limit) =>
          var n := Min(Min(limit, room), |src|);
          poll := Ready(src[..n]);
          src := src[n..];
        case Block => return Pending;
        case Fail => return Failed(StreamFailed);
      }
    }

    /** `read_to_buffer`. */
    method ReadToBuffer() returns (stop: Option<Poll<seq<byte>>>)
      requires Ok()
      modifies this`src, this`answers, buffer, buffer.inner
      ensures Ok() && buffer.inner == old(buffer.inner)
      ensures Filled(View(), stop, answers) == Fill(old(View()), old(answers))
    {
      buffer.Rotate();
      if buffer.AvailableForWrite() == 0 {
        return Some(Failed(BufferFull));
      }
      var got := PollSource(1);
      match got {
        case Ready(s) =>
          if s == [] {
            return Some(Failed(UnexpectedEof));
          }
          buffer.inner[buffer.writePointer] := s[0];
          buffer.ProgressWrite(1);
          return None;
        case Pending => return Some(Pending);
        case Failed(e) => return Some(Failed(e));
      }
    }

    /** The loop in `read_chunk_header`. */
    method AwaitHeader() returns (stop: Option<Poll<seq<byte>>>)
      requires Ok()
      modifies this`src, this`answers, buffer, buffer.inner
      ensures Ok() && buffer.inner == old(buffer.inner)
      ensures Filled(View(), stop, answers) == FillHeader(old(View()), old(answers))
    {
      while true
        invariant Ok() && buffer.inner == old(buffer.inner)
        invariant FillHeader(View(), answers) == FillHeader(old(View()), old(answers))
        decreases |answers|
      {
        var end := FindChunkHeaderEnd(buffer.Readable());
        match end {
          case Found(_) => return None;
          case Bad => return Some(Failed(InvalidData));
          case More =>
        }
        stop := ReadToBuffer();
        if stop.Some? {
          return;
        }
      }
    }

    /** The loops that wait for CR NL. */
    method AwaitLineEnd() returns (stop: Option<Poll<seq<byte>>>)
      requires Ok()
      modifies this`src, this`answers, buffer, buffer.inner
      ensures Ok() && buffer.inner == old(buffer.inner)
      ensures Filled(View(), stop, answers) == FillLineEnd(old(View()), old(answers))
    {
      while 2 > buffer.AvailableForRead()
        invariant Ok() && buffer.inner == old(buffer.inner)
        invariant FillLineEnd(View(), answers) == FillLineEnd(old(View()), old(answers))
        decreases |answers|
      {
        stop := ReadToBuffer();
        if stop.Some? {
          return;
        }
      }
      return None;
    }

    method DataPoll(room: nat) returns (poll: Poll<seq<byte>>)
      requires Ok() && count < size
      modifies this`count, this`src, this`answers
      ensures Ok() && Polled(View(), poll, answers) == ReadData(old(View()), room, old(answers))
    {
      poll := PollSource(Min(size - count, room));
      if poll.Ready? {
        if poll.value == [] {
          return Failed(UnexpectedEof);
        }
        count := count + |poll.value|;
      }
    }

    method TerminatorPoll() returns (poll: Poll<seq<byte>>)
      requires Ok()
      modifies this`src, this`answers, buffer, buffer.inner
      ensures Ok() && buffer.inner == old(buffer.inner)
      ensures Polled(View(), poll, answers) == ReadTerminator(old(View()), old(answers))
    {
      var stop := AwaitLineEnd();
      if stop.Some? {
        return stop.value;
      }
      var content := buffer.Readable();
      if content[0] == CR && content[1] == NL {
        return Ready([]);
      }
      return Failed(InvalidData);
    }

    method HeaderPoll(room: nat) returns (poll: Poll<seq<byte>>)
      requires Ok()
      modifies this, buffer, buffer.inner
      ensures Ok() && buffer.inner == old(buffer.inner)
      ensures Polled(View(), poll, answers) == ReadHeader(old(View()), room, old(answers))
    {
      var stop := AwaitHeader();
      if stop.Some? {
        return stop.value;
      }
      var content := buffer.Readable();
      var end := FindChunkHeaderEnd(content);
      var digits := FindRunEnd(content, HexClass());
      HeaderAccepts(content);
      var parsed := ParseHexDigits(checked, content[..digits.end]);
      if !parsed.Value? {
        return Failed(Overflow);
      }
      buffer.Progress(end.end);
      size, count := parsed.value, 0;
      if size > 0 {
        status := ReadingChunk;
        poll := DataPoll(room);
      } else {
        status := Done;
        poll := TerminatorPoll();
      }
    }

    method ChunkDataPoll(room: nat) returns (poll: Poll<seq<byte>>)
      requires Ok()
      modifies this, buffer, buffer.inner
      ensures Ok() && buffer.inner == old(buffer.inner)
      ensures Polled(View(), poll, answers) == ReadChunkData(old(View()), room, old(answers))
    {
      if count == size {
        var stop := AwaitLineEnd();
        if stop.Some? {
          return stop.value;
        }
        var content := buffer.Readable();
        if content[0] == CR && content[1] == NL {
          buffer.Progress(2);
          status := WaitingForChunk;
          poll := HeaderPoll(room);
          return;
        }
        return Failed(InvalidData);
      }
      poll := DataPoll(room);
    }

    /** `poll_read`. */
    method Poll(room: nat) returns (poll: Poll<seq<byte>>)
      requires Ok()
      modifies this, buffer, buffer.inner
      ensures Ok() && buffer.inner == old(buffer.inner)
      ensures Polled(View(), poll, answers) == PollRead(old(View()), room, old(answers))
    {
      match status {
        case WaitingForChunk => poll := HeaderPoll(room);
        case ReadingChunk => poll := ChunkDataPoll(room);
        case Done => poll := TerminatorPoll();
      }
    }
  }
}
