/** src/response.rs: `ChunkedWriter`, a resumable encoder over a sink that takes any part of what it is offered. */
module ChunkedWriter {
  import opened Basics
  import opened Seqs
  import opened Polling
  import opened Runs
  import opened Parse
  import opened ChunkHeader
  import opened ChunkedCoding

  /** The fields of the writer. `body` is the used part of the buffer; `sink`, `chunks` and `accepted` are history:
      the bytes the sink took, the chunks begun, and the bytes taken from the caller. */
  datatype Fields = Fields(
    size: nat, body: seq<byte>, bodySent: nat, header: seq<byte>, headerSent: nat,
    finishing: bool, finished: bool,
    sink: seq<byte>, chunks: seq<seq<byte>>, accepted: seq<byte>)

  predicate Shape(w: Fields) {
    && w.size >= 3 && w.headerSent <= |w.header| && w.bodySent <= |w.body| <= w.size
    && (w.header == [] ==> |w.body| <= w.size - 2)
  }

  /** Every reachable state has this shape, which keeps the slices of the source in range. */
  type Writer = w: Fields | Shape(w) witness Fields(3, [], 0, [], 0, false, false, [], [], [])

  function New(size: nat): Writer
    requires size >= 3
  {
    Fields(size, [], 0, [], 0, false, false, [], [], [])
  }

  // ---------- the functions of the source ----------

  datatype Drained = Drained(sent: nat, stop: Option<Poll<()>>, env: seq<Answer>)

  /** The write loops: offer the rest until the sink has all of it or stops. */
  function Drain(data: seq<byte>, env: seq<Answer>): (d: Drained)
    ensures d.sent <= |data|
    ensures d.stop.None? <==> d.sent == |data|
    ensures d.stop.Some? ==> !d.stop.value.Ready?
    decreases |data|
  {
    if data == [] then Drained(0, None, env)
    else if env == [] then Drained(0, Some(Pending), env)
    else
      match env[0]
      case Transfer(limit) =>
        var n := Min(limit, |data|);
        var d := Drain(data[n..], env[1..]);
        d.(sent := n + d.sent)
      case Block => Drained(0, Some(Pending), env[1..])
      case Fail => Drained(0, Some(Failed(StreamFailed)), env[1..])
  }

  datatype Step = Step(w: Writer, stop: Option<Poll<()>>, env: seq<Answer>)

  function FlushSink(env: seq<Answer>): (Poll<()>, seq<Answer>) {
    if env == [] then (Pending, env)
    else
      match env[0]
      case Transfer(_) => (Ready(()), env[1..])
      case Block => (Pending, env[1..])
      case Fail => (Failed(StreamFailed), env[1..])
  }

  /** So many more bytes of the header, or of the body, are in the sink. */
  function HeaderSent(w: Writer, k: nat): Writer
    requires w.headerSent + k <= |w.header|
  {
    w.(headerSent := w.headerSent + k, sink := w.sink + w.header[w.headerSent..][..k])
  }

  function BodySent(w: Writer, k: nat): Writer
    requires w.bodySent + k <= |w.body|
  {
    w.(bodySent := w.bodySent + k, sink := w.sink + w.body[w.bodySent..][..k])
  }

  function WriteHeader(w: Writer, env: seq<Answer>): Step {
    var d := Drain(w.header[w.headerSent..], env);
    Step(HeaderSent(w, d.sent), d.stop, d.env)
  }

  function WriteBody(w: Writer, env: seq<Answer>): Step {
    var d := Drain(w.body[w.bodySent..], env);
    Step(BodySent(w, d.sent), d.stop, d.env)
  }

  function CreateChunk(w: Writer): Writer {
    if w.header == [] then w.(header := Header(|w.body|), body := w.body + CRNL, chunks := w.chunks + [w.body])
    else w
  }

  function CreateLastChunk(w: Writer): Writer {
    if w.header == [] then w.(header := LAST) else w
  }

  function Reset(w: Writer): Writer {
    w.(header := [], headerSent := 0, body := [], bodySent := 0)
  }

  /** A whole chunk: its header, then its body. */
  function WriteChunk(w: Writer, env: seq<Answer>): Step {
    var h := WriteHeader(w, env);
    if h.stop.Some? then h else WriteBody(h.w, h.env)
  }

  datatype Polled<+T> = Polled(w: Writer, poll: Poll<T>, env: seq<Answer>)

  function FlushInner(w: Writer, env: seq<Answer>): (r: Polled<()>)
    ensures r.poll.Ready? ==> r.w.header == [] && r.w.body == [] && !w.finished
  {
    if w.finished then Polled(w, Failed(BrokenPipe), env)
    else
      var b := WriteChunk(CreateChunk(w), env);
      if b.stop.Some? then Polled(b.w, b.stop.value, b.env)
      else
        var (flushed, rest) := FlushSink(b.env);
        Polled(Reset(b.w), flushed, rest)
  }

  /** What is copied into the buffer of an unfinished chunk. */
  function Copy(w: Writer, data: seq<byte>): (Writer, nat)
    requires w.header == []
  {
    var n := Min(|data|, w.size - 2 - |w.body|);
    (w.(body := w.body + data[..n], accepted := w.accepted + data[..n]), n)
  }

  function WriteInner(w: Writer, data: seq<byte>, env: seq<Answer>): Polled<nat>
  {
    if w.finished || w.finishing then Polled(w, Failed(BrokenPipe), env)
    else if |w.body| >= w.size - 2 || w.header != [] then
      var f := FlushInner(w, env);
      match f.poll
      case Ready(_) =>
        var (w', n) := Copy(f.w, data);
        Polled(w', Ready(n), f.env)
      case Pending => Polled(f.w, Pending, f.env)
      case Failed(e) => Polled(f.w, Failed(e), f.env)
    else
      var (w', n) := Copy(w, data);
      Polled(w', Ready(n), env)
  }

  function ShutdownInner(w: Writer, env: seq<Answer>): Polled<()> {
    if w.finished then Polled(w, Failed(BrokenPipe), env) else Closing(w.(finishing := true), env)
  }

  function Closing(v: Writer, env: seq<Answer>): Polled<()> {
    if |v.body| > 0 then
      var f := FlushInner(v, env);
      if f.poll.Ready? then LastChunk(f.w, f.env) else f
    else LastChunk(v, env)
  }

  function LastChunk(w: Writer, env: seq<Answer>): Polled<()>
  {
    var h := WriteHeader(CreateLastChunk(w), env);
    if h.stop.Some? then Polled(h.w, h.stop.value, h.env)
    else
      var (flushed, rest) := FlushSink(h.env);
      Polled(h.w.(finished := flushed.Ready?), flushed, rest)
  }

  // ---------- the invariant ----------

  /** What the sink still has to get of the chunk being sent. */
  function Unsent(w: Writer): seq<byte>
  {
    if w.header == [] then [] else w.header[w.headerSent..] + w.body[w.bodySent..]
  }

  predicate Ending(w: Writer) {
    w.header != [] && w.body == []
  }

  predicate ChunkSizes(w: Writer) {
    forall i :: 0 <= i < |w.chunks| ==> 1 <= |w.chunks[i]| <= w.size - 2
  }

  /** A chunk is collected, is on its way, or the last chunk is. */
  predicate Stage(w: Writer)
  {
    if w.header == [] then
      w.bodySent == 0 && !w.finished && w.accepted == Concat(w.chunks) + w.body
    else if w.body != [] then
      && w.chunks != [] && w.header == Header(|w.chunks[|w.chunks| - 1]|)
      && w.body == w.chunks[|w.chunks| - 1] + CRNL
      && (w.bodySent > 0 ==> w.headerSent == |w.header|)
      && !w.finished && w.accepted == Concat(w.chunks)
    else
      && w.finishing && w.header == LAST && w.accepted == Concat(w.chunks)
      && (w.finished ==> w.headerSent == |LAST|)
  }

  /** The sink and the unsent bytes together are the encoding of the chunks begun so far. */
  predicate Framed(w: Writer)
  {
    w.sink + Unsent(w) == Encode(w.chunks) + if Ending(w) then LAST else []
  }

  predicate Valid(w: Writer) {
    ChunkSizes(w) && Stage(w) && Framed(w)
  }

  lemma NewValid(size: nat)
    requires size >= 3
    ensures Valid(New(size))
  {
  }

  lemma CreateChunkKeeps(w: Writer)
    requires Valid(w) && w.body != []
    ensures Valid(CreateChunk(w)) && CreateChunk(w).header != [] && CreateChunk(w).body != []
  {
    if w.header == [] {
      PushChunk(w.chunks, w.body);
      var v := CreateChunk(w);
      assert w.sink == Encode(w.chunks) by {
        assert w.sink + [] == w.sink && Encode(w.chunks) + [] == Encode(w.chunks);
      }
      assert Unsent(v) == Chunk(w.body);
      assert Encode(v.chunks) + [] == Encode(v.chunks);
    }
  }

  /** Bytes that move from the unsent side to the sink leave the whole as it is. */
  lemma Moves(sink: seq<byte>, rest: seq<byte>, k: nat, tail: seq<byte>)
    requires k <= |rest|
    ensures sink + rest[..k] + (rest[k..] + tail) == sink + (rest + tail)
  {
    assert rest == rest[..k] + rest[k..];
  }

  lemma WriteHeaderMoves(w: Writer, env: seq<Answer>)
    requires w.header != []
    ensures var s := WriteHeader(w, env);
            && s.w.(headerSent := w.headerSent, sink := w.sink) == w
            && s.w.sink + Unsent(s.w) == w.sink + Unsent(w)
            && (s.stop.None? ==> s.w.headerSent == |s.w.header|)
  {
    var rest := w.header[w.headerSent..];
    var k := Drain(rest, env).sent;
    assert rest[k..] == w.header[w.headerSent + k..];
    Moves(w.sink, rest, k, w.body[w.bodySent..]);
  }

  lemma WriteHeaderKeeps(w: Writer, env: seq<Answer>)
    requires Valid(w) && w.header != [] && !w.finished
    ensures var s := WriteHeader(w, env);
            && Valid(s.w) && s.w.(headerSent := w.headerSent, sink := w.sink) == w
            && (s.stop.None? ==> s.w.headerSent == |s.w.header|)
  {
    WriteHeaderMoves(w, env);
  }

  lemma WriteBodyMoves(w: Writer, env: seq<Answer>)
    requires w.header != [] && w.headerSent == |w.header|
    ensures var s := WriteBody(w, env);
            && s.w.(bodySent := w.bodySent, sink := w.sink) == w
            && s.w.sink + Unsent(s.w) == w.sink + Unsent(w)
            && (s.stop.None? ==> s.w.bodySent == |s.w.body|)
  {
    var rest := w.body[w.bodySent..];
    var k := Drain(rest, env).sent;
    var s := WriteBody(w, env);
    assert Unsent(w) == rest;
    assert Unsent(s.w) == rest[k..];
    Moves(w.sink, rest, k, []);
    assert rest + [] == rest && rest[k..] + [] == rest[k..];
  }

  lemma WriteBodyKeeps(w: Writer, env: seq<Answer>)
    requires Valid(w) && w.header != [] && w.headerSent == |w.header| && w.body != []
    ensures var s := WriteBody(w, env);
            && Valid(s.w) && s.w.(bodySent := w.bodySent, sink := w.sink) == w
            && (s.stop.None? ==> s.w.bodySent == |s.w.body|)
  {
    WriteBodyMoves(w, env);
  }

  lemma ResetKeeps(w: Writer)
    requires Valid(w) && w.header != [] && w.body != []
    requires w.headerSent == |w.header| && w.bodySent == |w.body|
    ensures Valid(Reset(w))
  {
    assert Unsent(w) == [];
    var v := Reset(w);
    assert v.sink + Unsent(v) == w.sink + Unsent(w);
    assert v.accepted == Concat(v.chunks) + v.body;
  }

  lemma FlushKeeps(w: Writer, env: seq<Answer>)
    requires Valid(w) && (w.body != [] || w.finished)
    ensures var r := FlushInner(w, env);
            && Valid(r.w) && r.w.size == w.size && r.w.accepted == w.accepted && r.w.finishing == w.finishing
  {
    if !w.finished {
      CreateChunkKeeps(w);
      var c := CreateChunk(w);
      WriteHeaderKeeps(c, env);
      var h := WriteHeader(c, env);
      if h.stop.None? {
        WriteBodyKeeps(h.w, h.env);
        var b := WriteBody(h.w, h.env);
        if b.stop.None? {
          ResetKeeps(b.w);
        }
      }
    }
  }

  lemma CopyKeeps(w: Writer, data: seq<byte>)
    requires Valid(w) && w.header == []
    ensures var (v, n) := Copy(w, data);
            && Valid(v) && v.size == w.size && n <= |data| && v.accepted == w.accepted + data[..n]
            && (data != [] && |w.body| < w.size - 2 ==> n > 0)
  {
    var (v, n) := Copy(w, data);
    assert w.accepted + data[..n] == Concat(w.chunks) + (w.body + data[..n]);
  }

  /** The outcome of a write: exactly the bytes it reports are accepted, at least one if any were offered, and none
      when it is pending or fails. */
  predicate Accepts(w: Writer, data: seq<byte>, r: Polled<nat>) {
    && Valid(r.w) && r.w.size == w.size
    && (r.poll.Ready? ==>
          && r.poll.value <= |data| && r.w.accepted == w.accepted + data[..r.poll.value]
          && (data != [] ==> r.poll.value > 0))
    && (!r.poll.Ready? ==> r.w.accepted == w.accepted)
  }

  /** A write takes exactly the bytes it reports, at least one if it is offered any, and none when it is pending or
      fails. */
  lemma WriteKeeps(w: Writer, data: seq<byte>, env: seq<Answer>)
    requires Valid(w)
    ensures Accepts(w, data, WriteInner(w, data, env))
  {
    if !w.finished && !w.finishing {
      if |w.body| >= w.size - 2 || w.header != [] {
        WriteFlushed(w, data, env);
      } else {
        CopyKeeps(w, data);
      }
    }
  }

  /** The full or unsent chunk goes first. */
  lemma WriteFlushed(w: Writer, data: seq<byte>, env: seq<Answer>)
    requires Valid(w) && !w.finished && !w.finishing && (|w.body| >= w.size - 2 || w.header != [])
    ensures Accepts(w, data, WriteInner(w, data, env))
  {
    FlushedFirst(w);
    FlushKeeps(w, env);
    var f := FlushInner(w, env);
    if f.poll.Ready? {
      CopyKeeps(f.w, data);
    }
  }

  lemma FlushedFirst(w: Writer)
    requires Valid(w) && !w.finishing && (|w.body| >= w.size - 2 || w.header != [])
    ensures w.body != []
  {
  }

  lemma LastChunkKeeps(w: Writer, env: seq<Answer>)
    requires Valid(w) && w.body == [] && w.finishing && !w.finished
    ensures var r := LastChunk(w, env);
            && Valid(r.w) && r.w.size == w.size && r.w.accepted == w.accepted && r.w.finishing
            && (r.poll.Ready? <==> r.w.finished)
  {
    var c := CreateLastChunk(w);
    if w.header == [] {
      assert Unsent(c) == LAST;
      assert Concat(w.chunks) + [] == Concat(w.chunks);
      assert w.sink + Unsent(w) == w.sink;
      assert Encode(w.chunks) + [] == Encode(w.chunks);
    }
    WriteHeaderKeeps(c, env);
    var h := WriteHeader(c, env);
    if h.stop.None? {
      var v := LastChunk(w, env).w;
      assert Unsent(v) == Unsent(h.w);
    }
  }

  lemma FinishingKeeps(w: Writer)
    requires Valid(w) && !w.finished
    ensures Valid(w.(finishing := true))
  {
    var v := w.(finishing := true);
    assert Unsent(v) == Unsent(w);
  }

  /** Once shut down, writes are refused; a shutdown completes exactly once. */
  lemma ShutdownKeeps(w: Writer, env: seq<Answer>)
    requires Valid(w)
    ensures var r := ShutdownInner(w, env);
            && Valid(r.w) && r.w.size == w.size && r.w.accepted == w.accepted && (w.finished || r.w.finishing)
            && (r.poll.Ready? ==> !w.finished) && (r.w.finished <==> w.finished || r.poll.Ready?)
  {
    if !w.finished {
      FinishingKeeps(w);
      ClosingKeeps(w.(finishing := true), env);
    }
  }

  lemma ClosingKeeps(v: Writer, env: seq<Answer>)
    requires Valid(v) && v.finishing && !v.finished
    ensures var r := Closing(v, env);
            && Valid(r.w) && r.w.size == v.size && r.w.accepted == v.accepted && r.w.finishing
            && (r.poll.Ready? <==> r.w.finished)
  {
    if |v.body| > 0 {
      FlushKeeps(v, env);
      var f := FlushInner(v, env);
      if f.poll.Ready? {
        LastChunkKeeps(f.w, f.env);
      } else {
        FlushUnfinished(v, env);
      }
    } else {
      LastChunkKeeps(v, env);
    }
  }

  lemma FlushUnfinished(w: Writer, env: seq<Answer>)
    requires !w.finished
    ensures !FlushInner(w, env).w.finished
  {
  }

  // ---------- runs ----------

  /** A call, with what the sink answers during it. */
  datatype Call = Write(data: seq<byte>, env: seq<Answer>) | Shutdown(env: seq<Answer>)

  /** A writer and what its caller was told was written. */
  datatype Session = Session(w: Writer, written: seq<byte>)

  function Do(s: Session, c: Call): Session {
    match c
    case Write(data, env) =>
      var r := WriteInner(s.w, data, env);
      Session(r.w, if r.poll.Ready? && r.poll.value <= |data| then s.written + data[..r.poll.value] else s.written)
    case Shutdown(env) => Session(ShutdownInner(s.w, env).w, s.written)
  }

  predicate Sound(size: nat, s: Session) {
    Valid(s.w) && s.w.accepted == s.written && s.w.size == size
  }

  lemma DoKeeps(size: nat, s: Session, c: Call)
    requires Sound(size, s)
    ensures Sound(size, Do(s, c))
  {
    match c
    case Write(data, env) => WriteKeeps(s.w, data, env);
    case Shutdown(env) => ShutdownKeeps(s.w, env);
  }

  /** At every moment the sink holds a prefix of the encoding of the reported bytes cut into chunks of 1 to size - 2
      bytes; and when a shutdown has completed it holds exactly that encoding and one last chunk. */
  lemma EncodesWrites(size: nat, calls: seq<Call>)
    requires size >= 3
    ensures var s := After(Do, Session(New(size), []), calls);
            && (forall i :: 0 <= i < |s.w.chunks| ==> 1 <= |s.w.chunks[i]| <= size - 2)
            && Concat(s.w.chunks) <= s.written && s.w.sink <= Encode(s.w.chunks) + LAST
            && (s.w.finished ==> Concat(s.w.chunks) == s.written && s.w.sink == Encode(s.w.chunks) + LAST)
  {
    NewValid(size);
    forall s, c | Sound(size, s) ensures Sound(size, Do(s, c)) {
      DoKeeps(size, s, c);
    }
    Invariant(Do, s => Sound(size, s), Session(New(size), []), calls);
    EncodedSoFar(After(Do, Session(New(size), []), calls).w);
  }

  /** Only a shutdown closes a writer. */
  lemma {:induction false} OpenUntilShutdown(s: Session, calls: seq<Call>)
    requires !s.w.finishing && !s.w.finished && forall c :: c in calls ==> c.Write?
    ensures var t := After(Do, s, calls); !t.w.finishing && !t.w.finished
    decreases |calls|
  {
    if calls != [] {
      assert calls[0] in calls;
      StaysOpen(s.w, calls[0].data, calls[0].env);
      OpenUntilShutdown(Do(s, calls[0]), calls[1..]);
    }
  }

  lemma StaysOpen(w: Writer, data: seq<byte>, env: seq<Answer>)
    ensures var v := WriteInner(w, data, env).w; v.finishing == w.finishing && v.finished == w.finished
  {
  }

  /** A writer whose buffer has room takes bytes at once, without the sink. */
  lemma FreshTakes(size: nat, data: seq<byte>, env: seq<Answer>)
    requires size >= 3
    ensures WriteInner(New(size), data, env).poll == Ready(Min(|data|, size - 2))
    ensures WriteInner(New(size), data, env).env == env
    ensures !New(size).finishing && !New(size).finished
  {
  }

  lemma EncodedSoFar(w: Writer)
    requires Valid(w)
    ensures Concat(w.chunks) <= w.accepted && w.sink <= Encode(w.chunks) + LAST
    ensures w.finished ==> Concat(w.chunks) == w.accepted && w.sink == Encode(w.chunks) + LAST
  {
    assert Encode(w.chunks) + [] == Encode(w.chunks);
    assert w.finished ==> Unsent(w) == [];
  }

  // ---------- explicit flushes ----------

  /** A flush keeps the framing, whatever the sink answers, exactly when there is something to flush: on an empty
      buffer it begins a chunk of size zero, or forgets that the last chunk was sent. */
  lemma FlushSafe(w: Writer)
    requires Valid(w)
    ensures (forall env :: Valid(FlushInner(w, env).w)) <==> w.finished || w.body != []
  {
    if w.finished || w.body != [] {
      forall env ensures Valid(FlushInner(w, env).w) {
        FlushKeeps(w, env);
      }
    } else if w.header == [] {
      var v := FlushInner(w, []).w;
      assert v.chunks[|v.chunks| - 1] == [];
      assert !ChunkSizes(v);
    } else {
      var env := [Transfer(5)];
      var v := FlushInner(w, env).w;
      var rest := w.header[w.headerSent..];
      assert Drain(rest, env).sent == |rest|;
      assert v.sink == w.sink + rest;
      assert Unsent(w) == rest;
      assert v.sink + Unsent(v) == Encode(w.chunks) + LAST;
      assert |v.sink + Unsent(v)| != |Encode(w.chunks)|;
      assert !Framed(v);
    }
  }

  // ---------- progress ----------

  predicate Willing(env: seq<Answer>) {
    forall i :: 0 <= i < |env| ==> env[i].Transfer?
  }

  lemma {:induction false} DrainCompletes(data: seq<byte>, env: seq<Answer>)
    requires Willing(env) && |env| >= |data|
    ensures var d := Drain(data, env);
            d.stop.None? && d.sent == |data| && Willing(d.env) && |d.env| >= |env| - |data|
    decreases |data|
  {
    if data != [] {
      DrainCompletes(data[Min(env[0].limit, |data|)..], env[1..]);
    }
  }

  lemma FlushCompletes(w: Writer, env: seq<Answer>)
    requires !w.finished && Willing(env) && |env| > |CreateChunk(w).header| + |CreateChunk(w).body|
    ensures var r := FlushInner(w, env);
            && r.poll.Ready? && Willing(r.env)
            && |r.env| >= |env| - |CreateChunk(w).header| - |CreateChunk(w).body| - 1
  {
    var c := CreateChunk(w);
    DrainCompletes(c.header[c.headerSent..], env);
    var h := WriteHeader(c, env);
    DrainCompletes(h.w.body[h.w.bodySent..], h.env);
  }

  /** Given a sink that keeps taking bytes, one poll finishes the body. */
  lemma ShutdownCompletes(w: Writer, env: seq<Answer>)
    requires Valid(w) && !w.finished && Willing(env)
    requires |env| >= |CreateChunk(w).header| + |CreateChunk(w).body| + |LAST| + 2
    ensures ShutdownInner(w, env).poll.Ready? && ShutdownInner(w, env).w.finished
  {
    var v := w.(finishing := true);
    if |v.body| > 0 {
      FlushCompletes(v, env);
      var f := FlushInner(v, env);
      LastChunkCompletes(f.w, f.env);
    } else {
      LastChunkCompletes(v, env);
    }
  }

  lemma LastChunkCompletes(w: Writer, env: seq<Answer>)
    requires Willing(env) && |env| > |LAST| && (w.header == [] || w.header == LAST)
    ensures LastChunk(w, env).poll.Ready? && LastChunk(w, env).w.finished
  {
    var c := CreateLastChunk(w);
    DrainCompletes(c.header[c.headerSent..], env);
  }

  // ---------- why a call waits or fails ----------

  predicate Later(env: seq<Answer>, rest: seq<Answer>) {
    forall x :: x in rest ==> x in env
  }

  /** A wait or a failure is the sink's. */
  predicate StopsWith(env: seq<Answer>, stop: Poll<()>, rest: seq<Answer>) {
    && (stop.Pending? ==> Block in env || rest == [])
    && (stop.Failed? ==> stop.error == StreamFailed && Fail in env)
  }

  lemma {:induction false} DrainStops(data: seq<byte>, env: seq<Answer>)
    ensures var d := Drain(data, env); Later(env, d.env) && (d.stop.Some? ==> StopsWith(env, d.stop.value, d.env))
    decreases |data|
  {
    if data != [] && env != [] && env[0].Transfer? {
      DrainStops(data[Min(env[0].limit, |data|)..], env[1..]);
    }
  }

  lemma ChunkStops(w: Writer, env: seq<Answer>)
    ensures var b := WriteChunk(w, env); Later(env, b.env) && (b.stop.Some? ==> StopsWith(env, b.stop.value, b.env))
  {
    DrainStops(w.header[w.headerSent..], env);
    var h := WriteHeader(w, env);
    DrainStops(h.w.body[h.w.bodySent..], h.env);
  }

  lemma FlushStops(w: Writer, env: seq<Answer>)
    requires !w.finished
    ensures Later(env, FlushInner(w, env).env)
    ensures StopsWith(env, FlushInner(w, env).poll, FlushInner(w, env).env)
  {
    ChunkStops(CreateChunk(w), env);
  }

  lemma LastStops(w: Writer, env: seq<Answer>)
    ensures StopsWith(env, LastChunk(w, env).poll, LastChunk(w, env).env)
  {
    var c := CreateLastChunk(w);
    DrainStops(c.header[c.headerSent..], env);
  }

  /** A write waits only for the sink, and fails only if the sink does or the writer was shut down. */
  lemma WriteStops(w: Writer, data: seq<byte>, env: seq<Answer>)
    ensures var r := WriteInner(w, data, env);
            if w.finished || w.finishing then r.poll == Failed(BrokenPipe)
            else
              && (r.poll.Pending? ==> Block in env || r.env == [])
              && (r.poll.Failed? ==> r.poll.error == StreamFailed && Fail in env)
  {
    if !w.finished {
      FlushStops(w, env);
    }
  }

  /** So does a shutdown, which fails when it was completed before. */
  lemma ShutdownStops(w: Writer, env: seq<Answer>)
    ensures var r := ShutdownInner(w, env);
            if w.finished then r.poll == Failed(BrokenPipe) else StopsWith(env, r.poll, r.env)
  {
    if !w.finished {
      var v := w.(finishing := true);
      FlushStops(v, env);
      if |v.body| > 0 {
        LastStops(FlushInner(v, env).w, FlushInner(v, env).env);
      } else {
        LastStops(v, env);
      }
    }
  }

  /** A chunk that was written is still to be flushed: without another answer of the sink no flush and no shutdown
      completes, and a sink that fails to flush fails it. */
  lemma FlushesSink(w: Writer, env: seq<Answer>)
    requires !w.finished
    ensures var b := WriteChunk(CreateChunk(w), env);
            b.stop.None? ==>
              FlushInner(w, env).poll == if b.env == [] || b.env[0].Block? then Pending
                                         else if b.env[0].Fail? then Failed(StreamFailed) else Ready(())
    ensures var h := WriteHeader(CreateLastChunk(w), env);
            h.stop.None? ==>
              LastChunk(w, env).poll == if h.env == [] || h.env[0].Block? then Pending
                                        else if h.env[0].Fail? then Failed(StreamFailed) else Ready(())
  {
  }

  // ---------- the object ----------

  /** One `poll_write` on the sink. */
  function Offered(data: seq<byte>, env: seq<Answer>): (d: Drained)
    ensures d.sent <= |data| && (d.stop.None? ==> data != [] ==> d.sent > 0) && (d.stop.Some? ==> d.sent == 0)
  {
    if env == [] then Drained(0, Some(Pending), env)
    else
      match env[0]
      case Transfer(limit) => Drained(Min(limit, |data|), None, env[1..])
      case Block => Drained(0, Some(Pending), env[1..])
      case Fail => Drained(0, Some(Failed(StreamFailed)), env[1..])
  }

  /** Going on after one offer gives what draining gives. */
  lemma OfferDrain(data: seq<byte>, env: seq<Answer>)
    requires data != []
    ensures var o := Offered(data, env);
            var d := Drain(data[o.sent..], o.env);
            Drain(data, env) == if o.stop.None? then d.(sent := o.sent + d.sent) else o
  {
  }

  lemma Taking(sink: seq<byte>, data: seq<byte>, n: nat, more: nat)
    requires n + more <= |data|
    ensures sink + data[..n] + data[n..][..more] == sink + data[..n + more]
  {
    assert data[..n] + data[n..][..more] == data[..n + more];
  }

  lemma HeaderSentTwice(w: Writer, n: nat, more: nat)
    requires w.headerSent + n + more <= |w.header|
    ensures HeaderSent(HeaderSent(w, n), more) == HeaderSent(w, n + more)
  {
    var rest := w.header[w.headerSent..];
    assert w.header[w.headerSent + n..] == rest[n..];
    Taking(w.sink, rest, n, more);
  }

  lemma BodySentTwice(w: Writer, n: nat, more: nat)
    requires w.bodySent + n + more <= |w.body|
    ensures BodySent(BodySent(w, n), more) == BodySent(w, n + more)
  {
    var rest := w.body[w.bodySent..];
    assert w.body[w.bodySent + n..] == rest[n..];
    Taking(w.sink, rest, n, more);
  }

  lemma OfferHeader(w: Writer, env: seq<Answer>)
    requires w.headerSent < |w.header|
    ensures var o := Offered(w.header[w.headerSent..], env);
            var v := HeaderSent(w, o.sent);
            WriteHeader(w, env) == if o.stop.None? then WriteHeader(v, o.env) else Step(v, o.stop, o.env)
  {
    var rest := w.header[w.headerSent..];
    var o := Offered(rest, env);
    OfferDrain(rest, env);
    assert w.header[w.headerSent + o.sent..] == rest[o.sent..];
    HeaderSentTwice(w, o.sent, Drain(rest[o.sent..], o.env).sent);
  }

  lemma OfferBody(w: Writer, env: seq<Answer>)
    requires w.bodySent < |w.body|
    ensures var o := Offered(w.body[w.bodySent..], env);
            var v := BodySent(w, o.sent);
            WriteBody(w, env) == if o.stop.None? then WriteBody(v, o.env) else Step(v, o.stop, o.env)
  {
    var rest := w.body[w.bodySent..];
    var o := Offered(rest, env);
    OfferDrain(rest, env);
    OfferedBody(w, rest, o.sent, o.env);
  }

  lemma OfferedBody(w: Writer, rest: seq<byte>, n: nat, env: seq<Answer>)
    requires w.bodySent + n <= |w.body| && rest == w.body[w.bodySent..]
    ensures w.body[BodySent(w, n).bodySent..] == rest[n..]
    ensures BodySent(w, n + Drain(rest[n..], env).sent) == BodySent(BodySent(w, n), Drain(rest[n..], env).sent)
  {
    assert w.body[w.bodySent + n..] == rest[n..];
    BodySentTwice(w, n, Drain(rest[n..], env).sent);
  }

  class ChunkedWriter {
    const buffer: array<byte>
    var bufferPointer: nat
    var bufferReadPointer: nat
    var headerBuffer: seq<byte>
    var headerReadPointer: nat
    var finishing: bool
    var finished: bool
    // The sink: what it took, and what it will answer.
    var sink: seq<byte>
    var answers: seq<Answer>
    ghost var chunks: seq<seq<byte>>
    ghost var accepted: seq<byte>

    ghost predicate Ok()
      reads this, buffer
    {
      && bufferReadPointer <= bufferPointer <= buffer.Length
      && headerReadPointer <= |headerBuffer| && buffer.Length >= 3
      && (headerBuffer == [] ==> bufferPointer <= buffer.Length - 2)
    }

    ghost function View(): Writer
      requires Ok()
      reads this, buffer
    {
      Fields(buffer.Length, buffer[..bufferPointer], bufferReadPointer, headerBuffer, headerReadPointer,
             finishing, finished, sink, chunks, accepted)
    }

    constructor (size: nat)
      requires size >= 3
      ensures Ok() && View() == New(size) && fresh(buffer)
    {
      buffer := new byte[size];
      bufferPointer, bufferReadPointer, headerBuffer, headerReadPointer := 0, 0, [], 0;
      finishing, finished, sink, answers := false, false, [], [];
      chunks, accepted := [], [];
    }

    /** How much the sink took, or why it did not. */
    method Offer(data: seq<byte>) returns (n: nat, stop: Option<Poll<()>>)
      requires data != []
      modifies this`sink, this`answers
      ensures Drained(n, stop, answers) == Offered(data, old(answers)) && sink == old(sink) + data[..n]
    {
      n, stop := 0, Some(Pending);
      if answers != [] {
        var answer := answers[0];
        answers := answers[1..];
        match answer {
          case Transfer(limit) => n, stop := Min(limit, |data|), None;
          case Block =>
          case Fail => stop := Some(Failed(StreamFailed));
        }
      }
      sink := sink + data[..n];
    }

    method FlushWriter() returns (poll: Poll<()>)
      modifies this`answers
      ensures (poll, answers) == FlushSink(old(answers))
    {
      if answers == [] {
        return Pending;
      }
      var answer := answers[0];
      answers := answers[1..];
      match answer {
        case Transfer(_) => return Ready(());
        case Block => return Pending;
        case Fail => return Failed(StreamFailed);
      }
    }

    method SendHeader() returns (stop: Option<Poll<()>>)
      requires Ok()
      modifies this`headerReadPointer, this`sink, this`answers
      ensures Ok() && Step(View(), stop, answers) == WriteHeader(old(View()), old(answers))
    {
      while headerReadPointer < |headerBuffer|
        invariant Ok() && WriteHeader(View(), answers) == WriteHeader(old(View()), old(answers))
        decreases |headerBuffer| - headerReadPointer
      {
        OfferHeader(View(), answers);
        var n, stopped := Offer(headerBuffer[headerReadPointer..]);
        headerReadPointer := headerReadPointer + n;
        if stopped.Some? {
          return stopped;
        }
      }
      assert View().sink + [] == View().sink;
      return None;
    }

    method SendBody() returns (stop: Option<Poll<()>>)
      requires Ok()
      modifies this`bufferReadPointer, this`sink, this`answers
      ensures Ok() && Step(View(), stop, answers) == WriteBody(old(View()), old(answers))
    {
      while bufferReadPointer < bufferPointer
        invariant Ok() && WriteBody(View(), answers) == WriteBody(old(View()), old(answers))
        decreases bufferPointer - bufferReadPointer
      {
        OfferBody(View(), answers);
        assert buffer[..bufferPointer][bufferReadPointer..] == buffer[bufferReadPointer..bufferPointer];
        var n, stopped := Offer(buffer[bufferReadPointer..bufferPointer]);
        bufferReadPointer := bufferReadPointer + n;
        if stopped.Some? {
          return stopped;
        }
      }
      assert View().sink + [] == View().sink;
      return None;
    }

    /** Header, then body. */
    method SendChunk() returns (stop: Option<Poll<()>>)
      requires Ok()
      modifies this`headerReadPointer, this`bufferReadPointer, this`sink, this`answers
      ensures Ok() && Step(View(), stop, answers) == WriteChunk(old(View()), old(answers))
    {
      stop := SendHeader();
      if stop.None? {
        stop := SendBody();
      }
    }

    /** `create_chunk`: the line end goes into the two bytes of the buffer kept free for it. */
    method BeginChunk()
      requires Ok()
      modifies this`headerBuffer, this`bufferPointer, this`chunks, buffer
      ensures Ok() && View() == CreateChunk(old(View()))
    {
      if headerBuffer == [] {
        chunks := chunks + [buffer[..bufferPointer]];
        headerBuffer := Header(bufferPointer);
        buffer[bufferPointer] := CR;
        buffer[bufferPointer + 1] := NL;
        bufferPointer := bufferPointer + 2;
        assert buffer[..bufferPointer] == old(buffer[..bufferPointer]) + CRNL;
      }
    }

    /** `flush_inner`, the body of `poll_flush`. */
    method Flush() returns (poll: Poll<()>)
      requires Ok()
      modifies this, buffer
      ensures Ok() && Polled(View(), poll, answers) == FlushInner(old(View()), old(answers))
    {
      if finished {
        return Failed(BrokenPipe);
      }
      BeginChunk();
      var stop := SendChunk();
      if stop.Some? {
        return stop.value;
      }
      headerBuffer, headerReadPointer, bufferPointer, bufferReadPointer := [], 0, 0, 0;
      poll := FlushWriter();
    }

    /** The second half of `write_inner`. */
    method Fill(data: seq<byte>) returns (n: nat)
      requires Ok() && headerBuffer == []
      modifies this`bufferPointer, this`accepted, buffer
      ensures Ok() && (View(), n) == Copy(old(View()), data)
    {
      ghost var before := buffer[..bufferPointer];
      n := Min(|data|, buffer.Length - 2 - bufferPointer);
      var start := bufferPointer;
      forall i | 0 <= i < n {
        buffer[start + i] := data[i];
      }
      bufferPointer := bufferPointer + n;
      accepted := accepted + data[..n];
      assert buffer[..bufferPointer] == before + data[..n];
    }

    /** `poll_write`. */
    method Write(data: seq<byte>) returns (poll: Poll<nat>)
      requires Ok()
      modifies this, buffer
      ensures Ok() && Polled(View(), poll, answers) == WriteInner(old(View()), data, old(answers))
    {
      if finished || finishing {
        return Failed(BrokenPipe);
      }
      if bufferPointer >= buffer.Length - 2 || headerBuffer != [] {
        var flushed := Flush();
        match flushed {
          case Ready(_) =>
          case Pending => return Pending;
          case Failed(e) => return Failed(e);
        }
      }
      var n := Fill(data);
      return Ready(n);
    }

    /** The end of `shutdown_inner`. */
    method SendLastChunk() returns (poll: Poll<()>)
      requires Ok()
      modifies this`headerBuffer, this`headerReadPointer, this`finished, this`sink, this`answers
      ensures Ok() && Polled(View(), poll, answers) == LastChunk(old(View()), old(answers))
    {
      if headerBuffer == [] {
        headerBuffer := LAST;
      }
      var stop := SendHeader();
      if stop.Some? {
        return stop.value;
      }
      poll := FlushWriter();
      finished := poll.Ready?;
    }

    /** `poll_shutdown`. */
    method Shutdown() returns (poll: Poll<()>)
      requires Ok()
      modifies this, buffer
      ensures Ok() && Polled(View(), poll, answers) == ShutdownInner(old(View()), old(answers))
    {
      if finished {
        return Failed(BrokenPipe);
      }
      finishing := true;
      if bufferPointer > 0 {
        poll := Flush();
        if !poll.Ready? {
          return;
        }
      }
      poll := SendLastChunk();
    }
  }
}
