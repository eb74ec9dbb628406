/** What one step of a stream task keeps about the task itself: its send loop, the frames it emits, the window
    it asks for. */
module TaskSteps {
  import opened Basics
  import opened H2Errors
  import opened H2Types
  import opened ConnSpec
  import opened StreamSpec
  import opened System
  import opened Seqs
  import opened Conservation
  import opened PerStream

  /** `main` has not returned yet. */
  predicate InMain(t: Task) {
    Selecting(t) || Sending(t)
  }

  /** The task's own handle cannot be removed yet: StreamClosed has not been sent. */
  predicate Attached(t: Task) {
    !t.phase.Dropping? && !t.phase.Done?
  }

  function ExitError(t: Task): Option<H2Error>
    requires !InMain(t)
  {
    t.phase.error
  }

  function DataOf(f: WireFrame): seq<byte> {
    if f.WData? then f.data else []
  }

  /** The body bytes in a run of frames. */
  function Payload(fs: seq<WireFrame>): seq<byte> {
    FlatMap(fs, DataOf)
  }

  /** Body frames before the end of the body. */
  predicate BodyFrames(id: u32, fs: seq<WireFrame>) {
    forall f :: f in fs ==> f.WData? && f.id == id && !f.endStream && 1 <= |f.data| <= MAX_CHUNK
  }

  /** HEADERS, then body frames that carry a prefix of the body produced so far. */
  predicate Started(t: Task) {
    && t.emitted != []
    && t.emitted[0] == WHeaders(t.id, false)
    && BodyFrames(t.id, t.emitted[1..])
    && Payload(t.emitted[1..]) <= t.produced
  }

  /** A complete response with this body: HEADERS alone with END_STREAM, or HEADERS, DATA that concatenates to the
      body, and END_STREAM on exactly the last, empty DATA frame. */
  predicate CompleteResponse(id: u32, frames: seq<WireFrame>, body: seq<byte>) {
    || (frames == [WHeaders(id, true)] && body == [])
    || (var n := |frames|;
        && n >= 2
        && frames[0] == WHeaders(id, false)
        && BodyFrames(id, frames[1..n - 1])
        && Payload(frames[1..n - 1]) == body
        && frames[n - 1] == WData(id, true, []))
  }

  predicate Complete(t: Task) {
    CompleteResponse(t.id, t.emitted, t.produced)
  }

  /** What holds of one task by itself. */
  predicate LocalOk(t: Task) {
    && t.needed >= 0
    && |t.buffer| <= MAX_CHUNK
    && (t.phase.Handling? ==> t.emitted == [] && t.produced == [])
    && (t.phase.Handling? || t.phase.BodyIdle? ==> t.buffer == [])
    && (t.phase.BodyIdle? || Sending(t) ==> Started(t) && Payload(t.emitted[1..]) + t.buffer == t.produced)
    && (t.phase.Asked? || t.phase.Waiting? ==> t.buffer != [] && (t.needed > 0 ==> t.window <= 0))
    && (t.phase.Waiting? ==> t.available == 0)
    && (!InMain(t) && ExitError(t).None? ==> Complete(t))
    && (!InMain(t) && ExitError(t).Some? ==> t.emitted == [] || Started(t))
  }

  /** The window asked for and still to ask for is the body produced; nothing is left to ask between chunks. */
  predicate CountOk(t: Task) {
    && (InMain(t) ==> t.asked + t.needed == |t.produced|)
    && (t.phase.Handling? || t.phase.BodyIdle? ==> t.needed == 0)
  }

  function AskFor(i: u32): ConnReq -> int {
    (r: ConnReq) => AskedBy(r, i)
  }

  /** The response frame of stream i in a request. */
  function Carried(r: ConnReq, i: u32): seq<WireFrame> {
    if r.Frame? && r.id == i then [WData(i, r.endStream, r.data)]
    else if r.Response? && r.id == i then [WHeaders(i, r.endStream)]
    else []
  }

  function CarriedFor(i: u32): ConnReq -> seq<WireFrame> {
    (r: ConnReq) => Carried(r, i)
  }

  /** Only this id, and StreamClosed only from a task that lets go of its handle. */
  predicate OwnRequests(id: u32, o: TaskOut) {
    && |o.out| <= 1
    && (forall r :: r in o.out ==>
          && (r.Frame? || r.Response? || r.GetWindow? || r.StreamClosed? ==> r.id == id)
          && (r.StreamClosed? ==> !Attached(o.task)))
  }

  /** Window asked for but not yet spent, on the task's side of the channels, against the bytes to send. */
  function Ledger(t: Task, m: Mail): int {
    t.needed + Sum(m.msgs, WindowIn) + t.available - |t.buffer|
  }

  /** The step keeps the ledger, the limit seen and the count, and reports every frame it emits. */
  predicate TaskEffect(t: Task, m: Mail, o: TaskOut, m': Mail) {
    && o.task.id == t.id
    && OwnRequests(t.id, o)
    && (InMain(o.task) ==> InMain(t))
    && (Attached(o.task) ==> Attached(t))
    && (InMain(o.task) ==> Ledger(o.task, m') + Sum(o.out, AskFor(t.id)) == Ledger(t, m))
    && (InMain(o.task) ==> o.task.window + o.task.asked - Seen(m') == t.window + t.asked - Seen(m))
    && o.task.asked <= Max(t.asked, t.asked + t.window)
    && (!InMain(o.task) ==> o.task.asked == t.asked && Payload(o.task.emitted) == Payload(t.emitted))
    && (CountOk(t) && (t.phase.Top? && t.buffer == [] ==> t.needed == 0) ==> CountOk(o.task))
    && o.task.emitted == t.emitted + FlatMap(o.out, CarriedFor(t.id))
  }

  lemma OneOut(o: TaskOut, i: u32)
    requires |o.out| <= 1
    ensures Sum(o.out, AskFor(i)) == if o.out == [] then 0 else AskedBy(o.out[0], i)
    ensures FlatMap(o.out, CarriedFor(i)) == if o.out == [] then [] else Carried(o.out[0], i)
  {
    if o.out != [] {
      assert o.out == [o.out[0]];
      SumOne(o.out[0], AskFor(i));
      FlatMapOne(o.out[0], CarriedFor(i));
    }
  }

  lemma LeaveOk(t: Task, error: H2Error)
    requires LocalOk(t) && InMain(t)
    ensures LocalOk(Leave(t, Some(error)))
  {
  }

  /** Windows and the request body may change freely while the task waits in `main_select`. */
  lemma ResumeOk(t: Task, available: i32, window: i32, peerWindow: i32, body: Option<Body>)
    requires LocalOk(t) && Selecting(t)
    ensures LocalOk(Resume(t.(available := available, window := window, peerWindow := peerWindow, body := body)))
  {
  }

  lemma HandleBodyOk(t: Task, data: seq<byte>, delivered: bool)
    requires LocalOk(t) && Selecting(t)
    ensures LocalOk(HandleReq(t, RequestBody(data), delivered).task)
  {
    ResumeOk(t, t.available, t.window, t.peerWindow, t.body);
    LeaveOk(t, ConnectionError(ProtocolError));
    LeaveOk(t, ConnectionError(FlowControlError));
    if t.body.Some? && |data| <= t.peerWindow {
      ResumeOk(t, t.available, t.window, t.peerWindow, Some(Turned(t.body.value)));
      ResumeOk(t, t.available, t.window, t.peerWindow - |data|, Some(Queue(t.body.value, data)));
    }
  }

  lemma HandleReqOk(t: Task, m: StreamReq, delivered: bool)
    requires LocalOk(t) && Selecting(t)
    ensures LocalOk(HandleReq(t, m, delivered).task)
  {
    match m
    case RequestBody(data) => HandleBodyOk(t, data, delivered);
    case AvailableWindow(amount) =>
      LeaveOk(t, ConnectionError(ProtocolError));
      if CheckedAdd(t.available, amount).Some? {
        ResumeOk(t, t.available + amount, t.window, t.peerWindow, t.body);
      }
    case WindowUpdate(amount) =>
      LeaveOk(t, ConnectionError(ProtocolError));
      if CheckedAdd(t.window, amount).Some? {
        ResumeOk(t, t.available, t.window + amount, t.peerWindow, t.body);
      }
    case Reset => LeaveOk(t, StreamError(NoError));
  }

  /** Leaving `main` empties the buffer and reports nothing. */
  lemma LeaveEffect(t: Task, m: Mail, m': Mail, error: H2Error, lostWindow: int, lostCredit: int)
    requires InMain(t)
    ensures TaskEffect(t, m, TaskOut(Leave(t, Some(error)), [], lostWindow, lostCredit), m')
  {
    OneOut(TaskOut(Leave(t, Some(error)), [], lostWindow, lostCredit), t.id);
  }

  /** Going on with other windows, after at most an UpdatePeerWindow. */
  lemma ResumeEffect(t: Task, m: Mail, m': Mail, t1: Task, out: seq<ConnReq>)
    requires Selecting(t)
    requires t1 == t.(available := t1.available, window := t1.window, peerWindow := t1.peerWindow, body := t1.body)
    requires |out| <= 1 && forall r :: r in out ==> r.UpdatePeerWindow?
    requires Ledger(t1, m') == Ledger(t, m) && t1.window - Seen(m') == t.window - Seen(m)
    ensures TaskEffect(t, m, TaskOut(Resume(t1), out, 0, 0), m')
  {
    OneOut(TaskOut(Resume(t1), out, 0, 0), t.id);
    assert out != [] ==> out[0] in out;
  }

  lemma HandleBodyEffect(t: Task, m: Mail, delivered: bool)
    requires Selecting(t) && m.msgs != [] && m.msgs[0].RequestBody?
    ensures TaskEffect(t, m, HandleReq(t, m.msgs[0], delivered), Pop(m))
  {
    var data := m.msgs[0].data;
    if t.body.None? || |data| > I32_MAX {
      LeaveEffect(t, m, Pop(m), ConnectionError(ProtocolError), 0, |data|);
    } else if |data| > t.peerWindow {
      LeaveEffect(t, m, Pop(m), ConnectionError(FlowControlError), 0, |data|);
    } else if !delivered {
      ResumeEffect(t, m, Pop(m), t.(body := Some(Turned(t.body.value))), [UpdatePeerWindow(t.id, |data|)]);
    } else {
      var t1 := t.(body := Some(Queue(t.body.value, data)), peerWindow := t.peerWindow - |data|);
      ResumeEffect(t, m, Pop(m), t1, []);
    }
  }

  lemma HandleReqEffect(t: Task, m: Mail, delivered: bool)
    requires Selecting(t) && m.msgs != []
    ensures TaskEffect(t, m, HandleReq(t, m.msgs[0], delivered), Pop(m))
  {
    match m.msgs[0]
    case RequestBody(data) => HandleBodyEffect(t, m, delivered);
    case AvailableWindow(amount) =>
      LeaveEffect(t, m, Pop(m), ConnectionError(ProtocolError), amount, 0);
      if CheckedAdd(t.available, amount).Some? {
        ResumeEffect(t, m, Pop(m), t.(available := t.available + amount), []);
      }
    case WindowUpdate(amount) =>
      LeaveEffect(t, m, Pop(m), ConnectionError(ProtocolError), 0, 0);
      if CheckedAdd(t.window, amount).Some? {
        ResumeEffect(t, m, Pop(m), t.(window := t.window + amount), []);
      }
    case Reset => LeaveEffect(t, m, Pop(m), StreamError(NoError), 0, 0);
  }

  lemma TakeCreditOk(t: Task)
    requires LocalOk(t) && Selecting(t) && HasCredit(t)
    ensures LocalOk(TakeCredit(t).task)
  {
    var b := t.body.value;
    var t1 := t.(body := Some(b.(credits := b.credits[1..])));
    if CheckedAdd(t.peerWindow, b.credits[0]).Some? {
      ResumeOk(t, t.available, t.window, t.peerWindow + b.credits[0], t1.body);
    } else {
      LeaveOk(t1, ConnectionError(InternalError));
    }
  }

  lemma TakeCreditEffect(t: Task, m: Mail)
    requires Selecting(t) && HasCredit(t)
    ensures TaskEffect(t, m, TakeCredit(t), m)
  {
    var b := t.body.value;
    var t1 := t.(body := Some(b.(credits := b.credits[1..])));
    var p := CheckedAdd(t.peerWindow, b.credits[0]);
    if p.Some? {
      ResumeEffect(t, m, m, t1.(peerWindow := p.value), [UpdatePeerWindow(t.id, b.credits[0])]);
    } else {
      LeaveEffect(t1, m, m, ConnectionError(InternalError), 0, b.credits[0]);
    }
  }

  lemma RespondEffect(t: Task, m: Mail, withBody: bool)
    requires LocalOk(t) && t.phase.Handling?
    ensures LocalOk(Respond(t, withBody).task)
    ensures TaskEffect(t, m, Respond(t, withBody), m)
  {
    OneOut(Respond(t, withBody), t.id);
    FlatMapPush(t.emitted, WHeaders(t.id, !withBody), DataOf);
    assert Payload([]) == [];
  }

  /** The end of the body: what was started becomes complete. */
  lemma FinishedOk(t: Task, t': Task)
    requires Started(t) && Payload(t.emitted[1..]) == t.produced
    requires t'.id == t.id && t'.produced == t.produced && t'.emitted == t.emitted + [WData(t.id, true, [])]
    ensures Complete(t')
  {
    var n := |t'.emitted|;
    assert t'.emitted[1..n - 1] == t.emitted[1..];
  }

  lemma ReadChunkOk(t: Task, chunk: seq<byte>)
    requires LocalOk(t) && t.phase.BodyIdle? && |chunk| <= MAX_CHUNK
    ensures LocalOk(ReadChunk(t, chunk).task)
  {
    if chunk == [] {
      assert Payload(t.emitted[1..]) + [] == Payload(t.emitted[1..]);
      FinishedOk(t, ReadChunk(t, chunk).task);
    }
  }

  lemma ReadChunkEffect(t: Task, m: Mail, chunk: seq<byte>)
    requires LocalOk(t) && CountOk(t) && t.phase.BodyIdle? && |chunk| <= MAX_CHUNK
    ensures TaskEffect(t, m, ReadChunk(t, chunk), m)
  {
    OneOut(ReadChunk(t, chunk), t.id);
    FlatMapPush(t.emitted, WData(t.id, true, []), DataOf);
  }

  lemma AskEffect(t: Task, m: Mail)
    requires LocalOk(t) && t.phase.Top?
    ensures LocalOk(Ask(t).task)
    ensures TaskEffect(t, m, Ask(t), m)
  {
    OneOut(Ask(t), t.id);
  }

  /** What leaves the buffer from its front arrives at the end of what is emitted. */
  lemma EmitPayload(frames: seq<WireFrame>, buffer: seq<byte>, n: nat, f: WireFrame)
    requires n <= |buffer| && f.WData? && f.data == buffer[..n]
    ensures Payload(frames + [f]) + buffer[n..] == Payload(frames) + buffer
  {
    FlatMapPush(frames, f, DataOf);
    assert buffer[..n] + buffer[n..] == buffer;
    assert (Payload(frames) + buffer[..n]) + buffer[n..] == Payload(frames) + (buffer[..n] + buffer[n..]);
  }

  lemma EmitOk(t: Task)
    requires LocalOk(t) && TaskOk(t) && t.phase.Asked?
    ensures LocalOk(Emit(t).task)
  {
    if t.available > 0 {
      var n := Min(t.available, |t.buffer|);
      var f := WData(t.id, false, t.buffer[..n]);
      EmitPayload(t.emitted[1..], t.buffer, n, f);
      EmitStarted(t, f, Emit(t).task);
    }
  }

  lemma EmitStarted(t: Task, f: WireFrame, t': Task)
    requires Started(t) && f.WData? && f.id == t.id && !f.endStream && 1 <= |f.data| <= MAX_CHUNK
    requires t'.id == t.id && t'.produced == t.produced && t'.emitted == t.emitted + [f]
    requires Payload(t.emitted[1..] + [f]) + t'.buffer == t.produced
    ensures Started(t') && Payload(t'.emitted[1..]) + t'.buffer == t'.produced
  {
    assert t'.emitted[1..] == t.emitted[1..] + [f];
  }

  lemma EmitEffect(t: Task, m: Mail)
    requires TaskOk(t) && t.phase.Asked?
    ensures TaskEffect(t, m, Emit(t), m)
  {
    OneOut(Emit(t), t.id);
  }

  lemma ExitOk(t: Task)
    requires LocalOk(t)
    ensures t.phase.Leaving? ==> LocalOk(GiveBack(t).task)
    ensures t.phase.Closing? ==> LocalOk(AnnounceClosing(t).task)
    ensures t.phase.Closed? ==> LocalOk(AnnounceClosed(t).task)
  {
  }

  lemma ExitEffect(t: Task, m: Mail)
    ensures t.phase.Leaving? ==> TaskEffect(t, m, GiveBack(t), m)
    ensures t.phase.Closing? ==> TaskEffect(t, m, AnnounceClosing(t), m)
    ensures t.phase.Closed? ==> TaskEffect(t, m, AnnounceClosed(t), m)
  {
    if t.phase.Leaving? {
      OneOut(GiveBack(t), t.id);
    } else if t.phase.Closing? {
      OneOut(AnnounceClosing(t), t.id);
    } else if t.phase.Closed? {
      OneOut(AnnounceClosed(t), t.id);
    }
  }
}
