/** src/http2/stream.rs and `BackgroundRead` of src/http2/mod.rs: one stream task and its request body. */
module StreamSpec {
  import opened Basics
  import opened H2Errors
  import opened H2Types
  import Seqs

  /** The chunk `BackgroundRead` is handing out: its full length and the bytes not yet read. */
  datatype Cur = Cur(total: nat, rest: seq<byte>)

  /** A request body on its way to the handler: the chunks queued for `BackgroundRead`, the one in
      hand, and the credits queued in `window_rx`. The log is history. */
  datatype Body = Body(queue: seq<seq<byte>>, cur: Option<Cur>, credits: seq<i32>, dropped: bool, log: BodyLog)

  /** The bytes handed out, all chunks ever queued, and whether a chunk came back. */
  datatype BodyLog = BodyLog(read: seq<byte>, queued: seq<seq<byte>>, turned: bool)

  function NewBody(): Body {
    Body([], None, [], false, BodyLog([], [], false))
  }

  /** Where the task stands. The first three wait in `main_select`; the others run to their next send. */
  datatype Phase =
    | Handling                            // waiting for the handler's response
    | BodyIdle                            // outer loop of send_body, buffer empty
    | Waiting                             // inner loop, waiting for window
    | Top                                 // start of an iteration of the inner loop
    | Asked                               // same iteration, after the GetWindow step
    | Leaving(error: Option<H2Error>)     // run_inner after main: give window back
    | Closing(error: Option<H2Error>)     // about to send StreamClosing
    | Closed(error: Option<H2Error>)      // about to send StreamClosed
    | Dropping(error: Option<H2Error>)    // about to drop the channels
    | Done(error: Option<H2Error>)

  /** The task's variables, then history: the bytes the response body produced, the response frames
      handed to the connection, and the total of the windows asked for. */
  datatype Task = Task(
    id: u32,
    phase: Phase,
    available: i32,
    window: i32,
    peerWindow: i32,
    needed: i32,
    buffer: seq<byte>,
    body: Option<Body>,
    produced: seq<byte>,
    emitted: seq<WireFrame>,
    asked: int)

  /** A step's result: the new task, what it sends to the connection, and what it drops for good. */
  datatype TaskOut = TaskOut(task: Task, out: seq<ConnReq>, lostWindow: int, lostCredit: int)

  function NewTask(id: u32, window: i32, peerWindow: i32, hasBody: bool): Task {
    Task(id, Handling, 0, window, peerWindow, 0, [],
         if hasBody then Some(NewBody()) else None, [], [], 0)
  }

  /** The task is in `main_select`. */
  predicate Selecting(t: Task) {
    t.phase.Handling? || t.phase.BodyIdle? || t.phase.Waiting?
  }

  predicate Sending(t: Task) {
    t.phase.Top? || t.phase.Asked? || t.phase.Waiting?
  }

  /** `main` returned: locals of `send_body` are gone. */
  function Leave(t: Task, error: Option<H2Error>): Task {
    t.(phase := Leaving(error), buffer := [], needed := 0)
  }

  /** After `main_select`: the inner loop starts its next iteration, the other loops just go on. */
  function Resume(t: Task): Task {
    if t.phase.Waiting? then t.(phase := Top) else t
  }

  function Quiet(t: Task): TaskOut {
    TaskOut(t, [], 0, 0)
  }

  /** A chunk goes into the channel of the body. */
  function Queue(b: Body, data: seq<byte>): Body {
    b.(queue := b.queue + [data], log := b.log.(queued := b.log.queued + [data]))
  }

  /** A chunk came back: the receiving half is gone. */
  function Turned(b: Body): Body {
    b.(log := b.log.(turned := true))
  }

  /** `BackgroundRead` or its drain task still takes every chunk: only dropping the body can close the channel. */
  predicate Listening(t: Task) {
    t.body.Some? && !t.body.value.dropped
  }

  /** `handle_req`. `delivered` tells whether the send to `BackgroundRead` went through. */
  function HandleReq(t: Task, m: StreamReq, delivered: bool): TaskOut {
    match m
    case RequestBody(data) =>
      if t.body.None? || |data| > I32_MAX then
        TaskOut(Leave(t, Some(ConnectionError(ProtocolError))), [], 0, |data|)
      else if |data| > t.peerWindow then
        TaskOut(Leave(t, Some(ConnectionError(FlowControlError))), [], 0, |data|)
      else if !delivered then
        TaskOut(Resume(t.(body := Some(Turned(t.body.value)))), [UpdatePeerWindow(t.id, |data|)], 0, 0)
      else
        Quiet(Resume(t.(body := Some(Queue(t.body.value, data)), peerWindow := t.peerWindow - |data|)))
    case AvailableWindow(amount) =>
      var a := CheckedAdd(t.available, amount);
      if a.None? then TaskOut(Leave(t, Some(ConnectionError(ProtocolError))), [], amount, 0)
      else Quiet(Resume(t.(available := a.value)))
    case WindowUpdate(amount) =>
      var w := CheckedAdd(t.window, amount);
      if w.None? then Quiet(Leave(t, Some(ConnectionError(ProtocolError))))
      else Quiet(Resume(t.(window := w.value)))
    case Reset => Quiet(Leave(t, Some(StreamError(NoError))))
  }

  predicate HasCredit(t: Task) {
    t.body.Some? && t.body.value.credits != []
  }

  /** `main_select` taking a credit from `window_rx`. */
  function TakeCredit(t: Task): TaskOut
    requires HasCredit(t)
  {
    var b := t.body.value;
    var amount := b.credits[0];
    var t1 := t.(body := Some(b.(credits := b.credits[1..])));
    var p := CheckedAdd(t.peerWindow, amount);
    if p.None? then TaskOut(Leave(t1, Some(ConnectionError(InternalError))), [], 0, amount)
    else TaskOut(Resume(t1.(peerWindow := p.value)), [UpdatePeerWindow(t.id, amount)], 0, 0)
  }

  /** The handler finished with a response. */
  function Respond(t: Task, withBody: bool): TaskOut {
    var t1 := t.(emitted := t.emitted + [WHeaders(t.id, !withBody)]);
    TaskOut(if withBody then t1.(phase := BodyIdle) else Leave(t1, None), [Response(t.id, !withBody)], 0, 0)
  }

  /** The outer loop of `send_body` read a chunk; an empty one is the end of the body. */
  function ReadChunk(t: Task, chunk: seq<byte>): TaskOut
    requires |chunk| <= MAX_CHUNK
  {
    if chunk == [] then
      TaskOut(Leave(t.(emitted := t.emitted + [WData(t.id, true, [])]), None), [Frame(t.id, true, [])], 0, 0)
    else
      Quiet(t.(buffer := chunk, produced := t.produced + chunk, needed := |chunk|, phase := Top))
  }

  /** The first half of an iteration: done when the buffer is empty, else reserve from the stream window. */
  function Ask(t: Task): TaskOut {
    if t.buffer == [] then Quiet(t.(phase := BodyIdle))
    else if t.needed > 0 && t.window > 0 then
      var amount := Min(t.window, t.needed);
      TaskOut(t.(window := t.window - amount, needed := t.needed - amount, asked := t.asked + amount, phase := Asked),
              [GetWindow(t.id, amount)], 0, 0)
    else Quiet(t.(phase := Asked))
  }

  /** The second half: send what the granted window allows, else wait. */
  function Emit(t: Task): TaskOut {
    if t.available > 0 then
      var n := Min(t.available, |t.buffer|);
      var data := t.buffer[..n];
      TaskOut(t.(buffer := t.buffer[n..], available := t.available - n, phase := Top,
                 emitted := t.emitted + [WData(t.id, false, data)]),
              [Frame(t.id, false, data)], 0, 0)
    else Quiet(t.(phase := Waiting))
  }

  /** `run_inner` after `main`, first send: hand unused window back. */
  function GiveBack(t: Task): TaskOut
    requires t.phase.Leaving?
  {
    TaskOut(t.(available := if t.available > 0 then 0 else t.available, phase := Closing(t.phase.error)),
            if t.available > 0 then [PutWindow(t.available)] else [], 0, 0)
  }

  function AnnounceClosing(t: Task): TaskOut
    requires t.phase.Closing?
  {
    TaskOut(t.(phase := Closed(t.phase.error)), [StreamClosing(t.id, t.phase.error)], 0, 0)
  }

  function AnnounceClosed(t: Task): TaskOut
    requires t.phase.Closed?
  {
    TaskOut(t.(phase := Dropping(t.phase.error)), [StreamClosed(t.id)], 0, 0)
  }

  /** `update_window`: the full length of a used-up chunk, unless it does not fit an i32. */
  function Credit(length: nat): seq<i32> {
    if length <= I32_MAX then [length] else []
  }

  function Issue(b: Body, length: nat): Body {
    b.(credits := b.credits + Credit(length))
  }

  /** A poll of `BackgroundRead` for at most `room` bytes. */
  function PollBody(b: Body, room: nat): Body {
    if b.cur.Some? && b.cur.value.rest != [] then
      HandOut(b.(cur := None), b.cur.value, room)
    else
      // A used-up chunk that was not dropped yet is credited now.
      var b1 := if b.cur.Some? then Issue(b.(cur := None), b.cur.value.total) else b;
      if b1.queue == [] then b1
      else if b1.queue[0] == [] then b1.(queue := b1.queue[1..])
      else HandOut(b1.(queue := b1.queue[1..]), Cur(|b1.queue[0]|, b1.queue[0]), room)
  }

  /** Copies out of a chunk with unread bytes; a chunk used up is credited by its full length. */
  function HandOut(b: Body, c: Cur, room: nat): Body {
    var n := Min(|c.rest|, room);
    var b1 := b.(log := b.log.(read := b.log.read + c.rest[..n]));
    if n < |c.rest| then b1.(cur := Some(c.(rest := c.rest[n..]))) else Issue(b1.(cur := None), c.total)
  }

  /** `Drop for BackgroundRead`: the chunk in hand is credited at once. */
  function DropBody(b: Body): Body {
    var b1 := b.(dropped := true, cur := None);
    if b.cur.Some? then Issue(b1, b.cur.value.total) else b1
  }

  /** One round of the task that drains a dropped body. */
  function DrainBody(b: Body): Body
    requires b.queue != []
  {
    Issue(b.(queue := b.queue[1..]), |b.queue[0]|)
  }

  /** Body bytes between the stream task and their credit: queued, in hand, or waiting as a credit. */
  function Outstanding(b: Option<Body>): int {
    if b.None? then 0
    else
      Seqs.Sum(b.value.queue, Length) + Seqs.Sum(b.value.credits, Amount)
      + if b.value.cur.Some? then b.value.cur.value.total else 0
  }

  function Length(d: seq<byte>): int {
    |d|
  }

  function Amount(a: i32): int {
    a
  }
}
