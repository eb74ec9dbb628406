/** What stream tasks do with what they are told: which messages make one leave, that none gets stuck, how one winds
    down, and that its response is the one the handler gave. */
module TaskRuns {
  import opened Basics
  import opened H2Errors
  import opened H2Types
  import opened ConnSpec
  import opened StreamSpec
  import opened System
  import opened Seqs
  import opened Conservation
  import opened PerStream
  import opened TaskSteps
  import opened StreamRuns
  import opened Credits
  import opened FlowTheorems

  // ---------- messages to a task ----------

  /** Why a message ends the task: a reset always does, DATA without a body to take it or beyond the window announced
      for the stream, and window that overflows. */
  function Fatal(t: Task, m: StreamReq): Option<H2Error> {
    match m
    case Reset => Some(StreamError(NoError))
    case RequestBody(data) =>
      if t.body.None? || |data| > I32_MAX then Some(ConnectionError(ProtocolError))
      else if |data| > t.peerWindow then Some(ConnectionError(FlowControlError)) else None
    case AvailableWindow(amount) =>
      if I32_MIN <= t.available + amount <= I32_MAX then None else Some(ConnectionError(ProtocolError))
    case WindowUpdate(amount) =>
      if I32_MIN <= t.window + amount <= I32_MAX then None else Some(ConnectionError(ProtocolError))
  }

  /** A task leaves `main` on a message if and only if that is fatal, with that error; otherwise it waits on, or goes on
      with its chunk. */
  lemma LeavesOn(t: Task, m: StreamReq, delivered: bool)
    requires Selecting(t)
    ensures var t' := HandleReq(t, m, delivered).task;
            if Fatal(t, m).Some? then !InMain(t') && ExitError(t') == Fatal(t, m)
            else t'.phase == if t.phase.Waiting? then Top else t.phase
  {
  }

  /** Of its messages, window granted to a stream alone with its id is never fatal: it does not exceed the chunk. */
  lemma GrantsFit(cfg: Config, s: State, k: nat)
    requires cfg.globalWindow >= 0 && Reachable(cfg, s) && k < |s.tasks| && Alone(s, k)
    requires k < |s.mail| && s.mail[k].msgs != [] && s.mail[k].msgs[0].AvailableWindow? && InMain(s.tasks[k])
    ensures Fatal(s.tasks[k], s.mail[k].msgs[0]).None?
  {
    NoLostReservation(cfg, s, k);
    StreamAt(cfg, s, k);
    assert MailOk(s.mail[k]) && forall m :: m in s.mail[k].msgs[1..] ==> m in s.mail[k].msgs;
    SumNonNegative(s.mail[k].msgs[1..], WindowIn);
  }

  // ---------- no task is stuck ----------

  /** Whatever a waiting task may be told next it can take: messages, credits, the handler's response, and chunks of any
      length up to the size of its buffer. */
  lemma TaskListens(cfg: Config, s: State, k: nat)
    requires WellFormed(s) && k < |s.tasks| && Selecting(s.tasks[k])
    ensures s.mail[k].msgs != [] ==> Step(cfg, s, TaskReceive(k, true)).Running?
    ensures HasCredit(s.tasks[k]) ==> Step(cfg, s, TaskCredit(k)).Running?
  {
  }

  lemma HandlerHeard(cfg: Config, s: State, k: nat, withBody: bool, chunk: seq<byte>)
    requires k < |s.tasks| && |chunk| <= 16_384
    ensures s.tasks[k].phase.Handling? ==> Step(cfg, s, TaskRespond(k, withBody)).Running?
    ensures s.tasks[k].phase.BodyIdle? ==> Step(cfg, s, TaskChunk(k, chunk)).Running?
    ensures s.tasks[k].phase.Handling? || s.tasks[k].phase.BodyIdle? ==> Step(cfg, s, TaskFail(k)).Running?
  {
  }

  /** A task that does not wait has a next step, until it is done. */
  lemma TaskMoves(cfg: Config, s: State, k: nat)
    requires WellFormed(s) && k < |s.tasks| && !Selecting(s.tasks[k]) && !s.tasks[k].phase.Done?
    ensures Step(cfg, s, TaskRun(k)).Running?
  {
  }

  /** A body in use can be polled, and dropped with what it has in hand. */
  lemma BodyInUse(cfg: Config, s: State, k: nat, room: nat)
    requires HasBody(s, k) && !s.tasks[k].body.value.dropped
    ensures Step(cfg, s, BodyPoll(k, room)).Running?
    ensures var o := Step(cfg, s, BodyDrop(k));
            && o.Running? && HasBody(o.state, k)
            && var b := o.state.tasks[k].body.value;
            b.dropped && b.cur.None? && b.queue == s.tasks[k].body.value.queue
  {
  }

  /** A body that was dropped is drained, one chunk after the other, each credited by its length. */
  lemma BodyDropped(cfg: Config, s: State, k: nat)
    requires HasBody(s, k) && s.tasks[k].body.value.dropped && s.tasks[k].body.value.queue != []
    ensures var b := s.tasks[k].body.value;
            var o := Step(cfg, s, BodyDrain(k));
            && o.Running? && HasBody(o.state, k)
            && var b' := o.state.tasks[k].body.value;
            && b'.dropped && b'.queue == b.queue[1..]
            && (|b.queue[0]| <= I32_MAX ==> b'.credits == b.credits + [|b.queue[0]|])
  {
  }

  /** The state of a task that wound down: window it still had is given back, then both closing messages, and its
      channels are gone. */
  predicate WoundDown(s: State, s': State, k: nat)
    requires k < |s.tasks| && s.tasks[k].phase.Leaving?
  {
    var t := s.tasks[k];
    && |s'.tasks| == |s.tasks| && s'.tasks[k].phase == Done(t.phase.error) && s'.tasks[k].body.None?
    && |s'.mail| == |s.mail| && k < |s'.mail| && !s'.mail[k].open && s'.mail[k].msgs == []
    && s'.requests == s.requests + (if t.available > 0 then [PutWindow(t.available)] else [])
                      + [StreamClosing(t.id, t.phase.error)] + [StreamClosed(t.id)]
    && s'.conn == s.conn && s'.wire == s.wire
  }

  /** A task that left `main` is done after four steps of its own. */
  lemma WindsDown(s: State, k: nat)
    requires k < |s.tasks| && k < |s.mail| && s.tasks[k].phase.Leaving?
    ensures var o1 := RunTask(s, k);
            && o1.Running? && k < |o1.state.tasks|
            && var o2 := RunTask(o1.state, k);
            && o2.Running? && k < |o2.state.tasks|
            && var o3 := RunTask(o2.state, k);
            && o3.Running? && k < |o3.state.tasks|
            && var o4 := RunTask(o3.state, k);
            && o4.Running? && WoundDown(s, o4.state, k)
  {
    var s1 := RunTask(s, k).state;
    var s2 := RunTask(s1, k).state;
    var s3 := RunTask(s2, k).state;
    assert s1.tasks[k].phase == Closing(s.tasks[k].phase.error);
    assert s2.tasks[k].phase == Closed(s.tasks[k].phase.error);
    assert s3.tasks[k].phase == Dropping(s.tasks[k].phase.error);
  }

  // ---------- the handler's response ----------

  function ChunkFor(k: nat): Event -> seq<byte> {
    (e: Event) => if e.TaskChunk? && e.k == k then e.chunk else []
  }

  /** The body that the handler's response delivered to task k, chunk after chunk. */
  function Given(events: seq<Event>, k: nat): seq<byte> {
    FlatMap(events, ChunkFor(k))
  }

  function AnswerFor(k: nat): Event -> seq<bool> {
    (e: Event) => if e.TaskRespond? && e.k == k then [e.withBody] else []
  }

  /** Whether the response frames promise a body, once they begin. */
  function Promised(frames: seq<WireFrame>): seq<bool> {
    if frames != [] && frames[0].WHeaders? then [!frames[0].endStream] else []
  }

  /** The last the task hears of the response: that it has no body, or the end of the body. */
  predicate Ends(e: Event, k: nat) {
    e == TaskRespond(k, false) || e == TaskChunk(k, [])
  }

  predicate Ended(events: seq<Event>, k: nat) {
    exists e :: e in events && Ends(e, k)
  }

  predicate Fails(events: seq<Event>, k: nat) {
    TaskFail(k) in events
  }

  /** Task k says what it was told. */
  predicate Tells(events: seq<Event>, t: Task, k: nat) {
    && t.produced == Given(events, k)
    && Promised(t.emitted) == FlatMap(events, AnswerFor(k))
    && (t.phase.Handling? <==> InMain(t) && FlatMap(events, AnswerFor(k)) == [])
    && (Ended(events, k) <==> !InMain(t) && ExitError(t).None?)
    && (Fails(events, k) ==> !InMain(t) && ExitError(t) == Some(StreamError(InternalError)))
  }

  predicate FromHandler(e: Event) {
    e.TaskChunk? || e.TaskRespond? || e.TaskFail?
  }

  predicate Concerns(e: Event, k: nat) {
    FromHandler(e) && e.k == k
  }

  predicate AllTell(events: seq<Event>, s: State) {
    && (forall k :: 0 <= k < |s.tasks| ==> Tells(events, s.tasks[k], k))
    && (forall e :: e in events ==> (FromHandler(e) ==> e.k < |s.tasks|))
  }

  /** An event that does not concern the task leaves what it was told. */
  lemma NotTold(events: seq<Event>, e: Event, k: nat)
    requires !Concerns(e, k)
    ensures Given(events + [e], k) == Given(events, k)
    ensures FlatMap(events + [e], AnswerFor(k)) == FlatMap(events, AnswerFor(k))
    ensures Ended(events + [e], k) == Ended(events, k) && Fails(events + [e], k) == Fails(events, k)
  {
    FlatMapPush(events, e, ChunkFor(k));
    FlatMapPush(events, e, AnswerFor(k));
    assert Given(events, k) + [] == Given(events, k);
    assert FlatMap(events, AnswerFor(k)) + [] == FlatMap(events, AnswerFor(k));
    EndedPush(events, e, k);
  }

  lemma EndedPush(events: seq<Event>, e: Event, k: nat)
    ensures Ended(events + [e], k) <==> Ended(events, k) || Ends(e, k)
  {
    if Ended(events, k) {
      var x :| x in events && Ends(x, k);
      assert x in events + [e];
    }
    if Ends(e, k) {
      assert e in events + [e];
    }
  }

  /** A step that only sends on, or leaves with an error. */
  predicate GoesOn(t: Task, t': Task) {
    && t'.produced == t.produced && Promised(t'.emitted) == Promised(t.emitted)
    && t'.phase.Handling? == (t.phase.Handling? && InMain(t'))
    && (!InMain(t) ==> !InMain(t') && ExitError(t') == ExitError(t))
    && (InMain(t) && !InMain(t') ==> ExitError(t').Some?)
  }

  lemma GoesOnTells(events: seq<Event>, e: Event, t: Task, t': Task, k: nat)
    requires Tells(events, t, k) && GoesOn(t, t') && !Concerns(e, k)
    ensures Tells(events + [e], t', k)
  {
    NotTold(events, e, k);
  }

  lemma ReceiveGoesOn(t: Task, m: StreamReq, delivered: bool)
    requires Selecting(t)
    ensures GoesOn(t, HandleReq(t, m, delivered).task)
  {
  }

  lemma PromiseStays(frames: seq<WireFrame>, f: WireFrame)
    requires frames != []
    ensures Promised(frames + [f]) == Promised(frames)
  {
    assert (frames + [f])[0] == frames[0];
  }

  lemma EmitGoesOn(t: Task)
    requires t.phase.Asked? && t.emitted != []
    ensures GoesOn(t, Emit(t).task)
  {
    if t.available > 0 {
      PromiseStays(t.emitted, WData(t.id, false, t.buffer[..Min(t.available, |t.buffer|)]));
    }
  }

  lemma ExitGoesOn(t: Task)
    ensures t.phase.Leaving? ==> GoesOn(t, GiveBack(t).task)
    ensures t.phase.Closing? ==> GoesOn(t, AnnounceClosing(t).task)
    ensures t.phase.Closed? ==> GoesOn(t, AnnounceClosed(t).task)
  {
  }

  lemma RunGoesOn(s: State, k: nat)
    requires k < |s.tasks| && RunTask(s, k).Running? && LocalOk(s.tasks[k])
    ensures k < |RunTask(s, k).state.tasks| && GoesOn(s.tasks[k], RunTask(s, k).state.tasks[k])
  {
    var t := s.tasks[k];
    if t.phase.Asked? {
      EmitGoesOn(t);
    } else {
      ExitGoesOn(t);
    }
  }

  /** The handler answers, with a body or without. */
  lemma RespondTells(events: seq<Event>, t: Task, k: nat, withBody: bool)
    requires Tells(events, t, k) && LocalOk(t) && t.phase.Handling?
    ensures Tells(events + [TaskRespond(k, withBody)], Respond(t, withBody).task, k)
  {
    var e := TaskRespond(k, withBody);
    FlatMapPush(events, e, ChunkFor(k));
    FlatMapPush(events, e, AnswerFor(k));
    assert Given(events, k) + [] == Given(events, k);
    EndedPush(events, e, k);
  }

  /** What a chunk adds to what the task was told. */
  lemma ChunkTold(events: seq<Event>, k: nat, chunk: seq<byte>)
    ensures var es := events + [TaskChunk(k, chunk)];
            && Given(es, k) == Given(events, k) + chunk
            && FlatMap(es, AnswerFor(k)) == FlatMap(events, AnswerFor(k))
            && (Ended(es, k) <==> Ended(events, k) || chunk == [])
            && Fails(es, k) == Fails(events, k)
  {
    var e := TaskChunk(k, chunk);
    FlatMapPush(events, e, ChunkFor(k));
    FlatMapPush(events, e, AnswerFor(k));
    assert FlatMap(events, AnswerFor(k)) + [] == FlatMap(events, AnswerFor(k));
    EndedPush(events, e, k);
  }

  /** A chunk of the body, or its end. */
  lemma ChunkTells(events: seq<Event>, t: Task, k: nat, chunk: seq<byte>)
    requires Tells(events, t, k) && LocalOk(t) && t.phase.BodyIdle? && |chunk| <= MAX_CHUNK
    ensures Tells(events + [TaskChunk(k, chunk)], ReadChunk(t, chunk).task, k)
  {
    ChunkTold(events, k, chunk);
    if chunk == [] {
      assert Given(events, k) + [] == Given(events, k);
      PromiseStays(t.emitted, WData(t.id, true, []));
    }
  }

  lemma FailTells(events: seq<Event>, t: Task, k: nat)
    requires Tells(events, t, k) && InMain(t)
    ensures Tells(events + [TaskFail(k)], Leave(t, Some(StreamError(InternalError))), k)
  {
    var e := TaskFail(k);
    FlatMapPush(events, e, ChunkFor(k));
    FlatMapPush(events, e, AnswerFor(k));
    assert Given(events, k) + [] == Given(events, k);
    assert FlatMap(events, AnswerFor(k)) + [] == FlatMap(events, AnswerFor(k));
    EndedPush(events, e, k);
  }

  /** One task after an event that moves it, all others as before. */
  lemma MovedTell(events: seq<Event>, e: Event, s: State, s': State, k: nat, t: Task)
    requires AllTell(events, s) && k < |s.tasks| && s'.tasks == s.tasks[k := t] && Tells(events + [e], t, k)
    requires FromHandler(e) ==> e.k == k
    ensures AllTell(events + [e], s')
  {
    forall j | 0 <= j < |s'.tasks|
      ensures Tells(events + [e], s'.tasks[j], j)
    {
      if j != k {
        NotTold(events, e, j);
      }
    }
  }

  lemma SameTell(events: seq<Event>, e: Event, s: State, s': State)
    requires AllTell(events, s) && s'.tasks == s.tasks && !FromHandler(e)
    ensures AllTell(events + [e], s')
  {
    forall j | 0 <= j < |s'.tasks|
      ensures Tells(events + [e], s'.tasks[j], j)
    {
      NotTold(events, e, j);
    }
  }

  /** A task that was not there yet was told nothing. */
  lemma {:induction false} NothingTold(events: seq<Event>, k: nat)
    requires forall e :: e in events ==> !Concerns(e, k)
    ensures Given(events, k) == [] && FlatMap(events, AnswerFor(k)) == []
    ensures !Ended(events, k) && !Fails(events, k)
  {
    if events != [] {
      assert events[0] in events;
      NothingTold(events[1..], k);
    }
  }

  lemma SpawnTell(events: seq<Event>, e: Event, s: State, s': State, t: Task)
    requires AllTell(events, s) && s'.tasks == s.tasks + [t] && !FromHandler(e)
    requires t.phase.Handling? && t.produced == [] && t.emitted == []
    ensures AllTell(events + [e], s')
  {
    forall j | 0 <= j < |s'.tasks|
      ensures Tells(events + [e], s'.tasks[j], j)
    {
      NotTold(events, e, j);
      if j == |s.tasks| {
        NothingTold(events, j);
      }
    }
  }

  lemma HeadersTell(cfg: Config, events: seq<Event>, s: State, e: Event)
    requires AllTell(events, s) && e.PeerHeaders? && Step(cfg, s, e).Running?
    ensures AllTell(events + [e], Step(cfg, s, e).state)
  {
    var s' := Step(cfg, s, e).state;
    if Spawned(s.mail, OnHeaders(cfg, s.conn, s.mail, e.id, e.parse)) {
      SpawnedState(cfg, s, e.id, e.parse, e.hasBody);
      SpawnTell(events, e, s, s', s'.tasks[|s.tasks|]);
    } else {
      SameTell(events, e, s, s');
    }
  }

  lemma HandlerTell(cfg: Config, events: seq<Event>, s: State, e: Event)
    requires AllTell(events, s) && LocalsOk(s) && Step(cfg, s, e).Running?
    requires e.TaskRespond? || e.TaskChunk? || e.TaskFail?
    ensures AllTell(events + [e], Step(cfg, s, e).state)
  {
    var s', t := Step(cfg, s, e).state, s.tasks[e.k];
    match e
    case TaskRespond(k, withBody) =>
      RespondTells(events, t, k, withBody);
      MovedTell(events, e, s, s', k, Respond(t, withBody).task);
    case TaskChunk(k, chunk) =>
      ChunkTells(events, t, k, chunk);
      MovedTell(events, e, s, s', k, ReadChunk(t, chunk).task);
    case TaskFail(k) =>
      FailTells(events, t, k);
      MovedTell(events, e, s, s', k, Leave(t, Some(StreamError(InternalError))));
    case _ =>
  }

  /** A step of a task that the handler has no part in. */
  lemma OwnTell(events: seq<Event>, s: State, e: Event, k: nat, s': State, t: Task)
    requires AllTell(events, s) && k < |s.tasks| && !FromHandler(e)
    requires s'.tasks == s.tasks[k := t] && GoesOn(s.tasks[k], t)
    ensures AllTell(events + [e], s')
  {
    GoesOnTells(events, e, s.tasks[k], t, k);
    MovedTell(events, e, s, s', k, t);
  }

  lemma ReceiveTell(cfg: Config, events: seq<Event>, s: State, k: nat, delivered: bool)
    requires AllTell(events, s) && Step(cfg, s, TaskReceive(k, delivered)).Running?
    ensures var e := TaskReceive(k, delivered); AllTell(events + [e], Step(cfg, s, e).state)
  {
    var e, t := TaskReceive(k, delivered), s.tasks[k];
    ReceiveGoesOn(t, s.mail[k].msgs[0], delivered);
    OwnTell(events, s, e, k, Step(cfg, s, e).state, HandleReq(t, s.mail[k].msgs[0], delivered).task);
  }

  lemma CreditTell(cfg: Config, events: seq<Event>, s: State, k: nat)
    requires AllTell(events, s) && Step(cfg, s, TaskCredit(k)).Running?
    ensures AllTell(events + [TaskCredit(k)], Step(cfg, s, TaskCredit(k)).state)
  {
    OwnTell(events, s, TaskCredit(k), k, Step(cfg, s, TaskCredit(k)).state, TakeCredit(s.tasks[k]).task);
  }

  lemma RunTell(cfg: Config, events: seq<Event>, s: State, k: nat)
    requires AllTell(events, s) && LocalsOk(s) && Step(cfg, s, TaskRun(k)).Running?
    ensures AllTell(events + [TaskRun(k)], Step(cfg, s, TaskRun(k)).state)
  {
    RunGoesOn(s, k);
    RunMovesOne(s, k);
    OwnTell(events, s, TaskRun(k), k, RunTask(s, k).state, RunTask(s, k).state.tasks[k]);
  }

  lemma RunMovesOne(s: State, k: nat)
    requires k < |s.tasks| && RunTask(s, k).Running?
    ensures |RunTask(s, k).state.tasks| == |s.tasks|
    ensures RunTask(s, k).state.tasks == s.tasks[k := RunTask(s, k).state.tasks[k]]
  {
  }

  lemma BodyTell(cfg: Config, events: seq<Event>, s: State, e: Event)
    requires AllTell(events, s) && WellFormed(s) && Step(cfg, s, e).Running?
    requires e.BodyPoll? || e.BodyDrop? || e.BodyDrain?
    ensures AllTell(events + [e], Step(cfg, s, e).state)
  {
    BodyEnabled(cfg, s, e);
    var t := s.tasks[e.k];
    OwnTell(events, s, e, e.k, Step(cfg, s, e).state, t.(body := Some(MovedBody(t.body.value, e))));
  }

  lemma EveryStepTells(cfg: Config, events: seq<Event>, s: State, e: Event)
    requires AllTell(events, s) && RunOk(s) && Step(cfg, s, e).Running?
    ensures AllTell(events + [e], Step(cfg, s, e).state)
  {
    if e.PeerHeaders? {
      HeadersTell(cfg, events, s, e);
    } else if e.TaskRespond? || e.TaskChunk? || e.TaskFail? {
      HandlerTell(cfg, events, s, e);
    } else if e.TaskReceive? {
      ReceiveTell(cfg, events, s, e.k, e.delivered);
    } else if e.TaskCredit? {
      CreditTell(cfg, events, s, e.k);
    } else if e.TaskRun? {
      RunTell(cfg, events, s, e.k);
    } else if e.BodyPoll? || e.BodyDrop? || e.BodyDrain? {
      BodyTell(cfg, events, s, e);
    } else {
      SameTell(events, e, s, Step(cfg, s, e).state);
    }
  }

  lemma {:induction false} RunsTell(cfg: Config, events: seq<Event>)
    requires cfg.globalWindow >= 0 && Run(cfg, events).Some?
    ensures AllTell(events, Run(cfg, events).value)
    decreases |events|
  {
    if events != [] {
      var before, e := events[..|events| - 1], events[|events| - 1];
      assert events == before + [e];
      RunsTell(cfg, before);
      RunsOk(cfg, before);
      EveryStepTells(cfg, before, Run(cfg, before).value, e);
    }
  }

  /** In every run a task responds as it was told: HEADERS promise a body if and only if the handler gave one, the body
      is what the handler's chunks add up to, it ends without error if and only if it was told the end, and a failure of
      the handler is a stream error. */
  lemma RespondsAsTold(cfg: Config, events: seq<Event>, k: nat)
    requires cfg.globalWindow >= 0 && Run(cfg, events).Some? && k < |Run(cfg, events).value.tasks|
    ensures var t := Run(cfg, events).value.tasks[k];
            && t.produced == Given(events, k)
            && Promised(t.emitted) == FlatMap(events, AnswerFor(k))
            && (Ended(events, k) <==> !InMain(t) && ExitError(t).None?)
            && (Fails(events, k) ==> !InMain(t) && ExitError(t) == Some(StreamError(InternalError)))
  {
    RunsTell(cfg, events);
  }

  /** End to end: once the handler ended its response and all of it was written, the peer got one complete response,
      with a body if and only if the handler gave one, and with exactly the bytes of its chunks. */
  lemma ResponseAsGiven(cfg: Config, events: seq<Event>, k: nat)
    requires cfg.globalWindow >= 0 && Run(cfg, events).Some? && k < |Run(cfg, events).value.tasks|
    requires var s := Run(cfg, events).value;
             Alone(s, k) && Ended(events, k) && FlatMap(s.requests, CarriedFor(s.tasks[k].id)) == []
    ensures var s := Run(cfg, events).value;
            var frames := FlatMap(s.wire, OnWire(s.tasks[k].id));
            && CompleteResponse(s.tasks[k].id, frames, Given(events, k))
            && Promised(frames) == FlatMap(events, AnswerFor(k))
  {
    RespondsAsTold(cfg, events, k);
    var s := Run(cfg, events).value;
    ResponseDelivered(cfg, s, k);
    WrittenInOrder(cfg, s, k);
    assert FlatMap(s.wire, OnWire(s.tasks[k].id)) + [] == s.tasks[k].emitted;
  }
}
