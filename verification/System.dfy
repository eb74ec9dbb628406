/** The whole connection: the main loop, its stream tasks, and the channels between them, one step at a time. */
module System {
  import opened Basics
  import opened H2Errors
  import opened H2Types
  import opened ConnSpec
  import opened StreamSpec
  import Seqs
  import Settings

  /** `mail[k]` is the channel into `tasks[k]`; tasks are numbered in the order they were spawned.
      `wire` is everything written to the peer. The rest is history: the increments of stream 0, the
      window and credit bytes dropped with finished tasks, and whether HEADERS ever came in for an id that
      still had a handle. */
  datatype State = State(
    conn: Conn,
    mail: seq<Mail>,
    tasks: seq<Task>,
    requests: seq<ConnReq>,
    wire: seq<WireFrame>,
    increments: int,
    lostWindow: int,
    lostCredit: int,
    reopened: bool)

  datatype Event =
    // from the peer
    | PeerData(id: u32, data: seq<byte>)
    | PeerHeaders(id: u32, parse: HeaderParse, hasBody: bool)
    | PeerSettings(frame: Settings.SettingsFrame)
    | PeerWindowUpdate(id: u32, amount: i32)
    | PeerStop(code: ErrorCode)
    // inside the connection task
    | Shutdown
    | TakeRequest
    // inside stream task k
    | TaskReceive(k: nat, delivered: bool)
    | TaskCredit(k: nat)
    | TaskRespond(k: nat, withBody: bool)
    | TaskChunk(k: nat, chunk: seq<byte>)
    | TaskFail(k: nat)
    | TaskRun(k: nat)
    // inside the request body of task k
    | BodyPoll(k: nat, room: nat)
    | BodyDrop(k: nat)
    | BodyDrain(k: nat)

  /** Ended carries the stream id and the error code of the final GOAWAY. */
  datatype Outcome = Running(state: State) | Ended(lastStream: u32, code: ErrorCode) | Disabled

  function Init(cfg: Config): State {
    State(Start(cfg), [], [], [], [], 0, 0, 0, false)
  }

  /** The connection task moved, spawning at most one task. */
  function ConnMove(s: State, o: ConnOut, spawn: seq<Task>): Outcome {
    if o.Halt? then Ended(o.lastStream, o.code)
    else Running(s.(conn := o.conn, mail := o.mail, wire := s.wire + o.out, tasks := s.tasks + spawn))
  }

  /** Stream task k moved. */
  function TaskMove(s: State, k: nat, o: TaskOut): State
    requires k < |s.tasks|
  {
    s.(tasks := s.tasks[k := o.task], requests := s.requests + o.out,
       lostWindow := s.lostWindow + o.lostWindow, lostCredit := s.lostCredit + o.lostCredit)
  }

  function Pop(m: Mail): Mail
    requires m.msgs != []
  {
    m.(msgs := m.msgs[1..])
  }

  /** A task that drops its channels loses everything still in them. */
  function Gone(t: Task, m: Mail): TaskOut
    requires t.phase.Dropping?
  {
    TaskOut(t.(body := None, phase := Done(t.phase.error)), [],
            Seqs.Sum(m.msgs, WindowIn), Seqs.Sum(m.msgs, BodyIn) + Outstanding(t.body))
  }

  function Drop(s: State, k: nat): State
    requires k < |s.tasks| && k < |s.mail| && s.tasks[k].phase.Dropping?
  {
    TaskMove(s.(mail := s.mail[k := s.mail[k].(open := false, msgs := [])]), k, Gone(s.tasks[k], s.mail[k]))
  }

  /** Window granted in a message. */
  function WindowIn(m: StreamReq): int {
    if m.AvailableWindow? then m.amount else 0
  }

  /** Body bytes in a message. */
  function BodyIn(m: StreamReq): int {
    if m.RequestBody? then |m.data| else 0
  }

  /** A step of task k that needs no input. */
  function RunTask(s: State, k: nat): Outcome
    requires k < |s.tasks|
  {
    var t := s.tasks[k];
    match t.phase
    case Top => Running(TaskMove(s, k, Ask(t)))
    case Asked => Running(TaskMove(s, k, Emit(t)))
    case Leaving(_) => Running(TaskMove(s, k, GiveBack(t)))
    case Closing(_) => Running(TaskMove(s, k, AnnounceClosing(t)))
    case Closed(_) => Running(TaskMove(s, k, AnnounceClosed(t)))
    case Dropping(_) => if k < |s.mail| then Running(Drop(s, k)) else Disabled
    case _ => Disabled
  }

  function MoveBody(s: State, k: nat, b: Body): Outcome
    requires k < |s.tasks|
  {
    Running(s.(tasks := s.tasks[k := s.tasks[k].(body := Some(b))]))
  }

  predicate HasBody(s: State, k: nat) {
    k < |s.tasks| && s.tasks[k].body.Some?
  }

  /** The increments of stream 0 are the window supplied to the connection. */
  function Supplied(s: State, id: u32, amount: i32): State {
    s.(increments := s.increments + if id == 0 then amount else 0)
  }

  function Step(cfg: Config, s: State, e: Event): Outcome {
    match e
    case PeerData(id, data) =>
      ConnMove(s, OnData(s.conn, s.mail, id, data), [])
    case PeerHeaders(id, parse, hasBody) =>
      var o := OnHeaders(cfg, s.conn, s.mail, id, parse);
      if Spawned(s.mail, o) then
        ConnMove(s.(reopened := s.reopened || id in s.conn.streams), o,
                 [NewTask(id, s.conn.remote.initialWindowSize, cfg.localInitialWindow, hasBody)])
      else ConnMove(s, o, [])
    case PeerSettings(frame) =>
      ConnMove(s, OnSettings(s.conn, s.mail, frame), [])
    case PeerWindowUpdate(id, amount) =>
      if amount < 0 then Disabled
      else ConnMove(Supplied(s, id, amount), OnWindowUpdate(s.conn, s.mail, id, amount), [])
    case PeerStop(code) => Ended(s.conn.biggest, code)
    case Shutdown => ConnMove(s, OnShutdown(s.conn, s.mail), [])
    case TakeRequest =>
      if s.requests == [] then Disabled
      else
        ConnMove(s.(requests := s.requests[1..]), OnRequest(s.conn, s.mail, s.requests[0]), [])
    case TaskReceive(k, delivered) =>
      if k < |s.tasks| && k < |s.mail| && Selecting(s.tasks[k]) && s.mail[k].msgs != []
         && (delivered || !Listening(s.tasks[k])) then
        Running(TaskMove(s.(mail := s.mail[k := Pop(s.mail[k])]), k,
                         HandleReq(s.tasks[k], s.mail[k].msgs[0], delivered)))
      else Disabled
    case TaskCredit(k) =>
      if k < |s.tasks| && Selecting(s.tasks[k]) && HasCredit(s.tasks[k]) then
        Running(TaskMove(s, k, TakeCredit(s.tasks[k])))
      else Disabled
    case TaskRespond(k, withBody) =>
      if k < |s.tasks| && s.tasks[k].phase.Handling? then Running(TaskMove(s, k, Respond(s.tasks[k], withBody)))
      else Disabled
    case TaskChunk(k, chunk) =>
      if k < |s.tasks| && s.tasks[k].phase.BodyIdle? && |chunk| <= MAX_CHUNK then
        Running(TaskMove(s, k, ReadChunk(s.tasks[k], chunk)))
      else Disabled
    case TaskFail(k) =>
      if k < |s.tasks| && (s.tasks[k].phase.Handling? || s.tasks[k].phase.BodyIdle?) then
        Running(TaskMove(s, k, Quiet(Leave(s.tasks[k], Some(StreamError(InternalError))))))
      else Disabled
    case TaskRun(k) => if k < |s.tasks| then RunTask(s, k) else Disabled
    case BodyPoll(k, room) =>
      if HasBody(s, k) && !s.tasks[k].body.value.dropped then
        MoveBody(s, k, PollBody(s.tasks[k].body.value, room))
      else Disabled
    case BodyDrop(k) =>
      if HasBody(s, k) && !s.tasks[k].body.value.dropped then
        MoveBody(s, k, DropBody(s.tasks[k].body.value))
      else Disabled
    case BodyDrain(k) =>
      if HasBody(s, k) && s.tasks[k].body.value.dropped && s.tasks[k].body.value.queue != [] then
        MoveBody(s, k, DrainBody(s.tasks[k].body.value))
      else Disabled
  }

  /** The state after a run of events, all of them enabled and none of them ending the connection. */
  function Run(cfg: Config, events: seq<Event>): Option<State>
    decreases |events|
  {
    if events == [] then Some(Init(cfg))
    else
      var before := Run(cfg, events[..|events| - 1]);
      if before.None? then None
      else
        var o := Step(cfg, before.value, events[|events| - 1]);
        if o.Running? then Some(o.state) else None
  }

  ghost predicate Reachable(cfg: Config, s: State) {
    exists events :: Run(cfg, events) == Some(s)
  }
}
