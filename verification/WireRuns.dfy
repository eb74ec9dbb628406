/** Everything written to the peer besides responses, over every run: the windows given back on stream 0, the resets and
    the SETTINGS, each explained by what the connection task received. */
module WireRuns {
  import opened Basics
  import opened H2Errors
  import opened H2Types
  import opened ConnSpec
  import opened StreamSpec
  import opened System
  import opened Seqs
  import opened Conservation
  import opened PerStream
  import Settings

  // ---------- what is followed ----------

  /** What a frame gives back of the window of the connection. */
  function GivenBack(f: WireFrame): int {
    if f.WWindowUpdate? && f.id == 0 then f.increment else 0
  }

  /** What an event takes of it. */
  function Carries(e: Event): int {
    if e.PeerData? then |e.data| else 0
  }

  datatype StreamReset = StreamReset(id: u32, code: ErrorCode)

  function ResetIn(f: WireFrame): seq<StreamReset> {
    if f.WRstStream? then [StreamReset(f.id, f.code)] else []
  }

  function SettingsIn(f: WireFrame): seq<Settings.SettingsFrame> {
    if f.WSettings? then [f.frame] else []
  }

  /** SETTINGS are acknowledged, and a graceful shutdown is announced by allowing no more streams. */
  function AnswerTo(e: Event): seq<Settings.SettingsFrame> {
    match e
    case PeerSettings(_) => [Settings.SettingsFrame(true, None, None, None, None, None, None)]
    case Shutdown => [Settings.SettingsFrame(false, None, None, Some(0), None, None, None)]
    case _ => []
  }

  /** The connection takes no more streams. */
  predicate Refuses(cfg: Config, c: Conn) {
    c.draining || (cfg.maxStreams.Some? && c.open >= cfg.maxStreams.value)
  }

  predicate Dead(c: Conn, mail: seq<Mail>, id: u32) {
    id in c.streams && !(c.streams[id].task < |mail| && mail[c.streams[id].task].open)
  }

  /** What resets a stream: HEADERS when no more streams are taken, a failing header block, a stream task that ended
      with an error, and a WINDOW_UPDATE for a task that is gone. */
  function ResetBy(cfg: Config, s: State, e: Event): seq<StreamReset> {
    match e
    case PeerHeaders(id, parse, _) =>
      if Refuses(cfg, s.conn) then [StreamReset(id, RefusedStream)]
      else if parse.Refused? then [StreamReset(id, parse.error.code)] else []
    case PeerWindowUpdate(id, _) =>
      if id != 0 && Dead(s.conn, s.mail, id) then [StreamReset(id, StreamClosedError)] else []
    case TakeRequest =>
      if s.requests != [] && s.requests[0].StreamClosing? && s.requests[0].error.Some? then
        [StreamReset(s.requests[0].id, s.requests[0].error.value.code)]
      else []
    case _ => []
  }

  /** All of them in a run. */
  function ResetsBy(cfg: Config, events: seq<Event>): seq<StreamReset>
    requires Run(cfg, events).Some?
    decreases |events|
  {
    if events == [] then []
    else
      var before := events[..|events| - 1];
      ResetsBy(cfg, before) + ResetBy(cfg, Run(cfg, before).value, events[|events| - 1])
  }

  // ---------- the arms of the connection task ----------

  /** The arm takes this much window, gives back what it writes, and writes these resets and settings. */
  predicate Tells(c: Conn, o: ConnOut, taken: int, resets: seq<StreamReset>, answers: seq<Settings.SettingsFrame>) {
    o.Go? ==>
      && o.conn.peer == c.peer - taken + Sum(o.out, GivenBack)
      && FlatMap(o.out, ResetIn) == resets
      && FlatMap(o.out, SettingsIn) == answers
  }

  lemma NothingTold(c: Conn, o: ConnOut)
    requires o.Go? ==> o.conn.peer == c.peer && o.out == []
    ensures Tells(c, o, 0, [], [])
  {
  }

  lemma {:induction false} DistributePeer(c: Conn, mail: seq<Mail>)
    requires Distribute(c, mail).Some?
    ensures Distribute(c, mail).value.0.peer == c.peer
    decreases |c.pending|, if c.global > 0 then 1 else 0
  {
    if c.global > 0 && c.pending != [] {
      var (c1, mail1) := ServeHead(c, mail).value;
      DistributePeer(c1, mail1);
    }
  }

  lemma DistributedTells(c: Conn, c1: Conn, mail: seq<Mail>, out: seq<WireFrame>, resets: seq<StreamReset>)
    requires c1.peer == c.peer && Tells(c, Go(c1, mail, out), 0, resets, [])
    ensures Tells(c, Distributed(c1, mail, out), 0, resets, [])
  {
    if Distribute(c1, mail).Some? {
      DistributePeer(c1, mail);
    }
  }

  lemma AddGlobalTells(c: Conn, mail: seq<Mail>, amount: i32)
    ensures Tells(c, AddGlobal(c, mail, amount), 0, [], [])
  {
    if CheckedAdd(c.global, amount).Some? {
      DistributedTells(c, c.(global := c.global + amount), mail, [], []);
    }
  }

  lemma StreamFailedTells(c: Conn, mail: seq<Mail>, error: H2Error, id: u32)
    ensures Tells(c, StreamFailed(c, mail, error, id), 0, [StreamReset(id, error.code)], [])
  {
    var f := WRstStream(id, error.code);
    SumOne(f, GivenBack);
    FlatMapOne(f, ResetIn);
    FlatMapOne(f, SettingsIn);
  }

  lemma OnHeadersTells(cfg: Config, s: State, id: u32, parse: HeaderParse, hasBody: bool)
    ensures Tells(s.conn, OnHeaders(cfg, s.conn, s.mail, id, parse), 0,
                  ResetBy(cfg, s, PeerHeaders(id, parse, hasBody)), [])
  {
    if Refuses(cfg, s.conn) {
      StreamFailedTells(s.conn, s.mail, StreamError(RefusedStream), id);
    } else if parse.Refused? {
      StreamFailedTells(s.conn, s.mail, parse.error, id);
    }
  }

  lemma OnSettingsTells(c: Conn, mail: seq<Mail>, frame: Settings.SettingsFrame)
    ensures Tells(c, OnSettings(c, mail, frame), 0, [], AnswerTo(PeerSettings(frame)))
  {
    var f := WSettings(SettingsAck());
    SumOne(f, GivenBack);
    FlatMapOne(f, ResetIn);
    FlatMapOne(f, SettingsIn);
  }

  lemma OnShutdownTells(c: Conn, mail: seq<Mail>)
    ensures Tells(c, OnShutdown(c, mail), 0, [], AnswerTo(Shutdown))
  {
    var o := OnShutdown(c, mail);
    if o.Go? {
      SumOne(o.out[0], GivenBack);
      FlatMapOne(o.out[0], ResetIn);
      FlatMapOne(o.out[0], SettingsIn);
    }
  }

  lemma OnWindowUpdateTells(cfg: Config, s: State, id: u32, amount: i32)
    ensures Tells(s.conn, OnWindowUpdate(s.conn, s.mail, id, amount), 0,
                  ResetBy(cfg, s, PeerWindowUpdate(id, amount)), [])
  {
    var c, mail := s.conn, s.mail;
    if id == 0 {
      AddGlobalTells(c, mail, amount);
    } else if id !in c.streams {
      DistributedTells(c, c, mail, [], []);
    } else if Dead(c, mail, id) {
      StreamFailedTells(c, mail, StreamError(StreamClosedError), id);
      var o := StreamFailed(c, mail, StreamError(StreamClosedError), id);
      DistributedTells(c, o.conn, o.mail, o.out, [StreamReset(id, StreamClosedError)]);
    } else {
      var k := c.streams[id].task;
      var sent := Send(mail, k, WindowUpdate(amount)).value;
      DistributedTells(c, c, sent[k := NoteIncrement(sent[k], amount)], [], []);
    }
  }

  lemma CreditTells(c: Conn, mail: seq<Mail>, id: u32, amount: i32)
    requires id != 0
    ensures Tells(c, OnUpdatePeerWindow(c, mail, id, amount), 0, [], [])
  {
    var o := OnUpdatePeerWindow(c, mail, id, amount);
    if o.Go? {
      assert o.out[1..] == [WWindowUpdate(id, amount)];
      SumOne(o.out[1], GivenBack);
      FlatMapOne(o.out[1], ResetIn);
      FlatMapOne(o.out[1], SettingsIn);
    }
  }

  lemma ResponseTells(c: Conn, mail: seq<Mail>, f: WireFrame)
    requires f.WHeaders? || f.WData?
    ensures Tells(c, Go(c, mail, [f]), 0, [], [])
  {
    SumOne(f, GivenBack);
    FlatMapOne(f, ResetIn);
    FlatMapOne(f, SettingsIn);
  }

  lemma ClosedTells(c: Conn, o: ConnOut, id: u32, resets: seq<StreamReset>)
    requires Tells(c, o, 0, resets, [])
    ensures Tells(c, CountClosed(o, id), 0, resets, [])
  {
  }

  lemma OnRequestTells(cfg: Config, s: State)
    requires s.requests != [] && (s.requests[0].UpdatePeerWindow? ==> s.requests[0].id != 0)
    ensures Tells(s.conn, OnRequest(s.conn, s.mail, s.requests[0]), 0, ResetBy(cfg, s, TakeRequest), [])
  {
    var c, mail := s.conn, s.mail;
    match s.requests[0]
    case Frame(id, endStream, data) => ResponseTells(c, mail, WData(id, endStream, data));
    case Response(id, endStream) => ResponseTells(c, mail, WHeaders(id, endStream));
    case GetWindow(id, amount) => DistributedTells(c, c.(pending := c.pending + [(id, amount)]), mail, [], []);
    case PutWindow(amount) => AddGlobalTells(c, mail, amount);
    case UpdatePeerWindow(id, amount) => CreditTells(c, mail, id, amount);
    case StreamClosing(id, error) =>
      if error.Some? {
        StreamFailedTells(c, mail, error.value, id);
        ClosedTells(c, StreamFailed(c, mail, error.value, id), id, [StreamReset(id, error.value.code)]);
      } else {
        ClosedTells(c, Go(c, mail, []), id, []);
      }
    case StreamClosed(_) =>
  }

  // ---------- one step ----------

  /** No credit names stream 0. */
  predicate CreditsNamed(s: State) {
    && (forall r :: r in s.requests ==> (r.UpdatePeerWindow? ==> r.id != 0))
    && (forall t :: t in s.tasks ==> t.id != 0)
  }

  predicate Explained(cfg: Config, s: State, e: Event, s': State) {
    && s'.conn.peer == s.conn.peer - Carries(e) + Sum(s'.wire, GivenBack) - Sum(s.wire, GivenBack)
    && FlatMap(s'.wire, ResetIn) == FlatMap(s.wire, ResetIn) + ResetBy(cfg, s, e)
    && FlatMap(s'.wire, SettingsIn) == FlatMap(s.wire, SettingsIn) + AnswerTo(e)
  }

  lemma ConnExplained(cfg: Config, s: State, e: Event, s': State, o: ConnOut)
    requires o.Go? && s'.conn == o.conn && s'.wire == s.wire + o.out
    requires Tells(s.conn, o, Carries(e), ResetBy(cfg, s, e), AnswerTo(e))
    ensures Explained(cfg, s, e, s')
  {
    SumAppend(s.wire, o.out, GivenBack);
    FlatMapAppend(s.wire, o.out, ResetIn);
    FlatMapAppend(s.wire, o.out, SettingsIn);
  }

  lemma SilentExplained(cfg: Config, s: State, e: Event, s': State)
    requires s'.conn == s.conn && s'.wire == s.wire
    requires Carries(e) == 0 && ResetBy(cfg, s, e) == [] && AnswerTo(e) == []
    ensures Explained(cfg, s, e, s')
  {
    assert FlatMap(s.wire, ResetIn) + [] == FlatMap(s.wire, ResetIn);
    assert FlatMap(s.wire, SettingsIn) + [] == FlatMap(s.wire, SettingsIn);
  }

  predicate AtConnection(e: Event) {
    || e.PeerData? || e.PeerHeaders? || e.PeerSettings? || e.PeerWindowUpdate? || e.PeerStop? || e.Shutdown?
    || e.TakeRequest?
  }

  lemma HeadersExplained(cfg: Config, s: State, e: Event)
    requires e.PeerHeaders? && Step(cfg, s, e).Running?
    ensures Explained(cfg, s, e, Step(cfg, s, e).state)
  {
    OnHeadersTells(cfg, s, e.id, e.parse, e.hasBody);
    ConnExplained(cfg, s, e, Step(cfg, s, e).state, OnHeaders(cfg, s.conn, s.mail, e.id, e.parse));
  }

  lemma ArmExplained(cfg: Config, s: State, e: Event)
    requires CreditsNamed(s) && Step(cfg, s, e).Running? && AtConnection(e) && !e.PeerHeaders?
    ensures Explained(cfg, s, e, Step(cfg, s, e).state)
  {
    var s' := Step(cfg, s, e).state;
    match e
    case PeerData(id, data) => ConnExplained(cfg, s, e, s', OnData(s.conn, s.mail, id, data));
    case PeerSettings(frame) =>
      OnSettingsTells(s.conn, s.mail, frame);
      ConnExplained(cfg, s, e, s', OnSettings(s.conn, s.mail, frame));
    case PeerWindowUpdate(id, amount) =>
      OnWindowUpdateTells(cfg, s, id, amount);
      ConnExplained(cfg, s, e, s', OnWindowUpdate(s.conn, s.mail, id, amount));
    case Shutdown =>
      OnShutdownTells(s.conn, s.mail);
      ConnExplained(cfg, s, e, s', OnShutdown(s.conn, s.mail));
    case TakeRequest =>
      OnRequestTells(cfg, s);
      ConnExplained(cfg, s, e, s', OnRequest(s.conn, s.mail, s.requests[0]));
    case PeerStop(_) =>
  }

  lemma TaskStepsSilent(cfg: Config, s: State, e: Event)
    requires Step(cfg, s, e).Running? && !AtConnection(e)
    ensures Step(cfg, s, e).state.conn == s.conn && Step(cfg, s, e).state.wire == s.wire
  {
    if e.TaskRun? {
      RunSilent(s, e.k);
    }
  }

  lemma RunSilent(s: State, k: nat)
    requires k < |s.tasks| && RunTask(s, k).Running?
    ensures RunTask(s, k).state.conn == s.conn && RunTask(s, k).state.wire == s.wire
  {
  }

  /** Every step takes from the window what came in, gives back what it announces, and writes exactly the resets and
      settings it has a reason for. */
  lemma EveryStepExplained(cfg: Config, s: State, e: Event)
    requires CreditsNamed(s) && Step(cfg, s, e).Running?
    ensures Explained(cfg, s, e, Step(cfg, s, e).state)
  {
    if e.PeerHeaders? {
      HeadersExplained(cfg, s, e);
    } else if AtConnection(e) {
      ArmExplained(cfg, s, e);
    } else {
      TaskStepsSilent(cfg, s, e);
      SilentExplained(cfg, s, e, Step(cfg, s, e).state);
    }
  }

  // ---------- credits name their stream ----------

  lemma NamedMove(s: State, k: nat, mail: seq<Mail>, o: TaskOut)
    requires CreditsNamed(s) && k < |s.tasks| && o.task.id == s.tasks[k].id
    requires forall r :: r in o.out ==> (r.UpdatePeerWindow? ==> r.id == s.tasks[k].id)
    ensures CreditsNamed(TaskMove(s.(mail := mail), k, o))
  {
    var s' := TaskMove(s.(mail := mail), k, o);
    assert s.tasks[k] in s.tasks;
    forall t | t in s'.tasks
      ensures t.id != 0
    {
      assert t == o.task || t in s.tasks;
    }
  }

  lemma ReceiveNamed(s: State, k: nat, delivered: bool)
    requires CreditsNamed(s) && k < |s.tasks| && k < |s.mail| && s.mail[k].msgs != []
    ensures CreditsNamed(TaskMove(s.(mail := s.mail[k := Pop(s.mail[k])]), k,
                                  HandleReq(s.tasks[k], s.mail[k].msgs[0], delivered)))
  {
    NamedMove(s, k, s.mail[k := Pop(s.mail[k])], HandleReq(s.tasks[k], s.mail[k].msgs[0], delivered));
  }

  lemma QuietNamed(s: State, k: nat, o: TaskOut)
    requires CreditsNamed(s) && k < |s.tasks| && o.task.id == s.tasks[k].id
    requires forall r :: r in o.out ==> (r.UpdatePeerWindow? ==> r.id == s.tasks[k].id)
    ensures CreditsNamed(TaskMove(s, k, o))
  {
    NamedMove(s, k, s.mail, o);
    assert s.(mail := s.mail) == s;
  }

  lemma RunNamed(s: State, k: nat)
    requires CreditsNamed(s) && k < |s.tasks| && RunTask(s, k).Running?
    ensures CreditsNamed(RunTask(s, k).state)
  {
    var t := s.tasks[k];
    match t.phase
    case Top => QuietNamed(s, k, Ask(t));
    case Asked => QuietNamed(s, k, Emit(t));
    case Leaving(_) => QuietNamed(s, k, GiveBack(t));
    case Closing(_) => QuietNamed(s, k, AnnounceClosing(t));
    case Closed(_) => QuietNamed(s, k, AnnounceClosed(t));
    case Dropping(_) => NamedMove(s, k, s.mail[k := s.mail[k].(open := false, msgs := [])], Gone(t, s.mail[k]));
    case _ =>
  }

  lemma TaskNamed(cfg: Config, s: State, e: Event)
    requires CreditsNamed(s) && Step(cfg, s, e).Running? && !AtConnection(e)
    ensures CreditsNamed(Step(cfg, s, e).state)
  {
    match e
    case TaskReceive(k, delivered) => ReceiveNamed(s, k, delivered);
    case TaskCredit(k) => QuietNamed(s, k, TakeCredit(s.tasks[k]));
    case TaskRespond(k, withBody) => QuietNamed(s, k, Respond(s.tasks[k], withBody));
    case TaskChunk(k, chunk) => QuietNamed(s, k, ReadChunk(s.tasks[k], chunk));
    case TaskFail(k) => QuietNamed(s, k, Quiet(Leave(s.tasks[k], Some(StreamError(InternalError)))));
    case TaskRun(k) => RunNamed(s, k);
    case BodyPoll(k, room) => BodyNamed(s, k, PollBody(s.tasks[k].body.value, room));
    case BodyDrop(k) => BodyNamed(s, k, DropBody(s.tasks[k].body.value));
    case BodyDrain(k) => BodyNamed(s, k, DrainBody(s.tasks[k].body.value));
    case _ =>
  }

  lemma BodyNamed(s: State, k: nat, b: Body)
    requires CreditsNamed(s) && k < |s.tasks|
    ensures CreditsNamed(MoveBody(s, k, b).state)
  {
    QuietNamed(s, k, TaskOut(s.tasks[k].(body := Some(b)), [], 0, 0));
    assert s.requests + [] == s.requests;
  }

  lemma ConnNamed(cfg: Config, s: State, e: Event)
    requires CreditsNamed(s) && Step(cfg, s, e).Running? && AtConnection(e)
    ensures CreditsNamed(Step(cfg, s, e).state)
  {
    if e.PeerHeaders? && Spawned(s.mail, OnHeaders(cfg, s.conn, s.mail, e.id, e.parse)) {
      SpawnedState(cfg, s, e.id, e.parse, e.hasBody);
    }
  }

  // ---------- every run ----------

  predicate RunExplained(cfg: Config, events: seq<Event>)
    requires Run(cfg, events).Some?
  {
    var s := Run(cfg, events).value;
    && CreditsNamed(s)
    && s.conn.peer == cfg.globalWindow - Sum(events, Carries) + Sum(s.wire, GivenBack)
    && FlatMap(s.wire, ResetIn) == ResetsBy(cfg, events)
    && FlatMap(s.wire, SettingsIn) == FlatMap(events, AnswerTo)
  }

  lemma {:induction false} RunsExplained(cfg: Config, events: seq<Event>)
    requires Run(cfg, events).Some?
    ensures RunExplained(cfg, events)
    decreases |events|
  {
    if events != [] {
      var before, e := events[..|events| - 1], events[|events| - 1];
      assert events == before + [e];
      RunsExplained(cfg, before);
      var s := Run(cfg, before).value;
      EveryStepExplained(cfg, s, e);
      if AtConnection(e) {
        ConnNamed(cfg, s, e);
      } else {
        TaskNamed(cfg, s, e);
      }
      SumPush(before, e, Carries);
      FlatMapPush(before, e, AnswerTo);
    }
  }

  /** Section 6.9 of RFC 7540: in every run the receive window of the connection is the configured one, less the DATA
      that came in, plus the increments written on stream 0. So it is the window that the peer works out from what it
      sent and what it was told. */
  lemma PeerWindowOnWire(cfg: Config, events: seq<Event>)
    requires Run(cfg, events).Some?
    ensures var s := Run(cfg, events).value;
            s.conn.peer == cfg.globalWindow - Sum(events, Carries) + Sum(s.wire, GivenBack)
  {
    RunsExplained(cfg, events);
  }

  /** In every run the RST_STREAM frames written are, one for one and in order, those that the events give a reason for,
      each with its stream and its code. */
  lemma ResetsOnWire(cfg: Config, events: seq<Event>)
    requires Run(cfg, events).Some?
    ensures FlatMap(Run(cfg, events).value.wire, ResetIn) == ResetsBy(cfg, events)
  {
    RunsExplained(cfg, events);
  }

  /** In every run each SETTINGS frame is acknowledged once, in order, and each shutdown announced once. */
  lemma SettingsAnswered(cfg: Config, events: seq<Event>)
    requires Run(cfg, events).Some?
    ensures FlatMap(Run(cfg, events).value.wire, SettingsIn) == FlatMap(events, AnswerTo)
  {
    RunsExplained(cfg, events);
  }

  // ---------- what a reset does ----------

  /** The handle and the mailbox of a stream after its reset: a running task is told last and its handle is marked, the
      handle of a task that is gone is removed, and no other mailbox changes. */
  predicate ResetSeen(s: State, s': State, id: u32) {
    if id !in s.conn.streams then s'.mail == s.mail && id !in s'.conn.streams
    else if Dead(s.conn, s.mail, id) then s'.mail == s.mail && id !in s'.conn.streams
    else
      var k := s.conn.streams[id].task;
      && s'.mail == s.mail[k := s.mail[k].(msgs := s.mail[k].msgs + [Reset])]
      && id in s'.conn.streams && s'.conn.streams[id] == Handle(k, true)
  }

  /** Each reset reaches its stream. A WINDOW_UPDATE resets only streams whose task is gone. */
  lemma ResetReachesStream(cfg: Config, s: State, e: Event)
    requires Step(cfg, s, e).Running? && ResetBy(cfg, s, e) != [] && !e.PeerWindowUpdate?
    ensures ResetSeen(s, Step(cfg, s, e).state, ResetBy(cfg, s, e)[0].id)
    ensures |ResetBy(cfg, s, e)| == 1
  {
  }

  lemma DeadStreamForgotten(cfg: Config, s: State, id: u32, amount: i32)
    requires Step(cfg, s, PeerWindowUpdate(id, amount)).Running? && id != 0 && Dead(s.conn, s.mail, id)
    ensures id !in Step(cfg, s, PeerWindowUpdate(id, amount)).state.conn.streams
  {
    var o := StreamFailed(s.conn, s.mail, StreamError(StreamClosedError), id);
    DistributeHandles(o.conn, o.mail);
  }

  lemma {:induction false} DistributeHandles(c: Conn, mail: seq<Mail>)
    ensures Distribute(c, mail).Some? ==> Distribute(c, mail).value.0.streams == c.streams
    decreases |c.pending|, if c.global > 0 then 1 else 0
  {
    if c.global > 0 && c.pending != [] && ServeHead(c, mail).Some? {
      var (c1, mail1) := ServeHead(c, mail).value;
      DistributeHandles(c1, mail1);
    }
  }
}
