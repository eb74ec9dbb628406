/** Two runs that show why the guarantees of single streams carry their provisos: the id of the stream reused, and its
    limit lowered. */
module FlowLimits {
  import opened Basics
  import opened H2Types
  import opened ConnSpec
  import opened StreamSpec
  import opened System
  import opened Seqs
  import opened TaskSteps
  import opened StreamRuns
  import Settings

  const PLAIN: Config := Config(65_535, 65_535, None)

  lemma RunStep(cfg: Config, events: seq<Event>, e: Event)
    requires Run(cfg, events).Some? && Step(cfg, Run(cfg, events).value, e).Running?
    ensures Run(cfg, events + [e]) == Some(Step(cfg, Run(cfg, events).value, e).state)
  {
    assert (events + [e])[..|events + [e]| - 1] == events;
  }

  /** Two requests under one id: the second HEADERS takes over the handle of the first stream. */
  const REUSE: seq<Event> := [PeerHeaders(1, Parsed, false)] + [PeerHeaders(1, Parsed, false)]

  function Reused(): State {
    var empty := NewMail(65_535);
    State(Start(PLAIN).(streams := map[1 := Handle(1, false)], biggest := 1, open := 2),
          [empty, empty], [NewTask(1, 65_535, 65_535, false), NewTask(1, 65_535, 65_535, false)],
          [], [], 0, 0, 0, true)
  }

  lemma ReuseReaches()
    ensures Run(PLAIN, REUSE) == Some(Reused())
  {
    var e := PeerHeaders(1, Parsed, false);
    assert Run(PLAIN, []) == Some(Init(PLAIN));
    RunStep(PLAIN, [], e);
    assert [] + [e] == [e];
    RunStep(PLAIN, [e], e);
    var s := Run(PLAIN, REUSE).value;
    assert s.conn.streams == map[1 := Handle(1, false)];
    assert s == Reused();
  }

  /** The first task at some point after the reuse; the second has not moved. */
  function Later(first: Task, requests: seq<ConnReq>, wire: seq<WireFrame>, global: i32, inbox: seq<StreamReq>): State {
    Reused().(conn := Reused().conn.(global := global),
              mail := [Reused().mail[0], Reused().mail[1].(msgs := inbox)],
              tasks := [first, Reused().tasks[1]],
              requests := requests, wire := wire)
  }

  function First(): Task {
    NewTask(1, 65_535, 65_535, false)
  }

  function Responded(): Task {
    First().(phase := BodyIdle, emitted := [WHeaders(1, false)])
  }

  function Loaded(): Task {
    Responded().(phase := Top, buffer := [7], produced := [7], needed := 1)
  }

  function Asking(): Task {
    Loaded().(phase := Asked, needed := 0, window := 65_534, asked := 1)
  }

  lemma RespondStep()
    ensures Step(PLAIN, Reused(), TaskRespond(0, true))
         == Running(Later(Responded(), [Response(1, false)], [], 65_535, []))
  {
    assert [First(), First()][0 := Responded()] == [Responded(), First()];
    assert Reused().mail == [Reused().mail[0], Reused().mail[1].(msgs := [])];
    assert Respond(First(), true).task == Responded() && Respond(First(), true).out == [Response(1, false)];
    assert [] + [Response(1, false)] == [Response(1, false)];
  }

  lemma ChunkStep()
    ensures Step(PLAIN, Later(Responded(), [Response(1, false)], [], 65_535, []), TaskChunk(0, [7]))
         == Running(Later(Loaded(), [Response(1, false)], [], 65_535, []))
  {
    assert [Responded(), First()][0 := Loaded()] == [Loaded(), First()];
    assert [] + [7] == [7];
    assert ReadChunk(Responded(), [7]).task == Loaded();
  }

  lemma AskStep()
    ensures Step(PLAIN, Later(Loaded(), [Response(1, false)], [], 65_535, []), TaskRun(0))
         == Running(Later(Asking(), [Response(1, false), GetWindow(1, 1)], [], 65_535, []))
  {
    AskOne();
    assert [Loaded(), First()][0 := Asking()] == [Asking(), First()];
    assert [Response(1, false)] + [GetWindow(1, 1)] == [Response(1, false), GetWindow(1, 1)];
  }

  lemma AskOne()
    ensures Ask(Loaded()) == TaskOut(Asking(), [GetWindow(1, 1)], 0, 0)
  {
  }

  lemma WaitStep()
    ensures Step(PLAIN, Later(Asking(), [Response(1, false), GetWindow(1, 1)], [], 65_535, []), TaskRun(0))
         == Running(Later(Asking().(phase := Waiting), [Response(1, false), GetWindow(1, 1)], [], 65_535, []))
  {
    assert [Asking(), First()][0 := Asking().(phase := Waiting)] == [Asking().(phase := Waiting), First()];
  }

  lemma WriteStep()
    ensures Step(PLAIN, Later(Asking().(phase := Waiting), [Response(1, false), GetWindow(1, 1)], [], 65_535, []),
                 TakeRequest)
         == Running(Later(Asking().(phase := Waiting), [GetWindow(1, 1)], [WHeaders(1, false)], 65_535, []))
  {
  }

  /** The window asked for by the first task goes through the stored handle, to the second. */
  lemma GrantStep()
    ensures Step(PLAIN, Later(Asking().(phase := Waiting), [GetWindow(1, 1)], [WHeaders(1, false)], 65_535, []),
                 TakeRequest)
         == Running(Stalled())
  {
    var s := Later(Asking().(phase := Waiting), [GetWindow(1, 1)], [WHeaders(1, false)], 65_535, []);
    var c := s.conn.(pending := s.conn.pending + [(1, 1)]);
    assert c.pending == [(1, 1)];
    var sent := s.mail[1 := s.mail[1].Push(AvailableWindow(1))];
    assert [] + [AvailableWindow(1)] == [AvailableWindow(1)];
    assert sent[1] == Stalled().mail[1];
    assert sent == Stalled().mail;
    assert ServeHead(c, s.mail) == Some((c.(pending := [], global := 65_534), sent));
    assert Distribute(c.(pending := [], global := 65_534), sent) == Some((c.(pending := [], global := 65_534), sent));
    assert Distribute(c, s.mail) == Some((Stalled().conn, sent));
  }

  function Stalled(): State {
    Later(Asking().(phase := Waiting), [], [WHeaders(1, false)], 65_534, [AvailableWindow(1)])
  }

  lemma AskedReached()
    ensures exists e :: Run(PLAIN, e) == Some(Later(Asking(), [Response(1, false), GetWindow(1, 1)], [], 65_535, []))
  {
    ReuseReaches();
    RespondStep();
    RunStep(PLAIN, REUSE, TaskRespond(0, true));
    var e1 := REUSE + [TaskRespond(0, true)];
    ChunkStep();
    RunStep(PLAIN, e1, TaskChunk(0, [7]));
    var e2 := e1 + [TaskChunk(0, [7])];
    AskStep();
    RunStep(PLAIN, e2, TaskRun(0));
    assert Run(PLAIN, e2 + [TaskRun(0)])
        == Some(Later(Asking(), [Response(1, false), GetWindow(1, 1)], [], 65_535, []));
  }

  lemma StallReached()
    ensures Reachable(PLAIN, Stalled())
  {
    AskedReached();
    var e3 :| Run(PLAIN, e3) == Some(Later(Asking(), [Response(1, false), GetWindow(1, 1)], [], 65_535, []));
    WaitStep();
    RunStep(PLAIN, e3, TaskRun(0));
    var e4 := e3 + [TaskRun(0)];
    WriteStep();
    RunStep(PLAIN, e4, TakeRequest);
    GrantStep();
    RunStep(PLAIN, e4 + [TakeRequest], TakeRequest);
    assert Run(PLAIN, e4 + [TakeRequest] + [TakeRequest]) == Some(Stalled());
  }

  /** For a stream whose id was reused the no-false-stall guarantee fails: nothing is in flight to the first stream,
      both windows are open, and it waits for window it asked for. */
  lemma ReuseStallsStream()
    ensures Reachable(PLAIN, Stalled()) && !Alone(Stalled(), 0)
    ensures Stalled().tasks[0].phase.Waiting? && Stalled().requests == [] && Stalled().mail[0].msgs == []
    ensures Stalled().tasks[0].window > 0 && Stalled().conn.global > 0
  {
    StallReached();
    assert Stalled().tasks[1].id == Stalled().tasks[0].id;
  }

  // ---------- lowering the initial window ----------

  /** One stream whose task has the mailbox `m`. */
  function Single(t: Task, m: Mail, requests: seq<ConnReq>, wire: seq<WireFrame>, c: Conn): State {
    State(c, [m], [t], requests, wire, 0, 0, 0, false)
  }

  function Inbox(): Mail {
    NewMail(65_535)
  }

  function Opened(): Conn {
    Start(PLAIN).(streams := map[1 := Handle(0, false)], biggest := 1, open := 1)
  }

  function Granted(): Conn {
    Opened().(global := 65_534)
  }

  const LOWER: Settings.SettingsFrame := Settings.SettingsFrame(false, None, None, None, Some(0), None, None)

  function Lowered(): Conn {
    Granted().(remote := Granted().remote.(initialWindowSize := 0))
  }

  function Supplied(): Task {
    Asking().(phase := Top, available := 1)
  }

  function Written(): Task {
    Supplied().(available := 0, buffer := [], emitted := [WHeaders(1, false), WData(1, false, [7])])
  }

  /** The task reserves one byte from its window and is granted it. */
  lemma ReserveSteps(s1: State, s2: State, s3: State, s4: State)
    requires s1 == Single(First(), Inbox(), [], [], Opened())
    requires s2 == Single(Responded(), Inbox(), [Response(1, false)], [], Opened())
    requires s3 == Single(Loaded(), Inbox(), [Response(1, false)], [], Opened())
    requires s4 == Single(Asking(), Inbox(), [Response(1, false), GetWindow(1, 1)], [], Opened())
    ensures Step(PLAIN, s1, TaskRespond(0, true)) == Running(s2)
    ensures Step(PLAIN, s2, TaskChunk(0, [7])) == Running(s3)
    ensures Step(PLAIN, s3, TaskRun(0)) == Running(s4)
  {
    assert [First()][0 := Responded()] == [Responded()];
    assert [] + [Response(1, false)] == [Response(1, false)];
    assert Respond(First(), true).task == Responded();
    assert [Responded()][0 := Loaded()] == [Loaded()];
    assert [] + [7] == [7];
    assert ReadChunk(Responded(), [7]).task == Loaded();
    AskOne();
    assert [Loaded()][0 := Asking()] == [Asking()];
  }

  lemma GrantSteps(s4: State, s5: State, s6: State)
    requires s4 == Single(Asking(), Inbox(), [Response(1, false), GetWindow(1, 1)], [], Opened())
    requires s5 == Single(Asking(), Inbox(), [GetWindow(1, 1)], [WHeaders(1, false)], Opened())
    requires s6 == Single(Asking(), Granting(), [], [WHeaders(1, false)], Granted())
    ensures Step(PLAIN, s4, TakeRequest) == Running(s5)
    ensures Step(PLAIN, s5, TakeRequest) == Running(s6)
  {
    var c := Opened().(pending := Opened().pending + [(1, 1)]);
    assert c.pending == [(1, 1)];
    assert [] + [AvailableWindow(1)] == [AvailableWindow(1)];
    var sent := [Inbox()][0 := Inbox().Push(AvailableWindow(1))];
    assert sent == [Granting()];
    assert ServeHead(c, [Inbox()]) == Some((Granted().(pending := []), sent));
    assert Distribute(Granted().(pending := []), sent) == Some((Granted().(pending := []), sent));
    assert Distribute(c, [Inbox()]) == Some((Granted(), sent));
  }

  function Granting(): Mail {
    Inbox().(msgs := [AvailableWindow(1)])
  }

  lemma ReceiveSteps(s6: State, s7: State, s8: State, wire: seq<WireFrame>)
    requires s6 == Single(Asking(), Granting(), [], wire, Granted())
    requires s7 == Single(Asking().(phase := Waiting), Granting(), [], wire, Granted())
    requires s8 == Single(Supplied(), Inbox(), [], wire, Granted())
    ensures Step(PLAIN, s6, TaskRun(0)) == Running(s7)
    ensures Step(PLAIN, s7, TaskReceive(0, false)) == Running(s8)
  {
    assert [Asking()][0 := Asking().(phase := Waiting)] == [Asking().(phase := Waiting)];
    assert [Asking().(phase := Waiting)][0 := Supplied()] == [Supplied()];
    assert Granting().msgs[1..] == [];
    assert [Granting()][0 := Pop(Granting())] == [Inbox()];
  }

  function Told(): Mail {
    Inbox().Push(WindowUpdate(-65_535))
  }

  lemma LowerStep(s8: State, s9: State, wire: seq<WireFrame>)
    requires s8 == Single(Supplied(), Inbox(), [], wire, Granted())
    requires s9 == Single(Supplied(), Told(), [], wire + [WSettings(SettingsAck())], Lowered())
    ensures Step(PLAIN, s8, PeerSettings(LOWER)) == Running(s9)
  {
    LowerTold();
  }

  lemma LowerTold()
    ensures OnSettings(Granted(), [Inbox()], LOWER) == Go(Lowered(), [Told()], [WSettings(SettingsAck())])
  {
    assert Targets(Granted().streams) == {0} by {
      assert Granted().streams[1].task == 0;
    }
    assert Broadcast([Inbox()], {0}, WindowUpdate(-65_535)) == [Told()];
  }

  lemma EmitSteps(s9: State, s10: State, s11: State, wire: seq<WireFrame>)
    requires s9 == Single(Supplied(), Told(), [], wire, Lowered())
    requires s10 == Single(Supplied().(phase := Asked), Told(), [], wire, Lowered())
    requires s11 == Single(Written(), Told(), [Frame(1, false, [7])], wire, Lowered())
    ensures Step(PLAIN, s9, TaskRun(0)) == Running(s10)
    ensures Step(PLAIN, s10, TaskRun(0)) == Running(s11)
  {
    assert [Supplied()][0 := Supplied().(phase := Asked)] == [Supplied().(phase := Asked)];
    assert [Supplied().(phase := Asked)][0 := Written()] == [Written()];
    assert [7][..1] == [7] && [7][1..] == [];
    assert [WHeaders(1, false)] + [WData(1, false, [7])] == Written().emitted;
    assert Emit(Supplied().(phase := Asked)).task == Written();
    assert [] + [Frame(1, false, [7])] == [Frame(1, false, [7])];
  }

  function Overrun(): State {
    Single(Written(), Told(), [Frame(1, false, [7])], [WHeaders(1, false), WSettings(SettingsAck())], Lowered())
  }

  lemma OpenStep()
    ensures Run(PLAIN, [PeerHeaders(1, Parsed, false)]) == Some(Single(First(), Inbox(), [], [], Opened()))
  {
    var e := PeerHeaders(1, Parsed, false);
    assert Run(PLAIN, []) == Some(Init(PLAIN));
    RunStep(PLAIN, [], e);
    assert [] + [e] == [e];
    var s := Run(PLAIN, [e]).value;
    assert s.conn.streams == map[1 := Handle(0, false)];
    assert s.mail == [Inbox()] && s.tasks == [First()] && s.wire == [];
    assert s.conn == Opened();
  }

  lemma OverrunReached()
    ensures Reachable(PLAIN, Overrun())
  {
    var wire := [WHeaders(1, false)];
    var both := [Response(1, false), GetWindow(1, 1)];
    OpenStep();
    var e1 := [PeerHeaders(1, Parsed, false)];
    ReserveSteps(Single(First(), Inbox(), [], [], Opened()),
                 Single(Responded(), Inbox(), [Response(1, false)], [], Opened()),
                 Single(Loaded(), Inbox(), [Response(1, false)], [], Opened()),
                 Single(Asking(), Inbox(), both, [], Opened()));
    RunStep(PLAIN, e1, TaskRespond(0, true));
    RunStep(PLAIN, e1 + [TaskRespond(0, true)], TaskChunk(0, [7]));
    var e3 := e1 + [TaskRespond(0, true)] + [TaskChunk(0, [7])];
    RunStep(PLAIN, e3, TaskRun(0));
    OverrunFrom(e3 + [TaskRun(0)]);
  }

  lemma OverrunFrom(e4: seq<Event>)
    requires Run(PLAIN, e4) == Some(Single(Asking(), Inbox(), [Response(1, false), GetWindow(1, 1)], [], Opened()))
    ensures Reachable(PLAIN, Overrun())
  {
    var wire := [WHeaders(1, false)];
    GrantSteps(Single(Asking(), Inbox(), [Response(1, false), GetWindow(1, 1)], [], Opened()),
               Single(Asking(), Inbox(), [GetWindow(1, 1)], wire, Opened()),
               Single(Asking(), Granting(), [], wire, Granted()));
    RunStep(PLAIN, e4, TakeRequest);
    RunStep(PLAIN, e4 + [TakeRequest], TakeRequest);
    var e6 := e4 + [TakeRequest] + [TakeRequest];
    ReceiveSteps(Single(Asking(), Granting(), [], wire, Granted()),
                 Single(Asking().(phase := Waiting), Granting(), [], wire, Granted()),
                 Single(Supplied(), Inbox(), [], wire, Granted()), wire);
    RunStep(PLAIN, e6, TaskRun(0));
    RunStep(PLAIN, e6 + [TaskRun(0)], TaskReceive(0, false));
    OverrunEnd(e6 + [TaskRun(0)] + [TaskReceive(0, false)], wire);
  }

  lemma OverrunEnd(e8: seq<Event>, wire: seq<WireFrame>)
    requires wire == [WHeaders(1, false)]
    requires Run(PLAIN, e8) == Some(Single(Supplied(), Inbox(), [], wire, Granted()))
    ensures Reachable(PLAIN, Overrun())
  {
    var later := wire + [WSettings(SettingsAck())];
    LowerStep(Single(Supplied(), Inbox(), [], wire, Granted()),
              Single(Supplied(), Told(), [], later, Lowered()), wire);
    EmitSteps(Single(Supplied(), Told(), [], later, Lowered()),
              Single(Supplied().(phase := Asked), Told(), [], later, Lowered()),
              Overrun(), later);
    RunStep(PLAIN, e8, PeerSettings(LOWER));
    var e9 := e8 + [PeerSettings(LOWER)];
    RunStep(PLAIN, e9, TaskRun(0));
    RunStep(PLAIN, e9 + [TaskRun(0)], TaskRun(0));
  }

  /** After the peer lowered the initial window, DATA may exceed its current limit: what was reserved before is still
      sent. No id was reused here. */
  lemma LoweringOverrunsLimit()
    ensures Reachable(PLAIN, Overrun()) && Alone(Overrun(), 0) && Overrun().mail[0].lowered
    ensures Sent(Overrun().tasks[0]) > Overrun().conn.remote.initialWindowSize + Overrun().mail[0].increments
  {
    OverrunReached();
    var frames := [WHeaders(1, false), WData(1, false, [7])];
    assert frames[1..] == [WData(1, false, [7])] && frames[1..][1..] == [];
    assert Payload(frames) == [7];
  }
}
