/** The guarantees of the HTTP/2 connection over every reachable state. */
module FlowTheorems {
  import opened Basics
  import opened H2Errors
  import opened H2Types
  import opened ConnSpec
  import opened StreamSpec
  import opened System
  import opened Seqs
  import opened Conservation
  import opened PerStream
  import opened TaskSteps
  import opened StreamRuns
  import opened Credits
  import Settings

  lemma ReachableOk(cfg: Config, s: State)
    requires cfg.globalWindow >= 0 && Reachable(cfg, s)
    ensures RunOk(s) && CreditsOk(cfg, s)
    ensures Total(SendWindow, s) == Supply(SendWindow, cfg, s)
    ensures Total(BodyCredit, s) == Supply(BodyCredit, cfg, s)
    ensures Total(OpenCount, s) == Supply(OpenCount, cfg, s)
  {
    var events :| Run(cfg, events) == Some(s);
    RunsOk(cfg, events);
    CreditsHold(cfg, events);
    Conserved(SendWindow, cfg, events);
    Conserved(BodyCredit, cfg, events);
    Conserved(OpenCount, cfg, events);
  }

  /** Every term of a balance but the connection's own is non-negative. */
  lemma TermsNonNegative(b: Balance, s: State)
    requires WellFormed(s)
    ensures Sum(s.mail, MailIn(b)) >= 0 && Sum(s.requests, ReqIn(b)) >= 0
    ensures Sum(s.tasks, TaskIn(b)) >= 0 && Sum(s.wire, WireIn(b)) >= 0
  {
    forall m | m in s.mail
      ensures MailIn(b)(m) >= 0
    {
      SumNonNegative(m.msgs, MsgIn(b));
    }
    SumNonNegative(s.mail, MailIn(b));
    SumNonNegative(s.requests, ReqIn(b));
    forall t | t in s.tasks
      ensures TaskIn(b)(t) >= 0
    {
      if t.body.Some? {
        SumNonNegative(t.body.value.queue, Length);
        SumNonNegative<i32>(t.body.value.credits, Amount);
      }
    }
    SumNonNegative(s.tasks, TaskIn(b));
    SumNonNegative(s.wire, WireIn(b));
  }

  // ---------- global windows ----------

  function DataLength(f: WireFrame): int {
    if f.WData? then |f.data| else 0
  }

  /** DATA bytes written to the peer. */
  function DataWritten(s: State): int {
    Sum(s.wire, DataLength)
  }

  lemma {:induction false} WireSums(wire: seq<WireFrame>)
    ensures Sum(wire, WireIn(SendWindow)) == Sum(wire, DataLength)
    ensures Sum(wire, WireIn(BodyCredit)) == 0 && Sum(wire, WireIn(OpenCount)) == 0
  {
    if wire != [] {
      WireSums(wire[1..]);
    }
  }

  /** Section 6.9.1 of RFC 7540: the global window, the window on its way to and from the streams, the window
      they hold, the DATA queued and written and the window lost with dead streams add up to what the peer
      granted; so DATA never exceeds the grant and the global window never goes below zero. */
  lemma DataWithinGrant(cfg: Config, s: State)
    requires cfg.globalWindow >= 0 && Reachable(cfg, s)
    ensures s.conn.global + Sum(s.mail, MailIn(SendWindow)) + Sum(s.requests, ReqIn(SendWindow))
            + Sum(s.tasks, TaskIn(SendWindow)) + DataWritten(s) + s.lostWindow
         == 65_535 + s.increments
    ensures s.conn.global >= 0
    ensures DataWritten(s) + s.conn.global <= 65_535 + s.increments
  {
    ReachableOk(cfg, s);
    TermsNonNegative(SendWindow, s);
    WireSums(s.wire);
  }

  /** The receive window of the connection plus every body byte not yet credited plus the bytes lost with dead
      streams is the window announced to the peer, so it stays between 0 and that window. */
  lemma CreditWithinWindow(cfg: Config, s: State)
    requires cfg.globalWindow >= 0 && Reachable(cfg, s)
    ensures s.conn.peer + Sum(s.mail, MailIn(BodyCredit)) + Sum(s.requests, ReqIn(BodyCredit))
            + Sum(s.tasks, TaskIn(BodyCredit)) + s.lostCredit
         == cfg.globalWindow
    ensures 0 <= s.conn.peer <= cfg.globalWindow
  {
    ReachableOk(cfg, s);
    TermsNonNegative(BodyCredit, s);
    WireSums(s.wire);
  }

  lemma HeadWeighs(b: Balance, requests: seq<ConnReq>)
    requires requests != [] && forall r :: r in requests ==> ReqOk(r)
    ensures 0 <= ReqWeight(b, requests[0]) <= Sum(requests, ReqIn(b))
  {
    SumAtLeast(requests, 0, ReqIn(b));
  }

  lemma HeadCreditFits(cfg: Config, s: State)
    requires WellFormed(s) && Total(BodyCredit, s) == Supply(BodyCredit, cfg, s)
    requires s.requests != [] && s.requests[0].UpdatePeerWindow?
    ensures 0 <= s.requests[0].amount && s.conn.peer + s.requests[0].amount <= cfg.globalWindow
  {
    TermsNonNegative(BodyCredit, s);
    HeadWeighs(BodyCredit, s.requests);
  }

  /** The overflow branch of UpdatePeerWindow is never taken: the request is always served. */
  lemma CreditNeverOverflows(cfg: Config, s: State)
    requires cfg.globalWindow >= 0 && Reachable(cfg, s)
    requires s.requests != [] && s.requests[0].UpdatePeerWindow?
    ensures Step(cfg, s, TakeRequest).Running?
    ensures Step(cfg, s, TakeRequest).state.conn.peer == s.conn.peer + s.requests[0].amount <= cfg.globalWindow
  {
    ReachableOk(cfg, s);
    HeadCreditFits(cfg, s);
    CreditServed(cfg, s);
  }

  lemma CreditServed(cfg: Config, s: State)
    requires s.requests != [] && s.requests[0].UpdatePeerWindow?
    requires 0 <= s.requests[0].amount && s.conn.peer + s.requests[0].amount <= cfg.globalWindow
    ensures Step(cfg, s, TakeRequest).Running?
    ensures Step(cfg, s, TakeRequest).state.conn.peer == s.conn.peer + s.requests[0].amount
  {
  }

  /** The same for one stream: its receive window and its uncredited bytes make up the announced window, and
      taking a credit never fails. */
  lemma StreamCreditWithinWindow(cfg: Config, s: State, k: nat)
    requires cfg.globalWindow >= 0 && Reachable(cfg, s) && k < |s.tasks| && !s.tasks[k].phase.Done?
    ensures s.tasks[k].peerWindow + Outstanding(s.tasks[k].body) == cfg.localInitialWindow
    ensures 0 <= s.tasks[k].peerWindow <= cfg.localInitialWindow
    ensures Selecting(s.tasks[k]) && HasCredit(s.tasks[k]) ==>
              Selecting(TakeCredit(s.tasks[k]).task) || TakeCredit(s.tasks[k]).task.phase.Top?
  {
    var events :| Run(cfg, events) == Some(s);
    CreditsHold(cfg, events);
    ReachableOk(cfg, s);
    LossesNonNegative(s.mail[k], s.tasks[k]);
    if Selecting(s.tasks[k]) && HasCredit(s.tasks[k]) {
      TakeCreditCredit(cfg, s.tasks[k]);
    }
  }

  // ---------- lifecycle ----------

  function StillOpen(t: Task): int {
    if Announced(t.phase) then 0 else 1
  }

  function ClosingIn(r: ConnReq): int {
    if r.StreamClosing? then 1 else 0
  }

  lemma {:induction false} OpenSums(mail: seq<Mail>, requests: seq<ConnReq>, tasks: seq<Task>)
    ensures Sum(mail, MailIn(OpenCount)) == 0
    ensures Sum(requests, ReqIn(OpenCount)) == Sum(requests, ClosingIn)
    ensures Sum(tasks, TaskIn(OpenCount)) == Sum(tasks, StillOpen)
    decreases |mail| + |requests| + |tasks|
  {
    if mail != [] {
      SumsAgree(mail[0].msgs);
      OpenSums(mail[1..], requests, tasks);
    } else if requests != [] {
      OpenSums(mail, requests[1..], tasks);
    } else if tasks != [] {
      OpenSums(mail, requests, tasks[1..]);
    }
  }

  /** `open_streams` counts exactly the spawned tasks whose StreamClosing was not processed yet; it respects the
      configured maximum, and the underflow branch of StreamClosing is never taken. */
  lemma OpenStreamsCounted(cfg: Config, s: State)
    requires cfg.globalWindow >= 0 && Reachable(cfg, s)
    ensures s.conn.open == Sum(s.tasks, StillOpen) + Sum(s.requests, ClosingIn)
    ensures cfg.maxStreams.Some? ==> s.conn.open <= cfg.maxStreams.value
    ensures s.requests != [] && s.requests[0].StreamClosing? ==> s.conn.open > 0
  {
    ReachableOk(cfg, s);
    OpenSums(s.mail, s.requests, s.tasks);
    WireSums(s.wire);
    if s.requests != [] && s.requests[0].StreamClosing? {
      ClosingCounted(s.tasks, s.requests);
    }
  }

  lemma ClosingCounted(tasks: seq<Task>, requests: seq<ConnReq>)
    requires requests != [] && requests[0].StreamClosing?
    ensures Sum(tasks, StillOpen) + Sum(requests, ClosingIn) > 0
  {
    SumNonNegative(tasks, StillOpen);
    SumNonNegative(requests[1..], ClosingIn);
  }

  /** Stream ids are odd, and `biggest`, the id named by GOAWAY, is the biggest of them. They strictly increase
      exactly in the runs where HEADERS never reuse the id of a stream that still has a handle. */
  lemma StreamIds(cfg: Config, s: State)
    requires cfg.globalWindow >= 0 && Reachable(cfg, s)
    ensures forall k :: 0 <= k < |s.tasks| ==> s.tasks[k].id % 2 == 1 && s.tasks[k].id <= s.conn.biggest
    ensures s.tasks != [] ==> exists k :: 0 <= k < |s.tasks| && s.tasks[k].id == s.conn.biggest
    ensures (forall j, k :: 0 <= j < k < |s.tasks| ==> s.tasks[j].id < s.tasks[k].id) <==> !s.reopened
    ensures forall e :: Step(cfg, s, e).Ended? ==> NamesBiggest(s, e, Step(cfg, s, e).lastStream)
  {
    ReachableOk(cfg, s);
    forall e | Step(cfg, s, e).Ended?
      ensures NamesBiggest(s, e, Step(cfg, s, e).lastStream)
    {
      GoAwayNamesBiggest(cfg, s, e);
    }
  }

  /** The biggest stream opened, or the id whose opening overflowed the count of open streams. */
  predicate NamesBiggest(s: State, e: Event, last: u32) {
    last == if e.PeerHeaders? && Overflows(s) && last != s.conn.biggest then e.id else s.conn.biggest
  }

  /** One more open stream cannot be counted. */
  predicate Overflows(s: State) {
    s.conn.open + 1 >= U32_LIMIT
  }

  /** Whatever ends the connection: GOAWAY names the biggest stream opened. Only a HEADERS frame that would overflow
      the count of open streams names its own stream. */
  lemma GoAwayNamesBiggest(cfg: Config, s: State, e: Event)
    requires Step(cfg, s, e).Ended?
    ensures !(e.PeerHeaders? && Overflows(s)) ==> Step(cfg, s, e).lastStream == s.conn.biggest
    ensures NamesBiggest(s, e, Step(cfg, s, e).lastStream)
  {
    if e.TakeRequest? && s.requests[0].StreamClosing? && s.requests[0].error.Some? {
      var r := s.requests[0];
      assert StreamFailed(s.conn, s.mail, r.error.value, r.id).Go? ==>
          StreamFailed(s.conn, s.mail, r.error.value, r.id).conn.biggest == s.conn.biggest;
    }
  }

  lemma DrainingStep(cfg: Config, s: State, e: Event)
    requires s.conn.draining && Step(cfg, s, e).Running?
    ensures Step(cfg, s, e).state.conn.draining && |Step(cfg, s, e).state.tasks| == |s.tasks|
  {
    var c, mail := s.conn, s.mail;
    if e.PeerWindowUpdate? {
      WindowUpdateDraining(c, mail, e.id, e.amount);
    } else if e.TakeRequest? {
      RequestDraining(c, mail, s.requests[0]);
    }
  }

  predicate KeepsDraining(c: Conn, o: ConnOut) {
    o.Go? ==> o.conn.draining == c.draining
  }

  lemma DistributedDraining(c: Conn, mail: seq<Mail>, out: seq<WireFrame>)
    ensures KeepsDraining(c, Distributed(c, mail, out))
  {
    if Distribute(c, mail).Some? {
      DistributeOpen(c, mail);
    }
  }

  lemma AddGlobalDraining(c: Conn, mail: seq<Mail>, amount: i32)
    ensures KeepsDraining(c, AddGlobal(c, mail, amount))
  {
    if CheckedAdd(c.global, amount).Some? {
      DistributedDraining(c.(global := c.global + amount), mail, []);
    }
  }

  lemma WindowUpdateDraining(c: Conn, mail: seq<Mail>, id: u32, amount: i32)
    ensures KeepsDraining(c, OnWindowUpdate(c, mail, id, amount))
  {
    AddGlobalDraining(c, mail, amount);
    DistributedDraining(c, mail, []);
    if id in c.streams && id != 0 {
      var k := c.streams[id].task;
      var sent := Send(mail, k, WindowUpdate(amount));
      if sent.Some? {
        DistributedDraining(c, sent.value[k := NoteIncrement(sent.value[k], amount)], []);
      } else {
        var o := StreamFailed(c, mail, StreamError(StreamClosedError), id);
        DistributedDraining(o.conn, o.mail, o.out);
      }
    }
  }

  lemma RequestDraining(c: Conn, mail: seq<Mail>, r: ConnReq)
    ensures KeepsDraining(c, OnRequest(c, mail, r))
  {
    match r
    case GetWindow(id, amount) => DistributedDraining(c.(pending := c.pending + [(id, amount)]), mail, []);
    case PutWindow(amount) => AddGlobalDraining(c, mail, amount);
    case _ =>
  }

  /** Section 6.8 of RFC 7540: once a graceful shutdown began, no run opens another stream, and some stream is
      still open for as long as the loop goes on. */
  lemma {:induction false} DrainingOpensNothing(cfg: Config, events: seq<Event>, n: nat)
    requires cfg.globalWindow >= 0 && n <= |events| && Run(cfg, events).Some?
    requires Run(cfg, events[..n]).Some? && Run(cfg, events[..n]).value.conn.draining
    ensures Run(cfg, events).value.conn.draining && Run(cfg, events).value.conn.open > 0
    ensures |Run(cfg, events).value.tasks| == |Run(cfg, events[..n]).value.tasks|
    decreases |events|
  {
    CreditsHold(cfg, events);
    if n == |events| {
      assert events[..n] == events;
    } else {
      var before := events[..|events| - 1];
      assert before[..n] == events[..n];
      DrainingOpensNothing(cfg, before, n);
      DrainingStep(cfg, Run(cfg, before).value, events[|events| - 1]);
    }
  }

  /** The error code of GOAWAY after a closing: that of a connection error, none after a stream error. */
  function ClosingCode(id: u32, error: Option<H2Error>): ErrorCode {
    match error
    case None => NoError
    case Some(ConnectionError(code)) => code
    case Some(StreamError(_)) => if id == 0 then InternalError else NoError
  }

  /** The closing of the last stream ends a draining connection, with or without an error, and GOAWAY names the
      biggest stream id. */
  lemma LastCloseEndsLoop(cfg: Config, s: State, id: u32, error: Option<H2Error>)
    requires s.conn.draining && s.conn.open == 1
    requires s.requests != [] && s.requests[0] == StreamClosing(id, error)
    ensures Step(cfg, s, TakeRequest) == Ended(s.conn.biggest, ClosingCode(id, error))
  {
  }

  // ---------- single streams ----------

  /** The tasks of a state after a step: the same ids, and perhaps one more. */
  predicate IdsKept(s: State, s': State) {
    && |s.tasks| <= |s'.tasks| <= |s.tasks| + 1
    && forall j :: 0 <= j < |s.tasks| ==> s'.tasks[j].id == s.tasks[j].id
  }

  lemma TaskIdsStay(cfg: Config, s: State, e: Event)
    requires Step(cfg, s, e).Running?
    requires e.TaskReceive? || e.TaskCredit? || e.TaskRespond? || e.TaskChunk? || e.TaskFail? || e.TaskRun?
    ensures IdsKept(s, Step(cfg, s, e).state) && |Step(cfg, s, e).state.tasks| == |s.tasks|
  {
    if e.TaskRun? {
      RunIdStays(s, e.k);
    }
  }

  lemma RunIdStays(s: State, k: nat)
    requires k < |s.tasks| && RunTask(s, k).Running?
    ensures IdsKept(s, RunTask(s, k).state) && |RunTask(s, k).state.tasks| == |s.tasks|
  {
  }

  /** No step changes the id of a task; only HEADERS add one, for a new id or for one with a stored handle. */
  lemma IdsStay(cfg: Config, s: State, e: Event)
    requires WellFormed(s) && Step(cfg, s, e).Running?
    ensures var s' := Step(cfg, s, e).state;
            && IdsKept(s, s')
            && (|s'.tasks| > |s.tasks| ==>
                  && e.PeerHeaders? && s'.tasks[|s.tasks|].id == e.id
                  && (e.id in s.conn.streams || e.id > s.conn.biggest))
  {
    if e.PeerHeaders? && Spawned(s.mail, OnHeaders(cfg, s.conn, s.mail, e.id, e.parse)) {
      SpawnedState(cfg, s, e.id, e.parse, e.hasBody);
    } else if e.TaskReceive? || e.TaskCredit? || e.TaskRespond? || e.TaskChunk? || e.TaskFail? || e.TaskRun? {
      TaskIdsStay(cfg, s, e);
    }
  }

  lemma AloneAfter(s: State, s': State, k: nat)
    requires IdsKept(s, s') && k < |s.tasks| && Alone(s, k)
    ensures Alone(s', k) <==> !(|s'.tasks| > |s.tasks| && s'.tasks[|s.tasks|].id == s.tasks[k].id)
  {
  }

  /** What the guarantees below ask for, that a task is alone with its id, is lost in exactly one way: HEADERS come in
      for its id, while its handle or that of another task with its id is stored, and open another stream. */
  lemma AloneUntilReused(cfg: Config, s: State, e: Event, k: nat)
    requires cfg.globalWindow >= 0 && Reachable(cfg, s) && Step(cfg, s, e).Running?
    requires k < |s.tasks| && Alone(s, k)
    ensures k < |Step(cfg, s, e).state.tasks|
    ensures Alone(Step(cfg, s, e).state, k) <==>
              !(e.PeerHeaders? && e.id == s.tasks[k].id && |Step(cfg, s, e).state.tasks| > |s.tasks|)
    ensures !Alone(Step(cfg, s, e).state, k) ==> e.PeerHeaders? && e.id in s.conn.streams && e.id == s.tasks[k].id
  {
    StreamAt(cfg, s, k);
    IdsStay(cfg, s, e);
    AloneAfter(s, Step(cfg, s, e).state, k);
    BiggestId(cfg, s, k);
  }

  lemma BiggestId(cfg: Config, s: State, k: nat)
    requires cfg.globalWindow >= 0 && Reachable(cfg, s) && k < |s.tasks|
    ensures s.tasks[k].id <= s.conn.biggest
  {
    var events :| Run(cfg, events) == Some(s);
    RunsOk(cfg, events);
  }

  lemma StreamAt(cfg: Config, s: State, k: nat)
    requires cfg.globalWindow >= 0 && Reachable(cfg, s) && k < |s.tasks| && Alone(s, k)
    ensures WellFormed(s) && LocalOk(s.tasks[k]) && StreamOk(s, k)
  {
    var events :| Run(cfg, events) == Some(s);
    RunsOk(cfg, events);
  }

  /** No false stall: when a stream waits for window, and neither a request for window is on its way from it nor granted
      window to it, either its own window is used up or the global window is, whatever else is on its way. */
  lemma NoFalseStall(cfg: Config, s: State, k: nat)
    requires cfg.globalWindow >= 0 && Reachable(cfg, s)
    requires k < |s.tasks| && k < |s.mail| && Alone(s, k) && s.tasks[k].phase.Waiting?
    requires NothingComing(s, k)
    ensures s.tasks[k].window <= 0 || s.conn.global == 0
  {
    StreamAt(cfg, s, k);
    StallCause(s, k);
  }

  /** No GetWindow of the stream waits for the connection task, and no AvailableWindow for the stream task. */
  predicate NothingComing(s: State, k: nat)
    requires k < |s.tasks| && k < |s.mail|
  {
    && (forall r :: r in s.requests ==> !(r.GetWindow? && r.id == s.tasks[k].id))
    && (forall m :: m in s.mail[k].msgs ==> !m.AvailableWindow?)
  }

  lemma StallCause(s: State, k: nat)
    requires ConnOk(s.conn) && k < |s.tasks| && k < |s.mail| && LocalOk(s.tasks[k]) && StreamOk(s, k)
    requires s.tasks[k].phase.Waiting? && NothingComing(s, k)
    ensures s.tasks[k].window <= 0 || s.conn.global == 0
  {
    SumZero(s.requests, AskFor(s.tasks[k].id));
    SumZero(s.mail[k].msgs, WindowIn);
    if s.conn.global != 0 {
      assert s.conn.pending == [] && Owed(s.conn, s.mail[k], s.tasks[k].id) == 0;
    }
  }

  /** No lost reservation: inside the send loop the unsent bytes are what the task still wants to ask for, plus
      everything it asked for that is on its way; between chunks nothing is left over. */
  lemma NoLostReservation(cfg: Config, s: State, k: nat)
    requires cfg.globalWindow >= 0 && Reachable(cfg, s)
    requires k < |s.tasks| && Alone(s, k) && InMain(s.tasks[k])
    ensures k < |s.mail|
    ensures |s.tasks[k].buffer| == s.tasks[k].needed + Sum(s.requests, AskFor(s.tasks[k].id))
            + Sum(s.conn.pending, PendingFor(s.tasks[k].id)) + Sum(s.mail[k].msgs, WindowIn) + s.tasks[k].available
    ensures s.tasks[k].needed >= 0 && Sum(s.requests, AskFor(s.tasks[k].id)) >= 0
    ensures Sum(s.conn.pending, PendingFor(s.tasks[k].id)) >= 0 && Sum(s.mail[k].msgs, WindowIn) >= 0
    ensures 0 <= s.tasks[k].available <= MAX_CHUNK
    ensures s.tasks[k].phase.BodyIdle? ==> s.tasks[k].needed == 0 && InFlight(s, k) == 0 && s.tasks[k].available == 0
  {
    StreamAt(cfg, s, k);
    InFlightParts(s, k);
  }

  lemma InFlightParts(s: State, k: nat)
    requires WellFormed(s) && k < |s.tasks|
    ensures Sum(s.requests, AskFor(s.tasks[k].id)) >= 0
    ensures Sum(s.conn.pending, PendingFor(s.tasks[k].id)) >= 0 && Sum(s.mail[k].msgs, WindowIn) >= 0
    ensures s.tasks[k].available >= 0
  {
    SumNonNegative(s.requests, AskFor(s.tasks[k].id));
    SumNonNegative(s.conn.pending, PendingFor(s.tasks[k].id));
    SumNonNegative(s.mail[k].msgs, WindowIn);
    assert TaskOk(s.tasks[k]);
  }

  /** The peer's current initial window plus its increments for stream k. */
  function Limit(s: State, k: nat): int
    requires k < |s.mail|
  {
    s.conn.remote.initialWindowSize + s.mail[k].increments
  }

  /** The stream window once all changes on their way have arrived. */
  function WindowToCome(s: State, k: nat): int
    requires k < |s.tasks| && k < |s.mail|
  {
    s.tasks[k].window + Sum(s.mail[k].msgs, WindowChange)
  }

  /** Section 6.9.2 of RFC 7540: window left, changes on their way and everything ever asked for are the peer's
      current limit for the stream, across any SETTINGS. What is sent never exceeds what was asked for, nor the
      highest limit the peer ever gave the stream, which is the current one unless a change lowered it after the
      stream was opened. And it exceeds the current limit exactly when the window left does not cover, in its
      debt, what was asked for and is not sent yet. */
  lemma SentWithinLimit(cfg: Config, s: State, k: nat)
    requires cfg.globalWindow >= 0 && Reachable(cfg, s) && k < |s.tasks| && Alone(s, k)
    ensures k < |s.mail|
    ensures InMain(s.tasks[k]) ==> WindowToCome(s, k) + s.tasks[k].asked == Limit(s, k)
    ensures Sent(s.tasks[k]) <= s.tasks[k].asked <= s.mail[k].peak
    ensures Attached(s.tasks[k]) && !s.mail[k].lowered ==> s.mail[k].peak == Limit(s, k)
    ensures InMain(s.tasks[k]) ==> (s.tasks[k].asked <= Limit(s, k) <==> WindowToCome(s, k) >= 0)
    ensures InMain(s.tasks[k]) ==> (Sent(s.tasks[k]) <= Limit(s, k) <==> WindowToCome(s, k) + InFlight(s, k) >= 0)
  {
    StreamAt(cfg, s, k);
    if InMain(s.tasks[k]) {
      SentCovered(s, k);
    }
  }

  /** What was written for a stream is, in order, the beginning of what its task emitted. */
  lemma WrittenInOrder(cfg: Config, s: State, k: nat)
    requires cfg.globalWindow >= 0 && Reachable(cfg, s) && k < |s.tasks| && Alone(s, k)
    ensures FlatMap(s.wire, OnWire(s.tasks[k].id)) <= s.tasks[k].emitted
    ensures FlatMap(s.wire, OnWire(s.tasks[k].id)) + FlatMap(s.requests, CarriedFor(s.tasks[k].id))
         == s.tasks[k].emitted
  {
    StreamAt(cfg, s, k);
  }

  /** End to end: when the task of a stream returned without error and the connection has written what it was
      handed, the peer got one complete response with exactly the bytes the body reader produced. */
  lemma ResponseDelivered(cfg: Config, s: State, k: nat)
    requires cfg.globalWindow >= 0 && Reachable(cfg, s) && k < |s.tasks| && Alone(s, k)
    requires !InMain(s.tasks[k]) && ExitError(s.tasks[k]).None?
    requires FlatMap(s.requests, CarriedFor(s.tasks[k].id)) == []
    ensures CompleteResponse(s.tasks[k].id, FlatMap(s.wire, OnWire(s.tasks[k].id)), s.tasks[k].produced)
  {
    WrittenInOrder(cfg, s, k);
    StreamAt(cfg, s, k);
    var frames := FlatMap(s.wire, OnWire(s.tasks[k].id));
    assert frames + [] == frames;
  }
}
