/** When the connection goes on and when it ends: for every message from the peer and every request of a stream task the
    exact condition, and with which code; and what makes a stream task leave. */
module Guards {
  import opened Basics
  import opened H2Errors
  import opened H2Types
  import opened ConnSpec
  import opened StreamSpec
  import opened System
  import opened Seqs
  import opened Conservation
  import opened PerStream
  import opened TaskSteps
  import opened StreamRuns
  import opened FlowTheorems
  import opened WireRuns
  import Settings

  // ---------- distribute_window ----------

  /** A request that is reached while window is left, of a stream whose handle is stored but whose task is gone. */
  predicate Blocks(c: Conn, mail: seq<Mail>, n: nat)
    requires n < |c.pending|
  {
    Dead(c, mail, c.pending[n].0) && Sum(c.pending[..n], Taken(c.streams)) < c.global
  }

  predicate Blocked(c: Conn, mail: seq<Mail>) {
    exists n :: 0 <= n < |c.pending| && Blocks(c, mail, n)
  }

  /** Behind a first request that is served in full, or dropped, the same requests block. */
  lemma BlocksBehind(c: Conn, mail: seq<Mail>, c1: Conn, mail1: seq<Mail>, n: nat)
    requires c.pending != [] && n < |c1.pending| && c1.pending == c.pending[1..] && c1.streams == c.streams
    requires forall id :: Dead(c1, mail1, id) == Dead(c, mail, id)
    requires c1.global == c.global - Taken(c.streams)(c.pending[0])
    ensures Blocks(c1, mail1, n) <==> Blocks(c, mail, n + 1)
  {
    assert c.pending[..n + 1] == [c.pending[0]] + c1.pending[..n];
    SumAppend([c.pending[0]], c1.pending[..n], Taken(c.streams));
    SumOne(c.pending[0], Taken(c.streams));
  }

  lemma BlockedBehind(c: Conn, mail: seq<Mail>, c1: Conn, mail1: seq<Mail>)
    requires c.pending != [] && c1.pending == c.pending[1..] && c1.streams == c.streams
    requires forall id :: Dead(c1, mail1, id) == Dead(c, mail, id)
    requires c1.global == c.global - Taken(c.streams)(c.pending[0])
    requires !Dead(c, mail, c.pending[0].0)
    ensures Blocked(c1, mail1) <==> Blocked(c, mail)
  {
    if Blocked(c1, mail1) {
      var n :| 0 <= n < |c1.pending| && Blocks(c1, mail1, n);
      BlocksBehind(c, mail, c1, mail1, n);
      assert Blocks(c, mail, n + 1);
    }
    if Blocked(c, mail) {
      var n :| 0 <= n < |c.pending| && Blocks(c, mail, n);
      assert n > 0;
      BlocksBehind(c, mail, c1, mail1, n - 1);
    }
  }

  lemma TakesNothingBack(requests: seq<(u32, i32)>, streams: map<u32, Handle>)
    requires forall p :: p in requests ==> p.1 > 0
    ensures Sum(requests, Taken(streams)) >= 0
  {
    SumNonNegative(requests, Taken(streams));
  }

  /** Once the window is used up, or with nothing to serve, nothing blocks. */
  lemma NothingLeft(c: Conn, mail: seq<Mail>)
    requires forall p :: p in c.pending ==> p.1 > 0
    ensures c.global <= 0 || c.pending == [] ==> !Blocked(c, mail)
  {
    if Blocked(c, mail) {
      var n :| 0 <= n < |c.pending| && Blocks(c, mail, n);
      TakesNothingBack(c.pending[..n], c.streams);
    }
  }

  /** A first request that takes all the window is the last one looked at. */
  lemma FirstTakesAll(c: Conn, mail: seq<Mail>)
    requires Undistributed(c) && c.pending != [] && c.pending[0].0 in c.streams && c.pending[0].1 >= c.global
    requires !Dead(c, mail, c.pending[0].0)
    ensures !Blocked(c, mail)
  {
    if Blocked(c, mail) {
      var n :| 0 <= n < |c.pending| && Blocks(c, mail, n);
      assert c.pending[..n] == [c.pending[0]] + c.pending[1..n];
      SumAppend([c.pending[0]], c.pending[1..n], Taken(c.streams));
      SumOne(c.pending[0], Taken(c.streams));
      TakesNothingBack(c.pending[1..n], c.streams);
    }
  }

  lemma DeadStays(c: Conn, mail: seq<Mail>, k: nat, m: StreamReq, id: u32)
    requires k < |mail|
    ensures Dead(c, mail[k := mail[k].Push(m)], id) == Dead(c, mail, id)
  {
  }

  /** One round in which the first request is neither refused nor the last one. */
  lemma RoundBlocks(c: Conn, mail: seq<Mail>)
    requires Undistributed(c) && c.global > 0 && c.pending != [] && !Dead(c, mail, c.pending[0].0)
    requires c.pending[0].0 in c.streams ==> c.pending[0].1 < c.global
    ensures ServeHead(c, mail).Some?
    ensures var (c1, mail1) := ServeHead(c, mail).value;
            Undistributed(c1) && (Blocked(c1, mail1) <==> Blocked(c, mail))
  {
    var (id, want) := c.pending[0];
    assert c.pending[0] in c.pending;
    var (c1, mail1) := ServeHead(c, mail).value;
    if id in c.streams {
      forall j
        ensures Dead(c1, mail1, j) == Dead(c, mail, j)
      {
        DeadStays(c, mail, c.streams[id].task, AvailableWindow(want), j);
      }
    }
    BlockedBehind(c, mail, c1, mail1);
  }

  /** `distribute_window` fails if and only if it reaches, with window left, a request of a stream whose task is gone.
      */
  lemma {:induction false} DistributeFails(c: Conn, mail: seq<Mail>)
    requires Undistributed(c)
    ensures Distribute(c, mail).None? <==> Blocked(c, mail)
    decreases |c.pending|
  {
    if c.global <= 0 || c.pending == [] {
      NothingLeft(c, mail);
    } else if Dead(c, mail, c.pending[0].0) {
      assert c.pending[0] in c.pending;
      assert c.pending[..0] == [];
      assert Blocks(c, mail, 0);
    } else if c.pending[0].0 in c.streams && c.pending[0].1 >= c.global {
      FirstTakesAll(c, mail);
    } else {
      RoundBlocks(c, mail);
      var (c1, mail1) := ServeHead(c, mail).value;
      DistributeFails(c1, mail1);
    }
  }

  // ---------- requests of the stream tasks ----------

  lemma ReachableShape(cfg: Config, s: State)
    requires cfg.globalWindow >= 0 && Reachable(cfg, s)
    ensures WellFormed(s)
    ensures s.requests != [] && s.requests[0].StreamClosing? ==> s.conn.open > 0
    ensures forall r :: r in s.requests ==> ReqOk(r)
  {
    ReachableOk(cfg, s);
    OpenStreamsCounted(cfg, s);
  }

  lemma SinglePending(c: Conn, mail: seq<Mail>, id: u32, amount: i32)
    requires c.pending == [(id, amount)]
    ensures Blocked(c, mail) <==> c.global > 0 && Dead(c, mail, id)
  {
    assert c.pending[..0] == [];
    if c.global > 0 && Dead(c, mail, id) {
      assert Blocks(c, mail, 0);
    }
  }

  /** A request for window is served or put on the list, unless window is left and the task that asked is gone by now.
      */
  lemma GetWindowServed(cfg: Config, s: State, id: u32, amount: i32)
    requires cfg.globalWindow >= 0 && Reachable(cfg, s) && s.requests != [] && s.requests[0] == GetWindow(id, amount)
    ensures Step(cfg, s, TakeRequest).Running? <==> !(s.conn.global > 0 && Dead(s.conn, s.mail, id))
    ensures !Step(cfg, s, TakeRequest).Running? ==> Step(cfg, s, TakeRequest) == Ended(s.conn.biggest, InternalError)
  {
    ReachableShape(cfg, s);
    assert ReqOk(s.requests[0]);
    var c := s.conn.(pending := s.conn.pending + [(id, amount)]);
    DistributeFails(c, s.mail);
    if s.conn.global > 0 {
      SinglePending(c, s.mail, id, amount);
    } else {
      NothingLeft(c, s.mail);
    }
  }

  /** The window overflows, or reaches such a request. */
  predicate AddsNoMore(c: Conn, mail: seq<Mail>, amount: i32)
    requires c.global >= 0 && amount >= 0
  {
    c.global + amount > I32_MAX || Blocked(c.(global := c.global + amount), mail)
  }

  /** Window that comes back is accepted, unless the sum overflows or it reaches a request of a task that is gone. */
  lemma PutWindowServed(cfg: Config, s: State, amount: i32)
    requires cfg.globalWindow >= 0 && Reachable(cfg, s) && s.requests != [] && s.requests[0] == PutWindow(amount)
    ensures s.conn.global >= 0 && amount > 0
    ensures Step(cfg, s, TakeRequest).Running? <==> !AddsNoMore(s.conn, s.mail, amount)
    ensures !Step(cfg, s, TakeRequest).Running? ==> Step(cfg, s, TakeRequest) == Ended(s.conn.biggest, InternalError)
  {
    ReachableShape(cfg, s);
    assert ReqOk(s.requests[0]);
    AddGlobalFails(s.conn, s.mail, amount);
  }

  lemma AddGlobalFails(c: Conn, mail: seq<Mail>, amount: i32)
    requires ConnOk(c) && amount >= 0
    ensures AddsNoMore(c, mail, amount) ==> AddGlobal(c, mail, amount) == Halt(c.biggest, InternalError)
    ensures !AddsNoMore(c, mail, amount) ==> AddGlobal(c, mail, amount).Go?
  {
    if c.global + amount <= I32_MAX {
      DistributeFails(c.(global := c.global + amount), mail);
    }
  }

  /** A closing ends the connection if it carries a connection error, or is the last one of a draining connection. */
  lemma ClosingServed(cfg: Config, s: State, id: u32, error: Option<H2Error>)
    requires cfg.globalWindow >= 0 && Reachable(cfg, s) && s.requests != []
    requires s.requests[0] == StreamClosing(id, error) && id != 0
    ensures var o := Step(cfg, s, TakeRequest);
            if error.Some? && error.value.ConnectionError? then o == Ended(s.conn.biggest, error.value.code)
            else if s.conn.draining && s.conn.open == 1 then o == Ended(s.conn.biggest, NoError)
            else
              && o.Running? && o.state.conn.open == s.conn.open - 1
              && (id in o.state.conn.streams ==> o.state.conn.streams[id].closed)
  {
    ReachableShape(cfg, s);
  }

  /** Frames, credits and the last message of a task never end the connection; the last message removes the handle. */
  lemma OthersServed(cfg: Config, s: State)
    requires cfg.globalWindow >= 0 && Reachable(cfg, s) && s.requests != []
    requires var r := s.requests[0]; r.Frame? || r.Response? || r.UpdatePeerWindow? || r.StreamClosed?
    ensures Step(cfg, s, TakeRequest).Running?
    ensures s.requests[0].StreamClosed? ==>
              Step(cfg, s, TakeRequest).state.conn.streams == s.conn.streams - {s.requests[0].id}
  {
    if s.requests[0].UpdatePeerWindow? {
      CreditNeverOverflows(cfg, s);
    }
  }

  /** A connection starts with the window of section 6.9.2 of RFC 7540 to send, the configured one to receive, the
      default settings, and nothing else. */
  lemma StartsEmpty(cfg: Config)
    ensures var s := Run(cfg, []).value;
            && s.conn.global == 65_535 && s.conn.peer == cfg.globalWindow && s.conn.remote == Settings.DEFAULT
            && s.conn.streams == map[] && s.conn.biggest == 0 && s.conn.open == 0 && s.conn.pending == []
            && !s.conn.draining && s.tasks == [] && s.mail == [] && s.requests == [] && s.wire == []
  {
  }

  // ---------- messages of the peer ----------

  /** Section 5.1.1 of RFC 7540: an odd id, known or above all others. */
  predicate Openable(c: Conn, id: u32) {
    id % 2 == 1 && (id in c.streams || id > c.biggest)
  }

  /** HEADERS open a stream if and only if the id may be opened, a request was read, and there is room; the new task
      starts with the windows announced by both sides, and an empty mailbox. */
  lemma HeadersOpen(cfg: Config, s: State, id: u32, parse: HeaderParse, hasBody: bool)
    requires cfg.globalWindow >= 0 && Reachable(cfg, s)
    ensures var o := Step(cfg, s, PeerHeaders(id, parse, hasBody));
            (o.Running? && |o.state.tasks| > |s.tasks|) <==>
              && Openable(s.conn, id) && parse.Parsed? && !Refuses(cfg, s.conn)
              && cfg.localInitialWindow <= I32_MAX && s.conn.open + 1 < U32_LIMIT
    ensures var o := Step(cfg, s, PeerHeaders(id, parse, hasBody));
            o.Running? && |o.state.tasks| > |s.tasks| ==>
              var window := s.conn.remote.initialWindowSize;
              && cfg.localInitialWindow <= I32_MAX && window <= I32_MAX
              && o.state.tasks == s.tasks + [NewTask(id, window, cfg.localInitialWindow, hasBody)]
              && o.state.mail == s.mail + [NewMail(window)]
              && o.state.conn.streams == s.conn.streams[id := Handle(|s.tasks|, false)]
              && o.state.conn.open == s.conn.open + 1
              && o.state.conn.biggest == Max(id, s.conn.biggest)
  {
    ReachableShape(cfg, s);
    if Spawned(s.mail, OnHeaders(cfg, s.conn, s.mail, id, parse)) {
      SpawnedState(cfg, s, id, parse, hasBody);
    }
  }

  /** HEADERS with an id that may not be opened end the connection, as does a broken header block. */
  lemma HeadersEnd(cfg: Config, s: State, id: u32, parse: HeaderParse, hasBody: bool)
    requires cfg.globalWindow >= 0 && Reachable(cfg, s) && (!Openable(s.conn, id) || parse.Broken?)
    ensures Step(cfg, s, PeerHeaders(id, parse, hasBody))
         == Ended(s.conn.biggest, if !Openable(s.conn, id) then ProtocolError else parse.error.code)
  {
    ReachableShape(cfg, s);
  }

  /** HEADERS that are not taken, or hold no request, open no stream; only a connection error in the block ends the
      connection, unless no stream would have been taken anyway. */
  lemma HeadersRefused(cfg: Config, s: State, id: u32, parse: HeaderParse, hasBody: bool)
    requires cfg.globalWindow >= 0 && Reachable(cfg, s) && Openable(s.conn, id) && !parse.Broken?
    requires Refuses(cfg, s.conn) || parse.Refused?
    ensures var o := Step(cfg, s, PeerHeaders(id, parse, hasBody));
            if !Refuses(cfg, s.conn) && parse.error.ConnectionError? then o == Ended(s.conn.biggest, parse.error.code)
            else o.Running? && o.state.tasks == s.tasks
  {
  }

  /** A stream that would be opened but cannot be counted, or whose window does not fit, ends the connection. */
  lemma HeadersNoRoom(cfg: Config, s: State, id: u32, hasBody: bool)
    requires cfg.globalWindow >= 0 && Reachable(cfg, s) && Openable(s.conn, id) && !Refuses(cfg, s.conn)
    requires cfg.localInitialWindow > I32_MAX || s.conn.open + 1 >= U32_LIMIT
    ensures Step(cfg, s, PeerHeaders(id, Parsed, hasBody))
         == if cfg.localInitialWindow > I32_MAX then Ended(s.conn.biggest, ProtocolError)
            else Ended(Max(id, s.conn.biggest), InternalError)
  {
    ReachableShape(cfg, s);
  }

  /** DATA are taken if and only if the stream is open at both ends and they fit the window of the connection; they are
      then the last message to the task. */
  lemma DataTaken(cfg: Config, s: State, id: u32, data: seq<byte>)
    requires cfg.globalWindow >= 0 && Reachable(cfg, s)
    ensures var o := Step(cfg, s, PeerData(id, data));
            if id !in s.conn.streams || |data| > I32_MAX then o == Ended(s.conn.biggest, ProtocolError)
            else if |data| > s.conn.peer then o == Ended(s.conn.biggest, FlowControlError)
            else if Dead(s.conn, s.mail, id) then o == Ended(s.conn.biggest, StreamClosedError)
            else
              var k := s.conn.streams[id].task;
              && o.Running?
              && o.state.mail == s.mail[k := s.mail[k].(msgs := s.mail[k].msgs + [RequestBody(data)])]
  {
    ReachableShape(cfg, s);
  }

  /** A frame size or a window that section 6.5.2 of RFC 7540 does not allow. */
  predicate BadSize(frame: Settings.SettingsFrame) {
    frame.maxFrameSize.Some? && !(16_384 <= frame.maxFrameSize.value <= 16_777_215)
  }

  predicate BadWindow(frame: Settings.SettingsFrame) {
    frame.initialWindowSize.Some? && frame.initialWindowSize.value > 0x7fff_ffff
  }

  /** SETTINGS with such a value end the connection. */
  lemma SettingsRefused(cfg: Config, s: State, frame: Settings.SettingsFrame)
    requires cfg.globalWindow >= 0 && Reachable(cfg, s) && (BadSize(frame) || BadWindow(frame))
    ensures Step(cfg, s, PeerSettings(frame))
         == Ended(s.conn.biggest, if BadSize(frame) then ProtocolError else FlowControlError)
  {
    ReachableShape(cfg, s);
    Settings.FieldByField(s.conn.remote, frame);
  }

  /** So do SETTINGS while the handle of a task that is gone is stored. */
  lemma SettingsForDead(cfg: Config, s: State, frame: Settings.SettingsFrame, id: u32)
    requires cfg.globalWindow >= 0 && Reachable(cfg, s) && !BadSize(frame) && !BadWindow(frame)
    requires Dead(s.conn, s.mail, id)
    ensures Step(cfg, s, PeerSettings(frame)) == Ended(s.conn.biggest, StreamClosedError)
  {
    ReachableShape(cfg, s);
    Settings.FieldByField(s.conn.remote, frame);
    assert s.conn.streams[id].task in Targets(s.conn.streams);
  }

  /** All others are taken: the fields of the frame change, and each task is told the change of its window. */
  lemma SettingsTaken(cfg: Config, s: State, frame: Settings.SettingsFrame)
    requires cfg.globalWindow >= 0 && Reachable(cfg, s) && !BadSize(frame) && !BadWindow(frame)
    requires forall id :: !Dead(s.conn, s.mail, id)
    ensures var o := Step(cfg, s, PeerSettings(frame));
            o.Running? && SettingsSeen(s.conn, s.mail, frame, o.state.conn, o.state.mail)
  {
    ReachableShape(cfg, s);
    SettingsGood(s.conn, s.mail, frame);
    SettingsStep(cfg, s, frame, OnSettings(s.conn, s.mail, frame));
  }

  lemma SettingsStep(cfg: Config, s: State, frame: Settings.SettingsFrame, o: ConnOut)
    requires o == OnSettings(s.conn, s.mail, frame) && o.Go?
    ensures Step(cfg, s, PeerSettings(frame))
         == Running(s.(conn := o.conn, mail := o.mail, wire := s.wire + o.out))
  {
    assert s.tasks + [] == s.tasks;
  }

  lemma SettingsGood(c: Conn, mail: seq<Mail>, frame: Settings.SettingsFrame)
    requires Settings.InRange(c.remote) && !BadSize(frame) && !BadWindow(frame)
    requires forall id :: !Dead(c, mail, id)
    ensures OnSettings(c, mail, frame).Go?
    ensures var o := OnSettings(c, mail, frame); SettingsSeen(c, mail, frame, o.conn, o.mail)
  {
    Settings.FieldByField(c.remote, frame);
    AllAlive(c, mail);
    BroadcastTold(c, mail, Settings.Apply(c.remote, frame).1.value);
  }

  lemma AllAlive(c: Conn, mail: seq<Mail>)
    requires forall id :: !Dead(c, mail, id)
    ensures forall k :: k in Targets(c.streams) ==> k < |mail| && mail[k].open
  {
    forall k | k in Targets(c.streams)
      ensures k < |mail| && mail[k].open
    {
      var id :| id in c.streams && c.streams[id].task == k;
      assert !Dead(c, mail, id);
    }
  }

  predicate SettingsSeen(c: Conn, mail: seq<Mail>, frame: Settings.SettingsFrame, c': Conn, mail': seq<Mail>) {
    var change := c'.remote.initialWindowSize - c.remote.initialWindowSize;
    && Settings.Changed(c.remote, frame, c'.remote)
    && I32_MIN <= change <= I32_MAX && Told(c, mail, mail', change)
  }

  /** The change of the initial window is the last message to exactly the tasks with a stored handle. */
  predicate Told(c: Conn, mail: seq<Mail>, mail': seq<Mail>, change: i32) {
    && |mail'| == |mail|
    && forall k :: 0 <= k < |mail| ==>
         mail'[k].msgs == mail[k].msgs + if k in Targets(c.streams) then [WindowUpdate(change)] else []
  }

  lemma BroadcastTold(c: Conn, mail: seq<Mail>, change: i32)
    ensures Told(c, mail, Broadcast(mail, Targets(c.streams), WindowUpdate(change)), change)
  {
  }

  /** WINDOW_UPDATE on stream 0 is accepted unless the sum overflows or the window reaches a request of a task that is
      gone. */
  lemma GlobalUpdateTaken(cfg: Config, s: State, amount: i32)
    requires cfg.globalWindow >= 0 && Reachable(cfg, s) && amount >= 0
    ensures s.conn.global >= 0
    ensures var o := Step(cfg, s, PeerWindowUpdate(0, amount));
            if AddsNoMore(s.conn, s.mail, amount) then o == Ended(s.conn.biggest, InternalError) else o.Running?
  {
    ReachableShape(cfg, s);
    AddGlobalFails(s.conn, s.mail, amount);
    GlobalUpdateStep(cfg, s, amount, AddGlobal(s.conn, s.mail, amount));
  }

  lemma GlobalUpdateStep(cfg: Config, s: State, amount: i32, o: ConnOut)
    requires amount >= 0 && o == AddGlobal(s.conn, s.mail, amount)
    ensures o.Halt? ==> Step(cfg, s, PeerWindowUpdate(0, amount)) == Ended(o.lastStream, o.code)
    ensures o.Go? ==> Step(cfg, s, PeerWindowUpdate(0, amount)).Running?
  {
  }

  /** WINDOW_UPDATE for a stream is always accepted, and a running task is told. */
  lemma StreamUpdateTaken(cfg: Config, s: State, id: u32, amount: i32)
    requires cfg.globalWindow >= 0 && Reachable(cfg, s) && amount >= 0 && id != 0
    ensures var o := Step(cfg, s, PeerWindowUpdate(id, amount)); o.Running? && UpdateTold(s, id, amount, o.state)
  {
    ReachableShape(cfg, s);
    StreamUpdated(s, id, amount);
  }

  predicate UpdateTold(s: State, id: u32, amount: i32, s': State) {
    if id !in s.conn.streams || Dead(s.conn, s.mail, id) then s'.mail == s.mail
    else
      var k := s.conn.streams[id].task;
      && |s'.mail| == |s.mail| && k < |s.mail| && s'.mail[k].msgs == s.mail[k].msgs + [WindowUpdate(amount)]
      && forall j :: 0 <= j < |s.mail| && j != k ==> s'.mail[j] == s.mail[j]
  }

  /** With no request waiting, or no window left, nothing is handed out. */
  lemma StreamUpdated(s: State, id: u32, amount: i32)
    requires ConnOk(s.conn) && id != 0
    ensures var o := OnWindowUpdate(s.conn, s.mail, id, amount);
            o.Go? && UpdateTold(s, id, amount, s.(conn := o.conn, mail := o.mail))
  {
  }

  /** The shutdown signal ends an idle connection, and any other goes on draining. */
  lemma ShutdownTaken(cfg: Config, s: State)
    ensures var o := Step(cfg, s, Shutdown);
            if s.conn.open == 0 then o == Ended(s.conn.biggest, NoError) else o.Running? && o.state.conn.draining
  {
  }
}
