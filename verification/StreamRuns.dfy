/** Invariants of single streams over every run: reserved window, window limit, frames in order. They hold of each
    task that is alone with its id, whatever happens to other ids. Plus the ids of streams, without any proviso. */
module StreamRuns {
  import opened Basics
  import opened H2Errors
  import opened H2Types
  import opened ConnSpec
  import opened StreamSpec
  import opened System
  import opened Seqs
  import opened Conservation
  import opened PerStream
  import opened TaskSteps
  import Settings

  /** The response frame of stream i in what is written to the peer. */
  function Seen1(f: WireFrame, i: u32): seq<WireFrame> {
    if (f.WHeaders? || f.WData?) && f.id == i then [f] else []
  }

  function OnWire(i: u32): WireFrame -> seq<WireFrame> {
    (f: WireFrame) => Seen1(f, i)
  }

  predicate NamesBelow(r: ConnReq, bound: u32) {
    r.Frame? || r.Response? || r.GetWindow? || r.StreamClosed? ==> r.id <= bound
  }

  predicate PendingBelow(c: Conn) {
    forall p :: p in c.pending ==> p.0 <= c.biggest
  }

  /** Stream ids: odd, at most `biggest`, which is one of them; and nothing names a stream not opened yet. */
  predicate IdsOk(s: State) {
    && (forall k :: 0 <= k < |s.tasks| ==> s.tasks[k].id % 2 == 1 && s.tasks[k].id <= s.conn.biggest)
    && (s.tasks == [] ==> s.conn.biggest == 0)
    && (s.tasks != [] ==> exists k :: 0 <= k < |s.tasks| && s.tasks[k].id == s.conn.biggest)
    && (!s.reopened ==> forall j, k :: 0 <= j < k < |s.tasks| ==> s.tasks[j].id < s.tasks[k].id)
    && (s.reopened ==> exists j, k :: 0 <= j < k < |s.tasks| && s.tasks[j].id == s.tasks[k].id)
    && (forall r :: r in s.requests ==> NamesBelow(r, s.conn.biggest))
    && (forall f :: f in s.wire ==> (f.WHeaders? || f.WData? ==> f.id <= s.conn.biggest))
    && PendingBelow(s.conn)
  }

  predicate LocalsOk(s: State) {
    forall k :: 0 <= k < |s.tasks| ==> LocalOk(s.tasks[k])
  }

  /** Window stream k asked for and is still to get or to spend, wherever it is. */
  function InFlight(s: State, k: nat): int
    requires k < |s.tasks| && k < |s.mail|
  {
    Sum(s.requests, AskFor(s.tasks[k].id)) + Owed(s.conn, s.mail[k], s.tasks[k].id) + s.tasks[k].available
  }

  function Sent(t: Task): int {
    |Payload(t.emitted)|
  }

  predicate StreamOk(s: State, k: nat)
    requires k < |s.tasks| && k < |s.mail|
  {
    var t := s.tasks[k];
    var m := s.mail[k];
    && CountOk(t)
    && (Attached(t) ==>
          && Live(s.conn, t.id, k)
          && StreamClosed(t.id) !in s.requests
          && m.limit == s.conn.remote.initialWindowSize + m.increments
          && PeakOk(m))
    && (InMain(t) ==> |t.buffer| == t.needed + InFlight(s, k))
    && (InMain(t) ==> t.window + t.asked == Seen(m))
    && FlatMap(s.wire, OnWire(t.id)) + FlatMap(s.requests, CarriedFor(t.id)) == t.emitted
    && Sent(t) <= t.asked <= m.peak
  }

  /** No other task has the id of task k: HEADERS never reused it. */
  predicate Alone(s: State, k: nat)
    requires k < |s.tasks|
  {
    forall j :: 0 <= j < |s.tasks| && j != k ==> s.tasks[j].id != s.tasks[k].id
  }

  predicate StreamsOk(s: State) {
    |s.mail| == |s.tasks| && forall k :: 0 <= k < |s.tasks| && Alone(s, k) ==> StreamOk(s, k)
  }

  predicate RunOk(s: State) {
    && WellFormed(s)
    && IdsOk(s)
    && LocalsOk(s)
    && StreamsOk(s)
  }

  predicate SameTaskIds(s: State, s': State) {
    |s'.tasks| == |s.tasks| && forall j :: 0 <= j < |s.tasks| ==> s'.tasks[j].id == s.tasks[j].id
  }

  lemma SameAlone(s: State, s': State, k: nat)
    requires SameTaskIds(s, s') && k < |s.tasks|
    ensures Alone(s', k) == Alone(s, k)
  {
    assert forall j :: 0 <= j < |s.tasks| ==> s'.tasks[j].id == s.tasks[j].id;
  }

  // ---------- a step of a stream task ----------

  lemma {:induction false} NotForOthers(out: seq<ConnReq>, id: u32, j: u32)
    requires forall r :: r in out ==> (r.Frame? || r.Response? || r.GetWindow? ==> r.id == id)
    requires id != j
    ensures Sum(out, AskFor(j)) == 0 && FlatMap(out, CarriedFor(j)) == []
  {
    if out != [] {
      NotForOthers(out[1..], id, j);
    }
  }

  /** In `main` of a task, what was sent is covered by what was asked for. */
  lemma SentCovered(s: State, k: nat)
    requires WellFormed(s) && k < |s.tasks| && LocalOk(s.tasks[k]) && CountOk(s.tasks[k]) && InMain(s.tasks[k])
    requires |s.tasks[k].buffer| == s.tasks[k].needed + InFlight(s, k)
    ensures Sent(s.tasks[k]) == s.tasks[k].asked - InFlight(s, k)
    ensures InFlight(s, k) >= 0
  {
    var t := s.tasks[k];
    SumNonNegative(s.requests, AskFor(t.id));
    SumNonNegative(s.conn.pending, PendingFor(t.id));
    SumNonNegative(s.mail[k].msgs, WindowIn);
    if !t.phase.Handling? {
      assert t.emitted == [t.emitted[0]] + t.emitted[1..];
      FlatMapAppend([t.emitted[0]], t.emitted[1..], DataOf);
      FlatMapOne(t.emitted[0], DataOf);
      assert Payload(t.emitted) == Payload(t.emitted[1..]);
    }
  }

  predicate SameLimit(m: Mail, m': Mail) {
    m'.limit == m.limit && m'.peak == m.peak && m'.increments == m.increments && (PeakOk(m) ==> PeakOk(m'))
  }

  lemma OtherStreams(s: State, k: nat, mail: Mail, o: TaskOut, j: nat)
    requires RunOk(s) && k < |s.tasks| && j < |s.tasks| && j != k && Alone(s, j)
    requires OwnRequests(s.tasks[k].id, o) && o.task.id == s.tasks[k].id
    ensures StreamOk(TaskMove(s.(mail := s.mail[k := mail]), k, o), j)
  {
    var id := s.tasks[j].id;
    assert StreamOk(s, j);
    assert id != s.tasks[k].id;
    SumAppend(s.requests, o.out, AskFor(id));
    FlatMapAppend(s.requests, o.out, CarriedFor(id));
    NotForOthers(o.out, s.tasks[k].id, id);
  }

  lemma FramesQueued(wire: seq<WireFrame>, requests: seq<ConnReq>, out: seq<ConnReq>, id: u32)
    ensures FlatMap(wire, OnWire(id)) + FlatMap(requests + out, CarriedFor(id))
         == FlatMap(wire, OnWire(id)) + FlatMap(requests, CarriedFor(id)) + FlatMap(out, CarriedFor(id))
  {
    FlatMapAppend(requests, out, CarriedFor(id));
  }

  /** The count, the reservation and the limit of the stream whose task moved. */
  lemma OwnLedger(s: State, k: nat, mail: Mail, o: TaskOut)
    requires RunOk(s) && k < |s.tasks| && Alone(s, k)
    requires TaskEffect(s.tasks[k], s.mail[k], o, mail)
    ensures var s' := TaskMove(s.(mail := s.mail[k := mail]), k, o);
            && CountOk(o.task)
            && (InMain(o.task) ==> |o.task.buffer| == o.task.needed + InFlight(s', k))
            && (InMain(o.task) ==> o.task.window + o.task.asked == Seen(mail))
  {
    var t := s.tasks[k];
    assert StreamOk(s, k);
    SumAppend(s.requests, o.out, AskFor(t.id));
    if InMain(t) {
      SentCovered(s, k);
    }
  }

  /** What was sent stays covered by what was asked for, and that by the highest limit. */
  lemma OwnSent(s: State, k: nat, mail: Mail, o: TaskOut)
    requires RunOk(s) && k < |s.tasks| && Alone(s, k)
    requires TaskEffect(s.tasks[k], s.mail[k], o, mail) && SameLimit(s.mail[k], mail)
    requires LocalOk(o.task) && WellFormed(TaskMove(s.(mail := s.mail[k := mail]), k, o))
    ensures Sent(o.task) <= o.task.asked <= mail.peak
  {
    var t := s.tasks[k];
    assert StreamOk(s, k);
    OwnLedger(s, k, mail, o);
    if InMain(t) {
      assert t.asked + t.window <= s.mail[k].peak;
    }
    if InMain(o.task) {
      SentCovered(TaskMove(s.(mail := s.mail[k := mail]), k, o), k);
    }
  }

  lemma OwnStream(s: State, k: nat, mail: Mail, o: TaskOut)
    requires RunOk(s) && k < |s.tasks| && Alone(s, k)
    requires TaskEffect(s.tasks[k], s.mail[k], o, mail) && SameLimit(s.mail[k], mail)
    requires LocalOk(o.task) && WellFormed(TaskMove(s.(mail := s.mail[k := mail]), k, o))
    ensures StreamOk(TaskMove(s.(mail := s.mail[k := mail]), k, o), k)
  {
    assert StreamOk(s, k);
    FramesQueued(s.wire, s.requests, o.out, s.tasks[k].id);
    OwnLedger(s, k, mail, o);
    OwnSent(s, k, mail, o);
  }

  lemma TaskMoveIds(s: State, s': State, k: nat, o: TaskOut)
    requires IdsOk(s) && k < |s.tasks| && o.task.id == s.tasks[k].id && OwnRequests(o.task.id, o)
    requires s'.tasks == s.tasks[k := o.task] && s'.requests == s.requests + o.out
    requires s'.conn == s.conn && s'.wire == s.wire && s'.reopened == s.reopened
    ensures IdsOk(s')
  {
    assert forall j :: 0 <= j < |s.tasks| ==> s'.tasks[j].id == s.tasks[j].id;
  }

  lemma TaskMoveStreams(s: State, k: nat, mail: Mail, o: TaskOut)
    requires RunOk(s) && k < |s.tasks|
    requires Alone(s, k) ==> TaskEffect(s.tasks[k], s.mail[k], o, mail)
    requires OwnRequests(s.tasks[k].id, o) && o.task.id == s.tasks[k].id && SameLimit(s.mail[k], mail)
    requires LocalOk(o.task) && WellFormed(TaskMove(s.(mail := s.mail[k := mail]), k, o))
    ensures StreamsOk(TaskMove(s.(mail := s.mail[k := mail]), k, o))
  {
    var s' := TaskMove(s.(mail := s.mail[k := mail]), k, o);
    forall j | 0 <= j < |s.tasks| && Alone(s', j)
      ensures StreamOk(s', j)
    {
      SameAlone(s, s', j);
      if j == k {
        OwnStream(s, k, mail, o);
      } else {
        OtherStreams(s, k, mail, o, j);
      }
    }
  }

  lemma TaskMoveRuns(s: State, k: nat, mail: Mail, o: TaskOut)
    requires RunOk(s) && k < |s.tasks|
    requires Alone(s, k) ==> TaskEffect(s.tasks[k], s.mail[k], o, mail)
    requires OwnRequests(s.tasks[k].id, o) && o.task.id == s.tasks[k].id
    requires SameLimit(s.mail[k], mail)
    requires LocalOk(o.task) && WellFormed(TaskMove(s.(mail := s.mail[k := mail]), k, o))
    ensures RunOk(TaskMove(s.(mail := s.mail[k := mail]), k, o))
  {
    TaskMoveIds(s, TaskMove(s.(mail := s.mail[k := mail]), k, o), k, o);
    TaskMoveStreams(s, k, mail, o);
  }

  // ---------- a step of the connection task ----------

  predicate ControlOnly(out: seq<WireFrame>) {
    forall f :: f in out ==> !f.WHeaders? && !f.WData?
  }

  lemma {:induction false} ControlOnlyNoFrames(out: seq<WireFrame>, i: u32)
    requires ControlOnly(out)
    ensures FlatMap(out, OnWire(i)) == []
  {
    if out != [] {
      ControlOnlyNoFrames(out[1..], i);
    }
  }

  /** The arm writes control frames only, opens nothing, and its pending list names opened streams. */
  predicate Plain(c: Conn, o: ConnOut) {
    o.Go? ==> ControlOnly(o.out) && o.conn.biggest == c.biggest && PendingBelow(o.conn)
  }

  lemma {:induction false} DistributePlain(c: Conn, mail: seq<Mail>)
    requires PendingBelow(c) && Distribute(c, mail).Some?
    ensures PendingBelow(Distribute(c, mail).value.0) && Distribute(c, mail).value.0.biggest == c.biggest
    decreases |c.pending|, if c.global > 0 then 1 else 0
  {
    if c.global > 0 && c.pending != [] {
      var (c1, mail1) := ServeHead(c, mail).value;
      assert c.pending[0] in c.pending;
      DistributePlain(c1, mail1);
    }
  }

  lemma DistributedPlain(c: Conn, mail: seq<Mail>, out: seq<WireFrame>)
    requires PendingBelow(c) && ControlOnly(out)
    ensures Plain(c, Distributed(c, mail, out))
  {
    if Distribute(c, mail).Some? {
      DistributePlain(c, mail);
    }
  }

  lemma AddGlobalPlain(c: Conn, mail: seq<Mail>, amount: i32)
    requires PendingBelow(c)
    ensures Plain(c, AddGlobal(c, mail, amount))
  {
    if CheckedAdd(c.global, amount).Some? {
      DistributedPlain(c.(global := c.global + amount), mail, []);
    }
  }

  lemma OnWindowUpdatePlain(c: Conn, mail: seq<Mail>, id: u32, amount: i32)
    requires PendingBelow(c)
    ensures Plain(c, OnWindowUpdate(c, mail, id, amount))
  {
    if id == 0 {
      AddGlobalPlain(c, mail, amount);
    } else if id !in c.streams {
      DistributedPlain(c, mail, []);
    } else {
      var k := c.streams[id].task;
      var sent := Send(mail, k, WindowUpdate(amount));
      if sent.Some? {
        DistributedPlain(c, sent.value[k := NoteIncrement(sent.value[k], amount)], []);
      } else {
        var o := StreamFailed(c, mail, StreamError(StreamClosedError), id);
        DistributedPlain(o.conn, o.mail, o.out);
      }
    }
  }

  /** How a request is written: the frame it carries, or control frames. */
  predicate Written(r: ConnReq, out: seq<WireFrame>) {
    forall i :: FlatMap(out, OnWire(i)) == Carried(r, i)
  }

  lemma OnRequestPlain(c: Conn, mail: seq<Mail>, r: ConnReq)
    requires PendingBelow(c) && NamesBelow(r, c.biggest) && OnRequest(c, mail, r).Go?
    ensures var o := OnRequest(c, mail, r);
            && Written(r, o.out)
            && o.conn.biggest == c.biggest
            && PendingBelow(o.conn)
            && (forall f :: f in o.out ==> (f.WHeaders? || f.WData? ==> f.id <= c.biggest))
  {
    var o := OnRequest(c, mail, r);
    match r {
      case GetWindow(id, amount) => DistributedPlain(c.(pending := c.pending + [(id, amount)]), mail, []);
      case PutWindow(amount) => AddGlobalPlain(c, mail, amount);
      case _ =>
    }
    forall i
      ensures FlatMap(o.out, OnWire(i)) == Carried(r, i)
    {
      if r.Frame? || r.Response? {
        FlatMapOne(o.out[0], OnWire(i));
      } else {
        ControlOnlyNoFrames(o.out, i);
      }
    }
  }

  /** What happens to the attached, not reused streams when the connection task moves. */
  predicate AllEffects(s: State, o: ConnOut, r: Option<ConnReq>, shift: int)
    requires o.Go? && |s.mail| == |s.tasks|
  {
    forall k :: 0 <= k < |s.tasks| && Alone(s, k) && Attached(s.tasks[k]) ==>
      Effect(s.conn, s.mail, o, s.tasks[k].id, k, if r.Some? then AskedBy(r.value, s.tasks[k].id) else 0, shift)
  }

  lemma AttachedReady(s: State, k: nat)
    requires RunOk(s) && k < |s.tasks| && Alone(s, k) && Attached(s.tasks[k])
    ensures Ready(s.conn, s.mail, s.tasks[k].id, k)
  {
    assert StreamOk(s, k);
    assert OwnHandles(s.conn.streams);
  }

  predicate PeaksGrow(mail: seq<Mail>, mail': seq<Mail>) {
    |mail'| == |mail| && forall k :: 0 <= k < |mail| ==> mail'[k].peak >= mail[k].peak
  }

  /** The requests left once `r` is taken. */
  function Rest(requests: seq<ConnReq>, r: Option<ConnReq>): seq<ConnReq>
    requires r.Some? ==> requests != [] && requests[0] == r.value
  {
    if r.Some? then requests[1..] else requests
  }

  lemma FramesWritten(wire: seq<WireFrame>, requests: seq<ConnReq>, out: seq<WireFrame>, r: Option<ConnReq>, id: u32)
    requires r.Some? ==> requests != [] && requests[0] == r.value
    requires if r.Some? then Written(r.value, out) else ControlOnly(out)
    ensures FlatMap(wire + out, OnWire(id)) + FlatMap(Rest(requests, r), CarriedFor(id))
         == FlatMap(wire, OnWire(id)) + FlatMap(requests, CarriedFor(id))
  {
    FlatMapAppend(wire, out, OnWire(id));
    var a, b := FlatMap(wire, OnWire(id)), FlatMap(out, OnWire(id));
    if r.None? {
      ControlOnlyNoFrames(out, id);
      assert a + [] == a;
    } else {
      assert b == CarriedFor(id)(r.value);
      FirstCarried(requests, id);
      Regroup(a, b, FlatMap(requests[1..], CarriedFor(id)));
    }
  }

  lemma FirstCarried(requests: seq<ConnReq>, id: u32)
    requires requests != []
    ensures FlatMap(requests, CarriedFor(id)) == CarriedFor(id)(requests[0]) + FlatMap(requests[1..], CarriedFor(id))
  {
  }

  /** One stream when the connection task moves; `r` is the request it took, if any. */
  lemma ConnMoveStream(s: State, s': State, o: ConnOut, r: Option<ConnReq>, shift: int, k: nat)
    requires o.Go? && k < |s.tasks| == |s.mail| && Alone(s, k) && StreamOk(s, k)
    requires r.Some? ==> s.requests != [] && s.requests[0] == r.value
    requires AllEffects(s, o, r, shift) && PeaksGrow(s.mail, o.mail)
    requires if r.Some? then Written(r.value, o.out) else ControlOnly(o.out)
    requires s'.conn == o.conn && s'.mail == o.mail && s'.tasks == s.tasks && s'.wire == s.wire + o.out
    requires s'.requests == Rest(s.requests, r)
    ensures StreamOk(s', k)
  {
    var t := s.tasks[k];
    FramesWritten(s.wire, s.requests, o.out, r, t.id);
    if Attached(t) {
      assert Effect(s.conn, s.mail, o, t.id, k, if r.Some? then AskedBy(r.value, t.id) else 0, shift);
    }
  }

  lemma ConnMoveRuns(s: State, s1: State, o: ConnOut, r: Option<ConnReq>, shift: int)
    requires RunOk(s) && o.Go?
    requires r.Some? ==> s.requests != [] && s.requests[0] == r.value
    requires s1 == s.(requests := Rest(s.requests, r), increments := s1.increments)
    requires AllEffects(s, o, r, shift)
    requires PeaksGrow(s.mail, o.mail)
    requires if r.Some? then Written(r.value, o.out) else ControlOnly(o.out)
    requires o.conn.biggest == s.conn.biggest && PendingBelow(o.conn)
    requires forall f :: f in o.out ==> (f.WHeaders? || f.WData? ==> f.id <= s.conn.biggest)
    requires WellFormed(ConnMove(s1, o, []).state)
    ensures RunOk(ConnMove(s1, o, []).state)
  {
    var s' := ConnMove(s1, o, []).state;
    assert s'.tasks == s.tasks;
    assert IdsOk(s');
    forall k | 0 <= k < |s.tasks| && Alone(s', k)
      ensures StreamOk(s', k)
    {
      SameAlone(s, s', k);
      ConnMoveStream(s, s', o, r, shift, k);
    }
  }

  /** The same for an arm that takes no request and writes control frames only. */
  lemma PlainMoveRuns(s: State, s1: State, o: ConnOut, gain: int, shift: int)
    requires RunOk(s) && o.Go? && Plain(s.conn, o)
    requires s1 == s.(increments := s1.increments)
    requires Keeps(SendWindow, s.conn, s.mail, o, gain)
    requires AllEffects(s, o, None, shift)
    ensures RunOk(ConnMove(s1, o, []).state)
  {
    ConnMoveKeeps(SendWindow, s1, o, gain);
    ConnMoveRuns(s, s1, o, None, shift);
  }

  lemma DataEffects(s: State, id: u32, data: seq<byte>)
    requires RunOk(s) && OnData(s.conn, s.mail, id, data).Go?
    ensures AllEffects(s, OnData(s.conn, s.mail, id, data), None, 0)
  {
    forall k | 0 <= k < |s.tasks| && Alone(s, k) && Attached(s.tasks[k])
      ensures Effect(s.conn, s.mail, OnData(s.conn, s.mail, id, data), s.tasks[k].id, k, 0, 0)
    {
      AttachedReady(s, k);
      OnDataEffect(s.conn, s.mail, id, data, s.tasks[k].id, k);
    }
  }

  lemma DataRuns(s: State, id: u32, data: seq<byte>)
    requires RunOk(s) && OnData(s.conn, s.mail, id, data).Go?
    ensures RunOk(ConnMove(s, OnData(s.conn, s.mail, id, data), []).state)
  {
    OnDataKeeps(SendWindow, s.conn, s.mail, id, data);
    DataEffects(s, id, data);
    PlainMoveRuns(s, s, OnData(s.conn, s.mail, id, data), 0, 0);
  }

  lemma SettingsEffects(s: State, frame: Settings.SettingsFrame)
    requires RunOk(s) && OnSettings(s.conn, s.mail, frame).Go?
    ensures AllEffects(s, OnSettings(s.conn, s.mail, frame), None,
                       Shift(s, frame))
  {
    var shift := Shift(s, frame);
    forall k | 0 <= k < |s.tasks| && Alone(s, k) && Attached(s.tasks[k])
      ensures Effect(s.conn, s.mail, OnSettings(s.conn, s.mail, frame), s.tasks[k].id, k, 0, shift)
    {
      AttachedReady(s, k);
      OnSettingsEffect(s.conn, s.mail, frame, s.tasks[k].id, k);
    }
  }

  /** How far SETTINGS moves the initial window. */
  function Shift(s: State, frame: Settings.SettingsFrame): int {
    Settings.Apply(s.conn.remote, frame).0.initialWindowSize - s.conn.remote.initialWindowSize
  }

  lemma SettingsPlain(s: State, frame: Settings.SettingsFrame)
    requires PendingBelow(s.conn)
    ensures Plain(s.conn, OnSettings(s.conn, s.mail, frame))
  {
  }

  lemma SettingsRuns(s: State, frame: Settings.SettingsFrame)
    requires RunOk(s) && OnSettings(s.conn, s.mail, frame).Go?
    ensures RunOk(ConnMove(s, OnSettings(s.conn, s.mail, frame), []).state)
  {
    OnSettingsKeeps(SendWindow, s.conn, s.mail, frame);
    SettingsEffects(s, frame);
    SettingsPlain(s, frame);
    PlainMoveRuns(s, s, OnSettings(s.conn, s.mail, frame), 0, Shift(s, frame));
  }

  lemma WindowUpdateEffects(s: State, id: u32, amount: i32)
    requires RunOk(s) && amount >= 0 && OnWindowUpdate(s.conn, s.mail, id, amount).Go?
    ensures AllEffects(s, OnWindowUpdate(s.conn, s.mail, id, amount), None, 0)
  {
    forall k | 0 <= k < |s.tasks| && Alone(s, k) && Attached(s.tasks[k])
      ensures Effect(s.conn, s.mail, OnWindowUpdate(s.conn, s.mail, id, amount), s.tasks[k].id, k, 0, 0)
    {
      AttachedReady(s, k);
      OnWindowUpdateEffect(s.conn, s.mail, id, amount, s.tasks[k].id, k);
    }
  }

  lemma WindowUpdateRuns(s: State, id: u32, amount: i32)
    requires RunOk(s) && amount >= 0 && OnWindowUpdate(s.conn, s.mail, id, amount).Go?
    ensures RunOk(ConnMove(Supplied(s, id, amount), OnWindowUpdate(s.conn, s.mail, id, amount), []).state)
  {
    OnWindowUpdateKeeps(SendWindow, s.conn, s.mail, id, amount);
    OnWindowUpdatePlain(s.conn, s.mail, id, amount);
    WindowUpdateEffects(s, id, amount);
    PlainMoveRuns(s, Supplied(s, id, amount), OnWindowUpdate(s.conn, s.mail, id, amount),
                  if id == 0 then amount else 0, 0);
  }

  lemma ShutdownEffects(s: State)
    requires RunOk(s) && OnShutdown(s.conn, s.mail).Go?
    ensures AllEffects(s, OnShutdown(s.conn, s.mail), None, 0)
  {
    forall k | 0 <= k < |s.tasks| && Alone(s, k) && Attached(s.tasks[k])
      ensures Effect(s.conn, s.mail, OnShutdown(s.conn, s.mail), s.tasks[k].id, k, 0, 0)
    {
      AttachedReady(s, k);
      ShutdownEffect(s.conn, s.mail, s.tasks[k].id, k);
    }
  }

  lemma ShutdownEffect(c: Conn, mail: seq<Mail>, i: u32, k: nat)
    requires Ready(c, mail, i, k) && OnShutdown(c, mail).Go?
    ensures Effect(c, mail, OnShutdown(c, mail), i, k, 0, 0)
  {
  }

  lemma ShutdownRuns(cfg: Config, s: State)
    requires RunOk(s) && Step(cfg, s, Shutdown).Running?
    ensures RunOk(Step(cfg, s, Shutdown).state)
  {
    ConnStepKeeps(SendWindow, cfg, s, Shutdown);
    ShutdownEffects(s);
    ShutdownShape(s);
    ConnMoveRuns(s, s, OnShutdown(s.conn, s.mail), None, 0);
  }

  lemma ShutdownShape(s: State)
    requires WellFormed(s) && IdsOk(s) && OnShutdown(s.conn, s.mail).Go?
    ensures var o := OnShutdown(s.conn, s.mail);
            && PeaksGrow(s.mail, o.mail) && ControlOnly(o.out) && PendingBelow(o.conn)
            && o.conn.biggest == s.conn.biggest && forall f :: f in o.out ==> f.WSettings?
  {
  }

  lemma RequestEffects(s: State)
    requires RunOk(s) && s.requests != [] && OnRequest(s.conn, s.mail, s.requests[0]).Go?
    ensures AllEffects(s, OnRequest(s.conn, s.mail, s.requests[0]), Some(s.requests[0]), 0)
  {
    var r := s.requests[0];
    forall k | 0 <= k < |s.tasks| && Alone(s, k) && Attached(s.tasks[k])
      ensures Effect(s.conn, s.mail, OnRequest(s.conn, s.mail, r), s.tasks[k].id, k, AskedBy(r, s.tasks[k].id), 0)
    {
      AttachedReady(s, k);
      assert StreamOk(s, k);
      OnRequestEffect(s.conn, s.mail, r, s.tasks[k].id, k);
    }
  }

  lemma RequestRuns(cfg: Config, s: State)
    requires RunOk(s) && Step(cfg, s, TakeRequest).Running?
    ensures RunOk(Step(cfg, s, TakeRequest).state)
  {
    var r := s.requests[0];
    RequestStepKeeps(SendWindow, cfg, s);
    OnRequestKeeps(SendWindow, s.conn, s.mail, r);
    OnRequestPlain(s.conn, s.mail, r);
    RequestEffects(s);
    ConnMoveRuns(s, s.(requests := Rest(s.requests, Some(r))), OnRequest(s.conn, s.mail, r), Some(r), 0);
  }

  lemma RefusedEffects(cfg: Config, s: State, id: u32, parse: HeaderParse)
    requires RunOk(s)
    requires var o := OnHeaders(cfg, s.conn, s.mail, id, parse); o.Go? && !Spawned(s.mail, o)
    ensures AllEffects(s, OnHeaders(cfg, s.conn, s.mail, id, parse), None, 0)
  {
    forall k | 0 <= k < |s.tasks| && Alone(s, k) && Attached(s.tasks[k])
      ensures Effect(s.conn, s.mail, OnHeaders(cfg, s.conn, s.mail, id, parse), s.tasks[k].id, k, 0, 0)
    {
      AttachedReady(s, k);
      OnHeadersEffect(cfg, s.conn, s.mail, id, parse, s.tasks[k].id, k);
    }
  }

  lemma RefusedPlain(cfg: Config, c: Conn, mail: seq<Mail>, id: u32, parse: HeaderParse)
    requires PendingBelow(c) && !Spawned(mail, OnHeaders(cfg, c, mail, id, parse))
    ensures Plain(c, OnHeaders(cfg, c, mail, id, parse))
  {
  }

  lemma RefusedRuns(cfg: Config, s: State, id: u32, parse: HeaderParse, hasBody: bool)
    requires RunOk(s) && Step(cfg, s, PeerHeaders(id, parse, hasBody)).Running?
    requires !Spawned(s.mail, OnHeaders(cfg, s.conn, s.mail, id, parse))
    ensures RunOk(Step(cfg, s, PeerHeaders(id, parse, hasBody)).state)
  {
    HeadersStepKeeps(SendWindow, cfg, s, id, parse, hasBody);
    OnHeadersKeeps(SendWindow, cfg, s.conn, s.mail, id, parse);
    RefusedPlain(cfg, s.conn, s.mail, id, parse);
    RefusedEffects(cfg, s, id, parse);
    ConnMoveRuns(s, s, OnHeaders(cfg, s.conn, s.mail, id, parse), None, 0);
  }

  // ---------- a new stream ----------

  lemma {:induction false} UnknownId(s: State, wire: seq<WireFrame>, requests: seq<ConnReq>,
                                     pending: seq<(u32, i32)>, id: u32)
    requires forall f :: f in wire ==> (f.WHeaders? || f.WData? ==> f.id < id)
    requires forall r :: r in requests ==> (r.Frame? || r.Response? || r.GetWindow? ==> r.id < id)
    requires forall p :: p in pending ==> p.0 < id
    ensures FlatMap(wire, OnWire(id)) == []
    ensures FlatMap(requests, CarriedFor(id)) == [] && Sum(requests, AskFor(id)) == 0
    ensures Sum(pending, PendingFor(id)) == 0
    decreases |wire| + |requests| + |pending|
  {
    if wire != [] {
      UnknownId(s, wire[1..], requests, pending, id);
    } else if requests != [] {
      UnknownId(s, wire, requests[1..], pending, id);
    } else {
      SumZero(pending, PendingFor(id));
    }
  }

  lemma NewStreamOk(s: State, s': State, id: u32, window: i32, peerWindow: i32, hasBody: bool)
    requires WellFormed(s) && IdsOk(s) && id > s.conn.biggest && window >= 0
    requires window == s.conn.remote.initialWindowSize
    requires s'.requests == s.requests && s'.wire == s.wire
    requires s'.tasks == s.tasks + [NewTask(id, window, peerWindow, hasBody)]
    requires s'.mail == s.mail + [NewMail(window)]
    requires s'.conn.streams == s.conn.streams[id := Handle(|s.tasks|, false)]
    requires s'.conn.pending == s.conn.pending && s'.conn.remote == s.conn.remote
    ensures StreamOk(s', |s.tasks|)
  {
    UnknownId(s, s.wire, s.requests, s.conn.pending, id);
    var t, m := s'.tasks[|s.tasks|], s'.mail[|s.tasks|];
    assert CountOk(t) && t.window + t.asked == Seen(m) && PeakOk(m);
    assert InFlight(s', |s.tasks|) == 0;
  }

  lemma OldStreamOk(s: State, s': State, id: u32, t: Task, m: Mail, k: nat)
    requires |s.mail| == |s.tasks| && k < |s.tasks| && StreamOk(s, k) && s.tasks[k].id != id
    requires s'.requests == s.requests && s'.wire == s.wire
    requires s'.tasks == s.tasks + [t] && s'.mail == s.mail + [m]
    requires s'.conn.streams == s.conn.streams[id := Handle(|s.tasks|, false)]
    requires s'.conn.pending == s.conn.pending && s'.conn.remote == s.conn.remote
    ensures StreamOk(s', k)
  {
  }

  lemma SpawnStreams(s: State, s': State, id: u32, window: i32, peerWindow: i32, hasBody: bool)
    requires WellFormed(s) && IdsOk(s) && StreamsOk(s)
    requires id > s.conn.biggest || Known(s, id)
    requires window == s.conn.remote.initialWindowSize
    requires s'.requests == s.requests && s'.wire == s.wire
    requires s'.tasks == s.tasks + [NewTask(id, window, peerWindow, hasBody)]
    requires s'.mail == s.mail + [NewMail(window)]
    requires s'.conn.streams == s.conn.streams[id := Handle(|s.tasks|, false)]
    requires s'.conn.pending == s.conn.pending && s'.conn.remote == s.conn.remote
    ensures StreamsOk(s')
  {
    forall k | 0 <= k < |s'.tasks| && Alone(s', k)
      ensures StreamOk(s', k)
    {
      if k == |s.tasks| {
        NewAlone(s, s', k);
        NewStreamOk(s, s', id, window, peerWindow, hasBody);
      } else {
        OldAlone(s, s', k);
        OldStreamOk(s, s', id, NewTask(id, window, peerWindow, hasBody), NewMail(window), k);
      }
    }
  }

  /** Some task had this id. */
  predicate Known(s: State, id: u32) {
    exists j :: 0 <= j < |s.tasks| && s.tasks[j].id == id
  }

  lemma NewAlone(s: State, s': State, k: nat)
    requires |s'.tasks| == |s.tasks| + 1 && s'.tasks[..|s.tasks|] == s.tasks && k == |s.tasks| && Alone(s', k)
    ensures forall j :: 0 <= j < |s.tasks| ==> s.tasks[j].id != s'.tasks[k].id
  {
    forall j | 0 <= j < |s.tasks|
      ensures s.tasks[j].id != s'.tasks[k].id
    {
      assert s'.tasks[j] == s.tasks[j];
    }
  }

  lemma OldAlone(s: State, s': State, k: nat)
    requires |s'.tasks| == |s.tasks| + 1 && s'.tasks[..|s.tasks|] == s.tasks && k < |s.tasks| && Alone(s', k)
    ensures Alone(s, k) && s.tasks[k].id != s'.tasks[|s.tasks|].id
  {
    forall j | 0 <= j < |s.tasks| && j != k
      ensures s.tasks[j].id != s.tasks[k].id
    {
      assert s'.tasks[j] == s.tasks[j];
    }
  }

  lemma SpawnRuns(cfg: Config, s: State, id: u32, parse: HeaderParse, hasBody: bool)
    requires RunOk(s) && Spawned(s.mail, OnHeaders(cfg, s.conn, s.mail, id, parse))
    ensures RunOk(Step(cfg, s, PeerHeaders(id, parse, hasBody)).state)
  {
    SpawnedState(cfg, s, id, parse, hasBody);
    if id in s.conn.streams {
      assert s.tasks[s.conn.streams[id].task].id == id;
    }
    SpawnKeeps(SendWindow, cfg, s, id, parse, hasBody);
    NewTaskRuns(s, Step(cfg, s, PeerHeaders(id, parse, hasBody)).state, id, s.conn.remote.initialWindowSize,
                cfg.localInitialWindow, hasBody);
  }

  lemma NewTaskRuns(s: State, s': State, id: u32, window: i32, peerWindow: i32, hasBody: bool)
    requires RunOk(s) && WellFormed(s')
    requires window == s.conn.remote.initialWindowSize
    requires s'.requests == s.requests && s'.wire == s.wire
    requires s'.tasks == s.tasks + [NewTask(id, window, peerWindow, hasBody)]
    requires s'.mail == s.mail + [NewMail(window)]
    requires s'.conn.streams == s.conn.streams[id := Handle(|s.tasks|, false)]
    requires s'.conn.pending == s.conn.pending && s'.conn.remote == s.conn.remote
    requires s'.conn.biggest == Max(id, s.conn.biggest) && id % 2 == 1
    requires id > s.conn.biggest || Known(s, id)
    requires if s'.reopened then s.reopened || Known(s, id) else !s.reopened && s.conn.biggest < id
    ensures RunOk(s')
  {
    SpawnIds(s, s', NewTask(id, window, peerWindow, hasBody));
    NewTaskLocals(s, s', id, window, peerWindow, hasBody);
    SpawnStreams(s, s', id, window, peerWindow, hasBody);
  }

  lemma NewTaskLocals(s: State, s': State, id: u32, window: i32, peerWindow: i32, hasBody: bool)
    requires LocalsOk(s) && s'.tasks == s.tasks + [NewTask(id, window, peerWindow, hasBody)]
    ensures LocalsOk(s')
  {
  }

  lemma SpawnIds(s: State, s': State, t: Task)
    requires IdsOk(s)
    requires s'.requests == s.requests && s'.wire == s.wire && s'.tasks == s.tasks + [t]
    requires s'.conn.pending == s.conn.pending && s'.conn.biggest == Max(t.id, s.conn.biggest)
    requires t.id % 2 == 1
    requires if s'.reopened then s.reopened || Known(s, t.id) else !s.reopened && s.conn.biggest < t.id
    ensures IdsOk(s')
  {
    if s'.reopened {
      if s.reopened {
        var j, k :| 0 <= j < k < |s.tasks| && s.tasks[j].id == s.tasks[k].id;
        assert s'.tasks[j].id == s'.tasks[k].id;
      } else {
        var j :| 0 <= j < |s.tasks| && s.tasks[j].id == t.id;
        assert s'.tasks[j].id == s'.tasks[|s.tasks|].id;
      }
    }
    if s.conn.biggest < t.id {
      assert s'.tasks[|s.tasks|].id == s'.conn.biggest;
    } else if s.tasks != [] {
      var k :| 0 <= k < |s.tasks| && s.tasks[k].id == s.conn.biggest;
      assert s'.tasks[k].id == s'.conn.biggest;
    }
  }

  // ---------- every step ----------

  lemma QuietRuns(s: State, k: nat, o: TaskOut)
    requires RunOk(s) && k < |s.tasks|
    requires Alone(s, k) ==> TaskEffect(s.tasks[k], s.mail[k], o, s.mail[k])
    requires OwnRequests(s.tasks[k].id, o) && o.task.id == s.tasks[k].id
    requires LocalOk(o.task) && WellFormed(TaskMove(s, k, o))
    ensures RunOk(TaskMove(s, k, o))
  {
    assert s.mail[k := s.mail[k]] == s.mail;
    TaskMoveRuns(s, k, s.mail[k], o);
  }

  lemma DropRuns(cfg: Config, s: State, k: nat)
    requires RunOk(s) && k < |s.tasks| && s.tasks[k].phase.Dropping?
    ensures RunOk(Drop(s, k))
  {
    DropKeeps(SendWindow, cfg, s, k);
    DropStreams(s, Drop(s, k), k);
  }

  lemma SameIds(s: State, s': State)
    requires IdsOk(s)
    requires SameTaskIds(s, s')
    requires s'.conn == s.conn && s'.requests == s.requests && s'.wire == s.wire && s'.reopened == s.reopened
    ensures IdsOk(s')
  {
  }

  /** A step that leaves alone what `StreamOk` speaks of. */
  lemma SameStream(s: State, s': State, j: nat)
    requires j < |s.tasks| == |s.mail| && |s'.tasks| == |s.tasks| == |s'.mail| && StreamOk(s, j)
    requires s'.conn == s.conn && s'.requests == s.requests && s'.wire == s.wire
    requires s'.tasks[j] == s.tasks[j].(body := s'.tasks[j].body) && s'.mail[j] == s.mail[j]
    ensures StreamOk(s', j)
  {
  }

  lemma DroppedStream(s: State, k: nat)
    requires k < |s.tasks| == |s.mail| && StreamOk(s, k) && s.tasks[k].phase.Dropping?
    ensures StreamOk(Drop(s, k), k)
  {
    assert Drop(s, k).requests == s.requests;
  }

  lemma DropStreams(s: State, s': State, k: nat)
    requires RunOk(s) && k < |s.tasks| && s.tasks[k].phase.Dropping? && s' == Drop(s, k) && WellFormed(s')
    ensures RunOk(s')
  {
    DropLocals(s, k);
    SameIds(s, s');
    forall j | 0 <= j < |s.tasks| && Alone(s', j)
      ensures StreamOk(s', j)
    {
      SameAlone(s, s', j);
      if j == k {
        DroppedStream(s, k);
      } else {
        SameStream(s, s', j);
      }
    }
  }

  lemma DropLocals(s: State, k: nat)
    requires LocalsOk(s) && k < |s.tasks| && k < |s.mail| && s.tasks[k].phase.Dropping?
    ensures LocalsOk(Drop(s, k)) && SameTaskIds(s, Drop(s, k)) && Drop(s, k).requests == s.requests
  {
    assert LocalOk(s.tasks[k]) && LocalOk(Drop(s, k).tasks[k]);
  }

  lemma SameLocals(s: State, s': State, k: nat, b: Body)
    requires LocalsOk(s) && k < |s.tasks| && s'.tasks == s.tasks[k := s.tasks[k].(body := Some(b))]
    ensures LocalsOk(s')
  {
    assert LocalOk(s.tasks[k]) && LocalOk(s'.tasks[k]);
  }

  lemma SameStreams(s: State, s': State, k: nat, b: Body)
    requires StreamsOk(s) && k < |s.tasks|
    requires s'.conn == s.conn && s'.requests == s.requests && s'.wire == s.wire
    requires s'.mail == s.mail && s'.tasks == s.tasks[k := s.tasks[k].(body := Some(b))]
    ensures StreamsOk(s')
  {
    forall j | 0 <= j < |s.tasks| && Alone(s', j)
      ensures StreamOk(s', j)
    {
      SameAlone(s, s', j);
      SameStream(s, s', j);
    }
  }

  lemma BodyRuns(s: State, k: nat, b: Body)
    requires RunOk(s) && HasBody(s, k) && WellFormed(MoveBody(s, k, b).state)
    ensures RunOk(MoveBody(s, k, b).state)
  {
    var s' := MoveBody(s, k, b).state;
    SameLocals(s, s', k, b);
    SameIds(s, s');
    SameStreams(s, s', k, b);
  }

  lemma LoopRuns(cfg: Config, s: State, k: nat)
    requires RunOk(s) && k < |s.tasks| && RunTask(s, k).Running?
    ensures RunOk(RunTask(s, k).state)
  {
    var t := s.tasks[k];
    var m := s.mail[k];
    RunTaskKeeps(SendWindow, cfg, s, k);
    match t.phase
    case Top => AskEffect(t, m); QuietRuns(s, k, Ask(t));
    case Asked => EmitOk(t); EmitEffect(t, m); QuietRuns(s, k, Emit(t));
    case Leaving(_) => ExitOk(t); ExitEffect(t, m); QuietRuns(s, k, GiveBack(t));
    case Closing(_) => ExitOk(t); ExitEffect(t, m); QuietRuns(s, k, AnnounceClosing(t));
    case Closed(_) => ExitOk(t); ExitEffect(t, m); QuietRuns(s, k, AnnounceClosed(t));
    case Dropping(_) => DropRuns(cfg, s, k);
    case _ =>
  }

  lemma PopLimit(m: Mail)
    requires m.msgs != []
    ensures SameLimit(m, Pop(m))
  {
  }

  lemma ReceiveRuns(cfg: Config, s: State, k: nat, delivered: bool)
    requires RunOk(s) && Step(cfg, s, TaskReceive(k, delivered)).Running?
    ensures RunOk(Step(cfg, s, TaskReceive(k, delivered)).state)
  {
    ReceiveKeeps(SendWindow, cfg, s, k, delivered);
    var t := s.tasks[k];
    HandleReqOk(t, s.mail[k].msgs[0], delivered);
    HandleReqEffect(t, s.mail[k], delivered);
    PopLimit(s.mail[k]);
    TaskMoveRuns(s, k, Pop(s.mail[k]), HandleReq(t, s.mail[k].msgs[0], delivered));
  }

  lemma CreditShape(s: State, k: nat)
    requires WellFormed(s) && k < |s.tasks| && Selecting(s.tasks[k]) && HasCredit(s.tasks[k])
    ensures WellFormed(TaskMove(s, k, TakeCredit(s.tasks[k])))
  {
    TakeCreditKeeps(SendWindow, s.tasks[k]);
    QuietMoveKeeps(SendWindow, s, k, TakeCredit(s.tasks[k]));
  }

  lemma CreditRuns(s: State, k: nat)
    requires RunOk(s) && k < |s.tasks| && Selecting(s.tasks[k]) && HasCredit(s.tasks[k])
    ensures RunOk(TaskMove(s, k, TakeCredit(s.tasks[k])))
  {
    CreditShape(s, k);
    TakeCreditOk(s.tasks[k]);
    TakeCreditEffect(s.tasks[k], s.mail[k]);
    QuietRuns(s, k, TakeCredit(s.tasks[k]));
  }

  lemma RespondShape(s: State, k: nat, withBody: bool)
    requires WellFormed(s) && k < |s.tasks| && s.tasks[k].phase.Handling?
    ensures WellFormed(TaskMove(s, k, Respond(s.tasks[k], withBody)))
  {
    RespondKeeps(SendWindow, s.tasks[k], withBody);
    QuietMoveKeeps(SendWindow, s, k, Respond(s.tasks[k], withBody));
  }

  lemma RespondRuns(s: State, k: nat, withBody: bool)
    requires RunOk(s) && k < |s.tasks| && s.tasks[k].phase.Handling?
    ensures RunOk(TaskMove(s, k, Respond(s.tasks[k], withBody)))
  {
    RespondShape(s, k, withBody);
    RespondEffect(s.tasks[k], s.mail[k], withBody);
    QuietRuns(s, k, Respond(s.tasks[k], withBody));
  }

  lemma ChunkEffect(s: State, k: nat, chunk: seq<byte>)
    requires RunOk(s) && k < |s.tasks| && Alone(s, k) && s.tasks[k].phase.BodyIdle? && |chunk| <= MAX_CHUNK
    ensures TaskEffect(s.tasks[k], s.mail[k], ReadChunk(s.tasks[k], chunk), s.mail[k])
  {
    assert StreamOk(s, k);
    ReadChunkEffect(s.tasks[k], s.mail[k], chunk);
  }

  lemma ChunkOwn(t: Task, chunk: seq<byte>)
    requires |chunk| <= MAX_CHUNK && t.phase.BodyIdle?
    ensures OwnRequests(t.id, ReadChunk(t, chunk)) && ReadChunk(t, chunk).task.id == t.id
  {
  }

  lemma ChunkShape(s: State, k: nat, chunk: seq<byte>)
    requires WellFormed(s) && k < |s.tasks| && s.tasks[k].phase.BodyIdle? && |chunk| <= MAX_CHUNK
    ensures WellFormed(TaskMove(s, k, ReadChunk(s.tasks[k], chunk)))
  {
    ReadChunkKeeps(SendWindow, s.tasks[k], chunk);
    QuietMoveKeeps(SendWindow, s, k, ReadChunk(s.tasks[k], chunk));
  }

  lemma ChunkRuns(s: State, k: nat, chunk: seq<byte>)
    requires RunOk(s) && k < |s.tasks| && s.tasks[k].phase.BodyIdle? && |chunk| <= MAX_CHUNK
    ensures RunOk(TaskMove(s, k, ReadChunk(s.tasks[k], chunk)))
  {
    var t := s.tasks[k];
    ChunkShape(s, k, chunk);
    ReadChunkOk(t, chunk);
    ChunkOwn(t, chunk);
    if Alone(s, k) {
      ChunkEffect(s, k, chunk);
    }
    QuietRuns(s, k, ReadChunk(t, chunk));
  }

  lemma FailRuns(s: State, k: nat)
    requires RunOk(s) && k < |s.tasks| && (s.tasks[k].phase.Handling? || s.tasks[k].phase.BodyIdle?)
    ensures RunOk(TaskMove(s, k, Quiet(Leave(s.tasks[k], Some(StreamError(InternalError))))))
  {
    var t := s.tasks[k];
    OneRequest(SendWindow, Quiet(Leave(t, Some(StreamError(InternalError)))));
    QuietMoveKeeps(SendWindow, s, k, Quiet(Leave(t, Some(StreamError(InternalError)))));
    LeaveOk(t, StreamError(InternalError));
    LeaveEffect(t, s.mail[k], s.mail[k], StreamError(InternalError), 0, 0);
    QuietRuns(s, k, Quiet(Leave(t, Some(StreamError(InternalError)))));
  }

  lemma PeerStepRuns(cfg: Config, s: State, e: Event)
    requires RunOk(s) && Step(cfg, s, e).Running?
    requires e.PeerData? || e.PeerHeaders? || e.PeerSettings? || e.PeerWindowUpdate?
    ensures RunOk(Step(cfg, s, e).state)
  {
    match e
    case PeerData(id, data) => DataRuns(s, id, data);
    case PeerHeaders(id, parse, hasBody) =>
      if Spawned(s.mail, OnHeaders(cfg, s.conn, s.mail, id, parse)) {
        SpawnRuns(cfg, s, id, parse, hasBody);
      } else {
        RefusedRuns(cfg, s, id, parse, hasBody);
      }
    case PeerSettings(frame) => SettingsRuns(s, frame);
    case PeerWindowUpdate(id, amount) => WindowUpdateRuns(s, id, amount);
  }

  lemma BodyStepRuns(cfg: Config, s: State, e: Event)
    requires RunOk(s) && Step(cfg, s, e).Running?
    requires e.BodyPoll? || e.BodyDrop? || e.BodyDrain?
    ensures RunOk(Step(cfg, s, e).state)
  {
    BodyEnabled(cfg, s, e);
    BodyStepKeeps(SendWindow, cfg, s, e);
    BodyRuns(s, e.k, MovedBody(s.tasks[e.k].body.value, e));
  }

  /** Main step theorem for single streams. */
  lemma EveryStepRuns(cfg: Config, s: State, e: Event)
    requires RunOk(s) && Step(cfg, s, e).Running?
    ensures RunOk(Step(cfg, s, e).state)
  {
    match e
    case PeerStop(_) =>
    case Shutdown => ShutdownRuns(cfg, s);
    case TakeRequest => RequestRuns(cfg, s);
    case TaskReceive(k, delivered) => ReceiveRuns(cfg, s, k, delivered);
    case TaskRun(k) => LoopRuns(cfg, s, k);
    case TaskCredit(k) => CreditRuns(s, k);
    case TaskRespond(k, withBody) => RespondRuns(s, k, withBody);
    case TaskChunk(k, chunk) => ChunkRuns(s, k, chunk);
    case TaskFail(k) => FailRuns(s, k);
    case BodyPoll(_, _) => BodyStepRuns(cfg, s, e);
    case BodyDrop(_) => BodyStepRuns(cfg, s, e);
    case BodyDrain(_) => BodyStepRuns(cfg, s, e);
    case _ => PeerStepRuns(cfg, s, e);
  }

  lemma {:induction false} RunsOk(cfg: Config, events: seq<Event>)
    requires cfg.globalWindow >= 0 && Run(cfg, events).Some?
    ensures RunOk(Run(cfg, events).value)
    decreases |events|
  {
    if events != [] {
      RunsOk(cfg, events[..|events| - 1]);
      EveryStepRuns(cfg, Run(cfg, events[..|events| - 1]).value, events[|events| - 1]);
    }
  }
}
