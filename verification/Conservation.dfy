/** What every step keeps, whatever the peer, the handlers and the scheduler do: the shape of the state, and
    three balances over all queues and tasks (window to send, credit to give back, open streams). */
module Conservation {
  import opened Basics
  import opened H2Errors
  import opened H2Types
  import opened ConnSpec
  import opened StreamSpec
  import opened System
  import opened Seqs
  import Settings

  // ---------- the three balances ----------

  datatype Balance = SendWindow | BodyCredit | OpenCount

  function MsgWeight(b: Balance, m: StreamReq): int {
    match b
    case SendWindow => WindowIn(m)
    case BodyCredit => BodyIn(m)
    case OpenCount => 0
  }

  function ReqWeight(b: Balance, r: ConnReq): int {
    match b
    case SendWindow => if r.PutWindow? then r.amount else if r.Frame? then |r.data| else 0
    case BodyCredit => if r.UpdatePeerWindow? then r.amount else 0
    case OpenCount => if r.StreamClosing? then 1 else 0
  }

  predicate Announced(p: Phase) {
    p.Closed? || p.Dropping? || p.Done?
  }

  function TaskWeight(b: Balance, t: Task): int {
    match b
    case SendWindow => t.available
    case BodyCredit => Outstanding(t.body)
    case OpenCount => if Announced(t.phase) then 0 else 1
  }

  function WireWeight(b: Balance, f: WireFrame): int {
    if b.SendWindow? && f.WData? then |f.data| else 0
  }

  function ConnWeight(b: Balance, c: Conn): int {
    match b
    case SendWindow => c.global
    case BodyCredit => c.peer
    case OpenCount => 0 - c.open
  }

  function Lost(b: Balance, s: State): int {
    match b
    case SendWindow => s.lostWindow
    case BodyCredit => s.lostCredit
    case OpenCount => 0
  }

  function Supply(b: Balance, cfg: Config, s: State): int {
    match b
    case SendWindow => 65_535 + s.increments
    case BodyCredit => cfg.globalWindow
    case OpenCount => 0
  }

  function MsgIn(b: Balance): StreamReq -> int { (m: StreamReq) => MsgWeight(b, m) }
  function ReqIn(b: Balance): ConnReq -> int { (r: ConnReq) => ReqWeight(b, r) }
  function TaskIn(b: Balance): Task -> int { (t: Task) => TaskWeight(b, t) }
  function WireIn(b: Balance): WireFrame -> int { (f: WireFrame) => WireWeight(b, f) }
  function MailIn(b: Balance): Mail -> int { (m: Mail) => Sum(m.msgs, MsgIn(b)) }

  /** What the connection task and the mailboxes hold. */
  function Held(b: Balance, c: Conn, mail: seq<Mail>): int {
    ConnWeight(b, c) + Sum(mail, MailIn(b))
  }

  function Total(b: Balance, s: State): int {
    Held(b, s.conn, s.mail) + Sum(s.requests, ReqIn(b)) + Sum(s.tasks, TaskIn(b)) + Sum(s.wire, WireIn(b)) + Lost(b, s)
  }

  // ---------- the shape of the state ----------

  predicate MsgOk(m: StreamReq) {
    && (m.AvailableWindow? ==> m.amount > 0)
    && (m.RequestBody? ==> |m.data| <= I32_MAX)
  }

  predicate MailOk(m: Mail) {
    && (forall x :: x in m.msgs ==> MsgOk(x))
    && (!m.open ==> m.msgs == [])
  }

  predicate ReqOk(r: ConnReq) {
    && (r.GetWindow? || r.PutWindow? ==> r.amount > 0)
    && (r.UpdatePeerWindow? ==> r.amount >= 0)
  }

  predicate BodyOk(b: Body) {
    && (forall d :: d in b.queue ==> |d| <= I32_MAX)
    && (forall a :: a in b.credits ==> a >= 0)
    && (b.cur.Some? ==> b.cur.value.total <= I32_MAX)
  }

  predicate TaskOk(t: Task) {
    && t.available >= 0
    && (t.body.Some? ==> BodyOk(t.body.value))
    && (t.phase.Closing? || Announced(t.phase) ==> t.available == 0)
    && (t.phase.Done? ==> t.body.None?)
  }

  predicate ConnOk(c: Conn) {
    && c.global >= 0
    && c.peer >= 0
    && (forall p :: p in c.pending ==> p.1 > 0)
    && (c.global == 0 || c.pending == [])
    && Settings.InRange(c.remote)
  }

  predicate HandlesOk(streams: map<u32, Handle>, tasks: seq<Task>) {
    forall id :: id in streams ==> streams[id].task < |tasks| && tasks[streams[id].task].id == id
  }

  predicate WellFormed(s: State) {
    && |s.mail| == |s.tasks|
    && HandlesOk(s.conn.streams, s.tasks)
    && (forall k :: 0 <= k < |s.mail| ==> MailOk(s.mail[k]))
    && (forall k :: 0 <= k < |s.tasks| ==> TaskOk(s.tasks[k]))
    && (forall k :: 0 <= k < |s.tasks| ==> s.mail[k].open == !s.tasks[k].phase.Done?)
    && (forall r :: r in s.requests ==> ReqOk(r))
    && ConnOk(s.conn)
    && s.lostWindow >= 0
    && s.lostCredit >= 0
  }

  // ---------- steps of the connection task ----------

  /** Fewer handles, the same mailboxes still open with higher peaks, everything in them of the right form. */
  predicate Follows(c: Conn, mail: seq<Mail>, c': Conn, mail': seq<Mail>) {
    && |mail'| == |mail|
    && (forall k :: 0 <= k < |mail| ==>
          MailOk(mail'[k]) && mail'[k].open == mail[k].open && mail'[k].peak >= mail[k].peak)
    && (forall id :: id in c'.streams ==> id in c.streams && c'.streams[id].task == c.streams[id].task)
  }

  /** Before `distribute_window` runs: as ConnOk, but window and requests may both be there. */
  predicate Undistributed(c: Conn) {
    && c.global >= 0
    && c.peer >= 0
    && (forall p :: p in c.pending ==> p.1 > 0)
    && Settings.InRange(c.remote)
  }

  lemma SendHeld(b: Balance, c: Conn, mail: seq<Mail>, k: nat, m: StreamReq)
    requires k < |mail| && mail[k].open && MsgOk(m)
    requires forall i :: 0 <= i < |mail| ==> MailOk(mail[i])
    ensures Held(b, c, mail[k := mail[k].Push(m)]) == Held(b, c, mail) + MsgWeight(b, m)
    ensures Follows(c, mail, c, mail[k := mail[k].Push(m)])
  {
    SumUpdate(mail, k, mail[k].Push(m), MailIn(b));
    SumPush(mail[k].msgs, m, MsgIn(b));
  }

  lemma ServeHeadKeeps(b: Balance, c: Conn, mail: seq<Mail>)
    requires Undistributed(c) && MailsOk(mail)
    requires c.global > 0 && c.pending != [] && ServeHead(c, mail).Some?
    ensures var (c', mail') := ServeHead(c, mail).value;
            && Undistributed(c')
            && Follows(c, mail, c', mail')
            && Held(b, c', mail') == Held(b, c, mail)
  {
    var (id, want) := c.pending[0];
    if id in c.streams {
      SendHeld(b, c, mail, c.streams[id].task, AvailableWindow(Min(c.global, want)));
    }
  }

  /** `distribute_window` hands out only what it takes from the global window, never leaves window and
      requests both waiting, and keeps everything else. */
  lemma {:induction false} DistributeKeeps(b: Balance, c: Conn, mail: seq<Mail>)
    requires Undistributed(c) && MailsOk(mail)
    requires Distribute(c, mail).Some?
    ensures var (c', mail') := Distribute(c, mail).value;
            && ConnOk(c')
            && Follows(c, mail, c', mail')
            && Held(b, c', mail') == Held(b, c, mail)
    decreases |c.pending|, if c.global > 0 then 1 else 0
  {
    if c.global > 0 && c.pending != [] {
      ServeHeadKeeps(b, c, mail);
      var (c1, mail1) := ServeHead(c, mail).value;
      DistributeKeeps(b, c1, mail1);
    }
  }

  predicate MailsOk(mail: seq<Mail>) {
    forall k :: 0 <= k < |mail| ==> MailOk(mail[k])
  }

  /** What one arm of the main loop adds to a balance, besides what it writes to the wire. */
  predicate Keeps(b: Balance, c: Conn, mail: seq<Mail>, o: ConnOut, gain: int) {
    o.Go? ==>
      && ConnOk(o.conn)
      && Follows(c, mail, o.conn, o.mail)
      && Held(b, o.conn, o.mail) + Sum(o.out, WireIn(b)) == Held(b, c, mail) + gain
  }

  lemma NoData(b: Balance, out: seq<WireFrame>)
    requires forall f :: f in out ==> !f.WData?
    ensures Sum(out, WireIn(b)) == 0
  {
    SumZero(out, WireIn(b));
  }

  lemma DistributedKeeps(b: Balance, c: Conn, mail: seq<Mail>, out: seq<WireFrame>)
    requires Undistributed(c) && MailsOk(mail)
    requires forall f :: f in out ==> !f.WData?
    ensures Keeps(b, c, mail, Distributed(c, mail, out), 0)
  {
    NoData(b, out);
    if Distribute(c, mail).Some? {
      DistributeKeeps(b, c, mail);
    }
  }

  lemma AddGlobalKeeps(b: Balance, c: Conn, mail: seq<Mail>, amount: i32)
    requires ConnOk(c) && MailsOk(mail) && amount >= 0
    ensures Keeps(b, c, mail, AddGlobal(c, mail, amount), if b.SendWindow? then amount else 0)
  {
    var g := CheckedAdd(c.global, amount);
    if g.Some? {
      DistributedKeeps(b, c.(global := g.value), mail, []);
    }
  }

  lemma StreamFailedKeeps(b: Balance, c: Conn, mail: seq<Mail>, error: H2Error, id: u32)
    requires ConnOk(c) && MailsOk(mail)
    ensures Keeps(b, c, mail, StreamFailed(c, mail, error, id), 0)
    ensures StreamFailed(c, mail, error, id).Go? ==>
              forall f :: f in StreamFailed(c, mail, error, id).out ==> !f.WData?
  {
    var o := StreamFailed(c, mail, error, id);
    if o.Go? {
      NoData(b, o.out);
      if id in c.streams && Send(mail, c.streams[id].task, Reset).Some? {
        SendHeld(b, c, mail, c.streams[id].task, Reset);
      }
    }
  }

  lemma OnDataKeeps(b: Balance, c: Conn, mail: seq<Mail>, id: u32, data: seq<byte>)
    requires ConnOk(c) && MailsOk(mail)
    ensures Keeps(b, c, mail, OnData(c, mail, id, data), 0)
  {
    if OnData(c, mail, id, data).Go? {
      SendHeld(b, c, mail, c.streams[id].task, RequestBody(data));
    }
  }

  lemma OnSettingsKeeps(b: Balance, c: Conn, mail: seq<Mail>, frame: Settings.SettingsFrame)
    requires ConnOk(c) && MailsOk(mail)
    ensures Keeps(b, c, mail, OnSettings(c, mail, frame), 0)
  {
    var o := OnSettings(c, mail, frame);
    if o.Go? {
      BroadcastKeeps(b, mail, Targets(c.streams), Settings.Apply(c.remote, frame).1.value);
      BroadcastFollows(c, mail, o.conn, o.mail, Settings.Apply(c.remote, frame).1.value);
      NoData(b, o.out);
    }
  }

  lemma BroadcastFollows(c: Conn, mail: seq<Mail>, c': Conn, mail': seq<Mail>, dif: i32)
    requires c'.streams == c.streams && mail' == Broadcast(mail, Targets(c.streams), WindowUpdate(dif))
    requires MailsOk(mail')
    ensures Follows(c, mail, c', mail')
  {
  }

  /** Changes of stream windows weigh nothing in any balance. */
  lemma BroadcastKeeps(b: Balance, mail: seq<Mail>, to: set<nat>, dif: i32)
    requires MailsOk(mail) && forall k :: k in to ==> k < |mail| && mail[k].open
    ensures var m := Broadcast(mail, to, WindowUpdate(dif)); MailsOk(m) && Sum(m, MailIn(b)) == Sum(mail, MailIn(b))
  {
    var m := Broadcast(mail, to, WindowUpdate(dif));
    forall k | 0 <= k < |mail|
      ensures MailIn(b)(m[k]) == MailIn(b)(mail[k])
      ensures MailOk(m[k])
    {
      if k in to {
        ChangeWeighsNothing(b, mail[k], dif);
      }
    }
    SumPointwise(m, mail, MailIn(b));
  }

  lemma ChangeWeighsNothing(b: Balance, m: Mail, dif: i32)
    requires MailOk(m) && m.open
    ensures MailOk(m.Push(WindowUpdate(dif))) && MailIn(b)(m.Push(WindowUpdate(dif))) == MailIn(b)(m)
  {
    SumPush(m.msgs, WindowUpdate(dif), MsgIn(b));
  }

  lemma OnWindowUpdateKeeps(b: Balance, c: Conn, mail: seq<Mail>, id: u32, amount: i32)
    requires ConnOk(c) && MailsOk(mail) && amount >= 0
    ensures Keeps(b, c, mail, OnWindowUpdate(c, mail, id, amount), if b.SendWindow? && id == 0 then amount else 0)
  {
    if id == 0 {
      AddGlobalKeeps(b, c, mail, amount);
    } else if id !in c.streams {
      DistributedKeeps(b, c, mail, []);
    } else if Send(mail, c.streams[id].task, WindowUpdate(amount)).Some? {
      StreamUpdateKeeps(b, c, mail, id, amount);
    } else {
      var o := StreamFailed(c, mail, StreamError(StreamClosedError), id);
      StreamFailedKeeps(b, c, mail, StreamError(StreamClosedError), id);
      DistributedKeeps(b, o.conn, o.mail, o.out);
    }
  }

  /** WINDOW_UPDATE for a stream that runs. */
  lemma StreamUpdateKeeps(b: Balance, c: Conn, mail: seq<Mail>, id: u32, amount: i32)
    requires ConnOk(c) && MailsOk(mail) && id in c.streams && id != 0
    requires Send(mail, c.streams[id].task, WindowUpdate(amount)).Some?
    ensures Keeps(b, c, mail, OnWindowUpdate(c, mail, id, amount), 0)
  {
    var k := c.streams[id].task;
    var sent := Send(mail, k, WindowUpdate(amount)).value;
    SendHeld(b, c, mail, k, WindowUpdate(amount));
    var noted := sent[k := NoteIncrement(sent[k], amount)];
    SumPointwise(noted, sent, MailIn(b));
    DistributedKeeps(b, c, noted, []);
  }

  lemma OnShutdownKeeps(b: Balance, c: Conn, mail: seq<Mail>)
    requires ConnOk(c) && MailsOk(mail)
    ensures Keeps(b, c, mail, OnShutdown(c, mail), 0)
  {
    if c.open != 0 {
      NoData(b, OnShutdown(c, mail).out);
    }
  }

  lemma CountClosedKeeps(b: Balance, c: Conn, mail: seq<Mail>, o: ConnOut, id: u32)
    requires Keeps(b, c, mail, o, 0)
    ensures Keeps(b, c, mail, CountClosed(o, id), if b.OpenCount? then 1 else 0)
  {
    if o.Go? && CountClosed(o, id).Go? {
      CloseFollows(c, mail, o.conn, o.mail, CountClosed(o, id).conn, id);
    }
  }

  /** A stream that closes changes the count and one mark. */
  lemma CloseFollows(c: Conn, mail: seq<Mail>, c1: Conn, mail1: seq<Mail>, c2: Conn, id: u32)
    requires Follows(c, mail, c1, mail1)
    requires c2 == c1.(open := c2.open, streams := c2.streams)
    requires c2.streams == if id in c1.streams then c1.streams[id := c1.streams[id].(closed := true)] else c1.streams
    ensures Follows(c, mail, c2, mail1)
  {
  }

  lemma OnStreamClosingKeeps(b: Balance, c: Conn, mail: seq<Mail>, id: u32, error: Option<H2Error>)
    requires ConnOk(c) && MailsOk(mail)
    ensures Keeps(b, c, mail, OnStreamClosing(c, mail, id, error), if b.OpenCount? then 1 else 0)
  {
    if error.Some? {
      StreamFailedKeeps(b, c, mail, error.value, id);
      CountClosedKeeps(b, c, mail, StreamFailed(c, mail, error.value, id), id);
    } else {
      CountClosedKeeps(b, c, mail, Go(c, mail, []), id);
    }
  }

  lemma OnUpdatePeerWindowKeeps(b: Balance, c: Conn, mail: seq<Mail>, id: u32, amount: i32)
    requires ConnOk(c) && MailsOk(mail)
    ensures Keeps(b, c, mail, OnUpdatePeerWindow(c, mail, id, amount), if b.BodyCredit? then amount else 0)
  {
    var o := OnUpdatePeerWindow(c, mail, id, amount);
    if o.Go? {
      NoData(b, o.out);
    }
  }

  lemma OnRequestKeeps(b: Balance, c: Conn, mail: seq<Mail>, r: ConnReq)
    requires ConnOk(c) && MailsOk(mail) && ReqOk(r)
    ensures Keeps(b, c, mail, OnRequest(c, mail, r), ReqWeight(b, r))
  {
    match r
    case Frame(id, endStream, data) => SumOne(WData(id, endStream, data), WireIn(b));
    case Response(id, endStream) => NoData(b, OnRequest(c, mail, r).out);
    case GetWindow(id, amount) => DistributedKeeps(b, c.(pending := c.pending + [(id, amount)]), mail, []);
    case PutWindow(amount) => AddGlobalKeeps(b, c, mail, amount);
    case UpdatePeerWindow(id, amount) => OnUpdatePeerWindowKeeps(b, c, mail, id, amount);
    case StreamClosing(id, error) => OnStreamClosingKeeps(b, c, mail, id, error);
    case StreamClosed(id) =>
  }

  /** The refusals among the HEADERS outcomes; a spawn is treated by `SpawnKeeps`. */
  lemma OnHeadersKeeps(b: Balance, cfg: Config, c: Conn, mail: seq<Mail>, id: u32, parse: HeaderParse)
    requires ConnOk(c) && MailsOk(mail)
    ensures var o := OnHeaders(cfg, c, mail, id, parse);
            !Spawned(mail, o) ==> Keeps(b, c, mail, o, 0)
  {
    var o := OnHeaders(cfg, c, mail, id, parse);
    StreamFailedKeeps(b, c, mail, StreamError(RefusedStream), id);
    if parse.Refused? {
      StreamFailedKeeps(b, c, mail, parse.error, id);
    }
  }

  // ---------- steps of a stream task ----------

  function LostBy(b: Balance, o: TaskOut): int {
    match b
    case SendWindow => o.lostWindow
    case BodyCredit => o.lostCredit
    case OpenCount => 0
  }

  /** What a step of a task adds to a balance, besides what it sends and drops. */
  predicate TaskKeeps(b: Balance, t: Task, o: TaskOut, gain: int) {
    && TaskOk(o.task)
    && o.task.id == t.id
    && (forall r :: r in o.out ==> ReqOk(r))
    && o.lostWindow >= 0
    && o.lostCredit >= 0
    && TaskWeight(b, o.task) + Sum(o.out, ReqIn(b)) + LostBy(b, o) == TaskWeight(b, t) + gain
  }

  lemma OneRequest(b: Balance, o: TaskOut)
    requires |o.out| <= 1
    ensures Sum(o.out, ReqIn(b)) == if o.out == [] then 0 else ReqWeight(b, o.out[0])
  {
    if o.out != [] {
      assert o.out == [o.out[0]];
      SumOne(o.out[0], ReqIn(b));
    }
  }

  lemma HandleReqKeeps(b: Balance, t: Task, m: StreamReq, delivered: bool)
    requires TaskOk(t) && MsgOk(m) && Selecting(t)
    ensures TaskKeeps(b, t, HandleReq(t, m, delivered), MsgWeight(b, m))
    ensures !HandleReq(t, m, delivered).task.phase.Done?
  {
    if m.RequestBody? {
      BodyReqKeeps(b, t, m.data, delivered);
    } else {
      OtherReqKeeps(b, t, m, delivered);
    }
  }

  lemma OtherReqKeeps(b: Balance, t: Task, m: StreamReq, delivered: bool)
    requires TaskOk(t) && MsgOk(m) && Selecting(t) && !m.RequestBody?
    ensures TaskKeeps(b, t, HandleReq(t, m, delivered), MsgWeight(b, m))
    ensures !HandleReq(t, m, delivered).task.phase.Done?
  {
    assert HandleReq(t, m, delivered).out == [];
  }

  lemma BodyReqKeeps(b: Balance, t: Task, data: seq<byte>, delivered: bool)
    requires TaskOk(t) && MsgOk(RequestBody(data)) && Selecting(t)
    ensures TaskKeeps(b, t, HandleReq(t, RequestBody(data), delivered), MsgWeight(b, RequestBody(data)))
    ensures !HandleReq(t, RequestBody(data), delivered).task.phase.Done?
  {
    if t.body.Some? && |data| <= I32_MAX && |data| <= t.peerWindow && delivered {
      QueuedKeeps(b, t, data);
    } else {
      NotQueuedKeeps(b, t, data, delivered);
    }
  }

  /** Data that ends the task, or comes back. */
  lemma NotQueuedKeeps(b: Balance, t: Task, data: seq<byte>, delivered: bool)
    requires TaskOk(t) && MsgOk(RequestBody(data)) && Selecting(t)
    requires t.body.None? || |data| > I32_MAX || |data| > t.peerWindow || !delivered
    ensures TaskKeeps(b, t, HandleReq(t, RequestBody(data), delivered), MsgWeight(b, RequestBody(data)))
    ensures !HandleReq(t, RequestBody(data), delivered).task.phase.Done?
  {
    if t.body.Some? && |data| <= I32_MAX && |data| <= t.peerWindow {
      TurnedKeeps(b, t, data);
    }
  }

  lemma TurnedKeeps(b: Balance, t: Task, data: seq<byte>)
    requires TaskOk(t) && Selecting(t) && t.body.Some? && |data| <= I32_MAX && |data| <= t.peerWindow
    ensures TaskKeeps(b, t, HandleReq(t, RequestBody(data), false), MsgWeight(b, RequestBody(data)))
    ensures !HandleReq(t, RequestBody(data), false).task.phase.Done?
  {
    SumOne(UpdatePeerWindow(t.id, |data|), ReqIn(b));
  }

  /** Data that goes into the channel of the body. */
  lemma QueuedKeeps(b: Balance, t: Task, data: seq<byte>)
    requires TaskOk(t) && MsgOk(RequestBody(data)) && Selecting(t)
    requires t.body.Some? && |data| <= I32_MAX && |data| <= t.peerWindow
    ensures TaskKeeps(b, t, HandleReq(t, RequestBody(data), true), MsgWeight(b, RequestBody(data)))
    ensures !HandleReq(t, RequestBody(data), true).task.phase.Done?
  {
    SumPush(t.body.value.queue, data, Length);
    OneRequest(b, HandleReq(t, RequestBody(data), true));
  }

  lemma TakeCreditKeeps(b: Balance, t: Task)
    requires TaskOk(t) && Selecting(t) && HasCredit(t)
    ensures TaskKeeps(b, t, TakeCredit(t), 0)
    ensures !TakeCredit(t).task.phase.Done?
  {
    OneRequest(b, TakeCredit(t));
    FewerCredits(t.body.value);
  }

  lemma FewerCredits(d: Body)
    requires BodyOk(d) && d.credits != []
    ensures BodyOk(d.(credits := d.credits[1..])) && d.credits[0] >= 0
    ensures Outstanding(Some(d)) == Outstanding(Some(d.(credits := d.credits[1..]))) + d.credits[0]
  {
    assert d.credits[0] in d.credits;
    assert forall a :: a in d.credits[1..] ==> a in d.credits;
  }

  lemma RespondKeeps(b: Balance, t: Task, withBody: bool)
    requires TaskOk(t) && t.phase.Handling?
    ensures TaskKeeps(b, t, Respond(t, withBody), 0)
  {
    OneRequest(b, Respond(t, withBody));
  }

  lemma ReadChunkKeeps(b: Balance, t: Task, chunk: seq<byte>)
    requires TaskOk(t) && t.phase.BodyIdle? && |chunk| <= MAX_CHUNK
    ensures TaskKeeps(b, t, ReadChunk(t, chunk), 0)
  {
    OneRequest(b, ReadChunk(t, chunk));
  }

  lemma AskKeeps(b: Balance, t: Task)
    requires TaskOk(t) && t.phase.Top?
    ensures TaskKeeps(b, t, Ask(t), 0)
  {
    OneRequest(b, Ask(t));
  }

  lemma EmitKeeps(b: Balance, t: Task)
    requires TaskOk(t) && t.phase.Asked?
    ensures TaskKeeps(b, t, Emit(t), 0)
  {
    OneRequest(b, Emit(t));
  }

  lemma ExitKeeps(b: Balance, t: Task)
    requires TaskOk(t)
    ensures t.phase.Leaving? ==> TaskKeeps(b, t, GiveBack(t), 0)
    ensures t.phase.Closing? ==> TaskKeeps(b, t, AnnounceClosing(t), 0)
    ensures t.phase.Closed? ==> TaskKeeps(b, t, AnnounceClosed(t), 0)
  {
    if t.phase.Leaving? {
      OneRequest(b, GiveBack(t));
    } else if t.phase.Closing? {
      OneRequest(b, AnnounceClosing(t));
    } else if t.phase.Closed? {
      OneRequest(b, AnnounceClosed(t));
    }
  }

  /** A request body only moves bytes between its queue, the chunk in hand and its credits. */
  predicate BodyKeeps(d: Body, d': Body) {
    BodyOk(d') && Outstanding(Some(d')) == Outstanding(Some(d))
  }

  lemma HandOutKeeps(d: Body, c: Cur, room: nat)
    requires BodyOk(d) && d.cur.None? && c.total <= I32_MAX
    ensures BodyOk(HandOut(d, c, room))
    ensures Outstanding(Some(HandOut(d, c, room))) == Outstanding(Some(d)) + c.total
  {
    SumPush<i32>(d.credits, c.total, Amount);
  }

  lemma PollBodyKeeps(d: Body, room: nat)
    requires BodyOk(d)
    ensures BodyKeeps(d, PollBody(d, room))
  {
    if d.cur.Some? && d.cur.value.rest != [] {
      HandOutKeeps(d.(cur := None), d.cur.value, room);
    } else {
      var d1 := if d.cur.Some? then Issue(d.(cur := None), d.cur.value.total) else d;
      if d.cur.Some? {
        SumPush<i32>(d.credits, d.cur.value.total, Amount);
      }
      if d1.queue != [] && d1.queue[0] != [] {
        HandOutKeeps(d1.(queue := d1.queue[1..]), Cur(|d1.queue[0]|, d1.queue[0]), room);
      }
    }
  }

  lemma DropBodyKeeps(d: Body)
    requires BodyOk(d)
    ensures BodyKeeps(d, DropBody(d))
  {
    if d.cur.Some? {
      SumPush<i32>(d.credits, d.cur.value.total, Amount);
    }
  }

  lemma DrainBodyKeeps(d: Body)
    requires BodyOk(d) && d.queue != []
    ensures BodyKeeps(d, DrainBody(d))
  {
    SumPush<i32>(d.credits, |d.queue[0]|, Amount);
  }

  // ---------- every step ----------

  /** The state keeps its shape, and a balance changes only by what the peer supplied. */
  predicate StepKeeps(b: Balance, cfg: Config, s: State, s': State) {
    && WellFormed(s')
    && Total(b, s') - Supply(b, cfg, s') == Total(b, s) - Supply(b, cfg, s)
  }

  lemma ConnMoveKeeps(b: Balance, s: State, o: ConnOut, gain: int)
    requires WellFormed(s) && o.Go?
    requires Keeps(b, s.conn, s.mail, o, gain)
    ensures WellFormed(ConnMove(s, o, []).state)
    ensures Total(b, ConnMove(s, o, []).state) == Total(b, s) + gain
  {
    assert s.tasks + [] == s.tasks;
    SumAppend(s.wire, o.out, WireIn(b));
  }

  lemma TaskMoveKeeps(b: Balance, s: State, k: nat, mail: Mail, o: TaskOut, gain: int)
    requires WellFormed(s) && k < |s.tasks|
    requires TaskKeeps(b, s.tasks[k], o, gain)
    requires MailOk(mail) && mail.open == !o.task.phase.Done?
    requires MailIn(b)(mail) == MailIn(b)(s.mail[k]) - gain
    ensures var s' := TaskMove(s.(mail := s.mail[k := mail]), k, o);
            WellFormed(s') && Total(b, s') == Total(b, s)
  {
    TaskMoveShape(b, s, k, mail, o, gain);
    SumUpdate(s.tasks, k, o.task, TaskIn(b));
    SumUpdate(s.mail, k, mail, MailIn(b));
    SumAppend(s.requests, o.out, ReqIn(b));
  }

  lemma TaskMoveShape(b: Balance, s: State, k: nat, mail: Mail, o: TaskOut, gain: int)
    requires WellFormed(s) && k < |s.tasks| && TaskKeeps(b, s.tasks[k], o, gain)
    requires MailOk(mail) && mail.open == !o.task.phase.Done?
    ensures WellFormed(TaskMove(s.(mail := s.mail[k := mail]), k, o))
  {
  }

  lemma QuietMoveKeeps(b: Balance, s: State, k: nat, o: TaskOut)
    requires WellFormed(s) && k < |s.tasks|
    requires TaskKeeps(b, s.tasks[k], o, 0)
    requires !o.task.phase.Done? && s.mail[k].open
    ensures WellFormed(TaskMove(s, k, o)) && Total(b, TaskMove(s, k, o)) == Total(b, s)
  {
    assert s.mail[k := s.mail[k]] == s.mail;
    TaskMoveKeeps(b, s, k, s.mail[k], o, 0);
  }

  lemma SpawnShape(cfg: Config, c: Conn, mail: seq<Mail>, id: u32, parse: HeaderParse)
    requires Spawned(mail, OnHeaders(cfg, c, mail, id, parse))
    ensures var o := OnHeaders(cfg, c, mail, id, parse);
            && o.out == []
            && o.conn == c.(biggest := Max(id, c.biggest), open := o.conn.open,
                          streams := c.streams[id := Handle(|mail|, false)])
            && o.conn.open == c.open + 1
            && o.mail == mail + [NewMail(c.remote.initialWindowSize)]
            && id % 2 == 1
            && (id in c.streams || c.biggest < id)
            && !c.draining
            && (cfg.maxStreams.Some? ==> c.open < cfg.maxStreams.value)
  {
  }

  /** The state after a spawn, field by field. */
  lemma SpawnedState(cfg: Config, s: State, id: u32, parse: HeaderParse, hasBody: bool)
    requires Spawned(s.mail, OnHeaders(cfg, s.conn, s.mail, id, parse))
    ensures var o := Step(cfg, s, PeerHeaders(id, parse, hasBody));
            && s.conn.remote.initialWindowSize <= I32_MAX
            && cfg.localInitialWindow <= I32_MAX
            && o.Running?
            && o.state.requests == s.requests && o.state.wire == s.wire
            && o.state.tasks == s.tasks
                                + [NewTask(id, s.conn.remote.initialWindowSize, cfg.localInitialWindow, hasBody)]
            && o.state.mail == s.mail + [NewMail(s.conn.remote.initialWindowSize)]
            && o.state.conn == s.conn.(biggest := Max(id, s.conn.biggest), open := o.state.conn.open,
                                       streams := s.conn.streams[id := Handle(|s.mail|, false)])
            && o.state.conn.open == s.conn.open + 1
            && (!o.state.reopened ==> !s.reopened && s.conn.biggest < id)
            && (o.state.reopened ==> s.reopened || id in s.conn.streams)
            && (id in s.conn.streams || s.conn.biggest < id)
            && id % 2 == 1
            && o.state.lostWindow == s.lostWindow && o.state.lostCredit == s.lostCredit
            && o.state.increments == s.increments
  {
    SpawnShape(cfg, s.conn, s.mail, id, parse);
  }

  /** A fresh task and its empty mailbox join the state. */
  predicate Joined(s: State, s': State, t: Task, m: Mail) {
    && s'.tasks == s.tasks + [t] && s'.mail == s.mail + [m]
    && s'.requests == s.requests && s'.wire == s.wire
    && s'.lostWindow == s.lostWindow && s'.lostCredit == s.lostCredit
    && m.open && m.msgs == [] && !t.phase.Done?
  }

  lemma JoinedShape(s: State, s': State, t: Task, m: Mail)
    requires WellFormed(s) && ConnOk(s'.conn) && Joined(s, s', t, m) && TaskOk(t)
    requires HandlesOk(s'.conn.streams, s'.tasks)
    ensures WellFormed(s')
  {
  }

  lemma JoinedTotal(b: Balance, s: State, s': State, t: Task, m: Mail)
    requires Joined(s, s', t, m)
    ensures Total(b, s') == Total(b, s) + TaskWeight(b, t) + ConnWeight(b, s'.conn) - ConnWeight(b, s.conn)
  {
    SumPush(s.tasks, t, TaskIn(b));
    SumPush(s.mail, m, MailIn(b));
  }

  lemma SpawnedShape(s: State, s': State, id: u32, t: Task, m: Mail)
    requires WellFormed(s) && Joined(s, s', t, m) && TaskOk(t) && t.id == id
    requires s'.conn == s.conn.(biggest := s'.conn.biggest, open := s'.conn.open,
                                streams := s.conn.streams[id := Handle(|s.mail|, false)])
    ensures WellFormed(s')
  {
    forall i | i in s'.conn.streams
      ensures var k := s'.conn.streams[i].task; k < |s'.tasks| && s'.tasks[k].id == i
    {
      assert i != id ==> i in s.conn.streams;
    }
    JoinedShape(s, s', t, m);
  }

  lemma SpawnKeeps(b: Balance, cfg: Config, s: State, id: u32, parse: HeaderParse, hasBody: bool)
    requires WellFormed(s) && Spawned(s.mail, OnHeaders(cfg, s.conn, s.mail, id, parse))
    ensures StepKeeps(b, cfg, s, Step(cfg, s, PeerHeaders(id, parse, hasBody)).state)
  {
    SpawnedState(cfg, s, id, parse, hasBody);
    var window := s.conn.remote.initialWindowSize;
    var t := NewTask(id, window, cfg.localInitialWindow, hasBody);
    var s' := Step(cfg, s, PeerHeaders(id, parse, hasBody)).state;
    SpawnedShape(s, s', id, t, NewMail(window));
    SpawnedBalance(b, cfg, s, s', t, NewMail(window));
  }

  lemma SpawnedBalance(b: Balance, cfg: Config, s: State, s': State, t: Task, m: Mail)
    requires Joined(s, s', t, m) && t.available == 0 && Outstanding(t.body) == 0 && s'.increments == s.increments
    requires t.phase.Handling? && s'.conn.open == s.conn.open + 1
    requires s'.conn.global == s.conn.global && s'.conn.peer == s.conn.peer
    ensures Total(b, s') - Supply(b, cfg, s') == Total(b, s) - Supply(b, cfg, s)
  {
    JoinedTotal(b, s, s', t, m);
  }

  lemma {:induction false} SumsAgree(msgs: seq<StreamReq>)
    ensures Sum(msgs, WindowIn) == Sum(msgs, MsgIn(SendWindow))
    ensures Sum(msgs, BodyIn) == Sum(msgs, MsgIn(BodyCredit))
    ensures Sum(msgs, MsgIn(OpenCount)) == 0
  {
    if msgs != [] {
      SumsAgree(msgs[1..]);
    }
  }

  lemma LossesNonNegative(m: Mail, t: Task)
    requires MailOk(m) && TaskOk(t)
    ensures Sum(m.msgs, WindowIn) >= 0 && Sum(m.msgs, BodyIn) >= 0 && Outstanding(t.body) >= 0
  {
    SumNonNegative(m.msgs, WindowIn);
    SumNonNegative(m.msgs, BodyIn);
    if t.body.Some? {
      SumNonNegative(t.body.value.queue, Length);
      SumNonNegative<i32>(t.body.value.credits, Amount);
    }
  }

  /** The losses of a dropped task are what its mailbox and its body still held. */
  lemma GoneKeeps(b: Balance, t: Task, m: Mail)
    requires TaskOk(t) && t.phase.Dropping? && MailOk(m)
    ensures TaskKeeps(b, t, Gone(t, m), MailIn(b)(m))
  {
    SumsAgree(m.msgs);
    LossesNonNegative(m, t);
    OneRequest(b, Gone(t, m));
  }

  lemma DropKeeps(b: Balance, cfg: Config, s: State, k: nat)
    requires WellFormed(s) && k < |s.tasks| && s.tasks[k].phase.Dropping?
    ensures StepKeeps(b, cfg, s, Drop(s, k))
  {
    GoneKeeps(b, s.tasks[k], s.mail[k]);
    TaskMoveKeeps(b, s, k, s.mail[k].(open := false, msgs := []), Gone(s.tasks[k], s.mail[k]), MailIn(b)(s.mail[k]));
  }

  lemma RunTaskKeeps(b: Balance, cfg: Config, s: State, k: nat)
    requires WellFormed(s) && k < |s.tasks| && RunTask(s, k).Running?
    ensures StepKeeps(b, cfg, s, RunTask(s, k).state)
  {
    var t := s.tasks[k];
    match t.phase
    case Top => AskKeeps(b, t); QuietMoveKeeps(b, s, k, Ask(t));
    case Asked => EmitKeeps(b, t); QuietMoveKeeps(b, s, k, Emit(t));
    case Leaving(_) => ExitKeeps(b, t); QuietMoveKeeps(b, s, k, GiveBack(t));
    case Closing(_) => ExitKeeps(b, t); QuietMoveKeeps(b, s, k, AnnounceClosing(t));
    case Closed(_) => ExitKeeps(b, t); QuietMoveKeeps(b, s, k, AnnounceClosed(t));
    case Dropping(_) => DropKeeps(b, cfg, s, k);
    case _ =>
  }

  lemma MoveBodyKeeps(b: Balance, cfg: Config, s: State, k: nat, d: Body)
    requires WellFormed(s) && HasBody(s, k) && BodyKeeps(s.tasks[k].body.value, d)
    ensures StepKeeps(b, cfg, s, MoveBody(s, k, d).state)
  {
    MoveBodyShape(s, k, d);
    SumUpdate(s.tasks, k, s.tasks[k].(body := Some(d)), TaskIn(b));
  }

  lemma MoveBodyShape(s: State, k: nat, d: Body)
    requires WellFormed(s) && HasBody(s, k) && BodyOk(d)
    ensures WellFormed(MoveBody(s, k, d).state)
  {
    assert TaskOk(s.tasks[k]);
  }

  lemma ConnStepKeeps(b: Balance, cfg: Config, s: State, e: Event)
    requires WellFormed(s) && Step(cfg, s, e).Running?
    requires e.PeerData? || e.PeerSettings? || e.Shutdown?
    ensures StepKeeps(b, cfg, s, Step(cfg, s, e).state)
  {
    match e
    case PeerData(id, data) =>
      OnDataKeeps(b, s.conn, s.mail, id, data);
      ConnMoveKeeps(b, s, OnData(s.conn, s.mail, id, data), 0);
    case PeerSettings(frame) =>
      OnSettingsKeeps(b, s.conn, s.mail, frame);
      ConnMoveKeeps(b, s, OnSettings(s.conn, s.mail, frame), 0);
    case Shutdown =>
      OnShutdownKeeps(b, s.conn, s.mail);
      ConnMoveKeeps(b, s, OnShutdown(s.conn, s.mail), 0);
  }

  lemma WindowUpdateStepKeeps(b: Balance, cfg: Config, s: State, id: u32, amount: i32)
    requires WellFormed(s) && Step(cfg, s, PeerWindowUpdate(id, amount)).Running?
    ensures StepKeeps(b, cfg, s, Step(cfg, s, PeerWindowUpdate(id, amount)).state)
  {
    var gain := if b.SendWindow? && id == 0 then amount else 0;
    OnWindowUpdateKeeps(b, s.conn, s.mail, id, amount);
    ConnMoveKeeps(b, Supplied(s, id, amount), OnWindowUpdate(s.conn, s.mail, id, amount), gain);
  }

  lemma HeadersStepKeeps(b: Balance, cfg: Config, s: State, id: u32, parse: HeaderParse, hasBody: bool)
    requires WellFormed(s) && Step(cfg, s, PeerHeaders(id, parse, hasBody)).Running?
    ensures StepKeeps(b, cfg, s, Step(cfg, s, PeerHeaders(id, parse, hasBody)).state)
  {
    var o := OnHeaders(cfg, s.conn, s.mail, id, parse);
    if Spawned(s.mail, o) {
      SpawnKeeps(b, cfg, s, id, parse, hasBody);
    } else {
      OnHeadersKeeps(b, cfg, s.conn, s.mail, id, parse);
      ConnMoveKeeps(b, s, o, 0);
    }
  }

  lemma RequestStepKeeps(b: Balance, cfg: Config, s: State)
    requires WellFormed(s) && Step(cfg, s, TakeRequest).Running?
    ensures StepKeeps(b, cfg, s, Step(cfg, s, TakeRequest).state)
  {
    var r := s.requests[0];
    var s1 := s.(requests := s.requests[1..]);
    OnRequestKeeps(b, s.conn, s.mail, r);
    ConnMoveKeeps(b, s1, OnRequest(s.conn, s.mail, r), ReqWeight(b, r));
  }

  lemma ReceiveKeeps(b: Balance, cfg: Config, s: State, k: nat, delivered: bool)
    requires WellFormed(s) && Step(cfg, s, TaskReceive(k, delivered)).Running?
    ensures StepKeeps(b, cfg, s, Step(cfg, s, TaskReceive(k, delivered)).state)
  {
    var m := s.mail[k].msgs[0];
    HandleReqKeeps(b, s.tasks[k], m, delivered);
    TaskMoveKeeps(b, s, k, Pop(s.mail[k]), HandleReq(s.tasks[k], m, delivered), MsgWeight(b, m));
  }

  lemma CreditStepKeeps(b: Balance, cfg: Config, s: State, k: nat)
    requires WellFormed(s) && Step(cfg, s, TaskCredit(k)).Running?
    ensures StepKeeps(b, cfg, s, Step(cfg, s, TaskCredit(k)).state)
  {
    TakeCreditKeeps(b, s.tasks[k]);
    QuietMoveKeeps(b, s, k, TakeCredit(s.tasks[k]));
  }

  lemma RespondStepKeeps(b: Balance, cfg: Config, s: State, k: nat, withBody: bool)
    requires WellFormed(s) && Step(cfg, s, TaskRespond(k, withBody)).Running?
    ensures StepKeeps(b, cfg, s, Step(cfg, s, TaskRespond(k, withBody)).state)
  {
    RespondKeeps(b, s.tasks[k], withBody);
    QuietMoveKeeps(b, s, k, Respond(s.tasks[k], withBody));
  }

  lemma ChunkStepKeeps(b: Balance, cfg: Config, s: State, k: nat, chunk: seq<byte>)
    requires WellFormed(s) && Step(cfg, s, TaskChunk(k, chunk)).Running?
    ensures StepKeeps(b, cfg, s, Step(cfg, s, TaskChunk(k, chunk)).state)
  {
    ReadChunkKeeps(b, s.tasks[k], chunk);
    QuietMoveKeeps(b, s, k, ReadChunk(s.tasks[k], chunk));
  }

  lemma FailKeeps(b: Balance, t: Task)
    requires TaskOk(t) && Selecting(t)
    ensures TaskKeeps(b, t, Quiet(Leave(t, Some(StreamError(InternalError)))), 0)
  {
  }

  lemma FailStepKeeps(b: Balance, cfg: Config, s: State, k: nat)
    requires WellFormed(s) && Step(cfg, s, TaskFail(k)).Running?
    ensures StepKeeps(b, cfg, s, Step(cfg, s, TaskFail(k)).state)
  {
    FailKeeps(b, s.tasks[k]);
    QuietMoveKeeps(b, s, k, Quiet(Leave(s.tasks[k], Some(StreamError(InternalError)))));
  }

  /** The three moves of a request body. */
  function MovedBody(b: Body, e: Event): Body
    requires e.BodyPoll? || e.BodyDrop? || (e.BodyDrain? && b.queue != [])
  {
    match e
    case BodyPoll(_, room) => PollBody(b, room)
    case BodyDrop(_) => DropBody(b)
    case BodyDrain(_) => DrainBody(b)
  }

  lemma BodyEnabled(cfg: Config, s: State, e: Event)
    requires WellFormed(s) && Step(cfg, s, e).Running? && (e.BodyPoll? || e.BodyDrop? || e.BodyDrain?)
    ensures HasBody(s, e.k) && e.k < |s.mail| && BodyOk(s.tasks[e.k].body.value)
    ensures s.tasks[e.k].body.value.dropped == e.BodyDrain?
    ensures e.BodyDrain? ==> s.tasks[e.k].body.value.queue != []
    ensures Step(cfg, s, e) == MoveBody(s, e.k, MovedBody(s.tasks[e.k].body.value, e))
  {
    assert TaskOk(s.tasks[e.k]);
  }

  lemma BodyMoveKeeps(b: Body, e: Event)
    requires BodyOk(b) && (e.BodyPoll? || e.BodyDrop? || (e.BodyDrain? && b.queue != []))
    ensures BodyKeeps(b, MovedBody(b, e))
  {
    match e
    case BodyPoll(_, room) => PollBodyKeeps(b, room);
    case BodyDrop(_) => DropBodyKeeps(b);
    case BodyDrain(_) => DrainBodyKeeps(b);
  }

  lemma BodyStepKeeps(b: Balance, cfg: Config, s: State, e: Event)
    requires WellFormed(s) && Step(cfg, s, e).Running?
    requires e.BodyPoll? || e.BodyDrop? || e.BodyDrain?
    ensures StepKeeps(b, cfg, s, Step(cfg, s, e).state)
  {
    BodyEnabled(cfg, s, e);
    BodyMoveKeeps(s.tasks[e.k].body.value, e);
    MoveBodyKeeps(b, cfg, s, e.k, MovedBody(s.tasks[e.k].body.value, e));
  }

  /** Main step theorem: every enabled event keeps the shape of the state and all three balances. */
  lemma EveryStepKeeps(b: Balance, cfg: Config, s: State, e: Event)
    requires WellFormed(s) && Step(cfg, s, e).Running?
    ensures StepKeeps(b, cfg, s, Step(cfg, s, e).state)
  {
    if e.TakeRequest? {
      RequestStepKeeps(b, cfg, s);
    } else if e.TaskReceive? {
      ReceiveKeeps(b, cfg, s, e.k, e.delivered);
    } else if e.TaskCredit? {
      CreditStepKeeps(b, cfg, s, e.k);
    } else if e.TaskRespond? {
      RespondStepKeeps(b, cfg, s, e.k, e.withBody);
    } else if e.TaskChunk? {
      ChunkStepKeeps(b, cfg, s, e.k, e.chunk);
    } else if e.TaskFail? {
      FailStepKeeps(b, cfg, s, e.k);
    } else if e.TaskRun? {
      RunTaskKeeps(b, cfg, s, e.k);
    } else if e.BodyPoll? || e.BodyDrop? || e.BodyDrain? {
      BodyStepKeeps(b, cfg, s, e);
    } else if e.PeerHeaders? {
      HeadersStepKeeps(b, cfg, s, e.id, e.parse, e.hasBody);
    } else if e.PeerWindowUpdate? {
      WindowUpdateStepKeeps(b, cfg, s, e.id, e.amount);
    } else {
      ConnStepKeeps(b, cfg, s, e);
    }
  }

  /** Over every run: what is held, in flight, spent and lost is exactly what was supplied. */
  lemma {:induction false} Conserved(b: Balance, cfg: Config, events: seq<Event>)
    requires cfg.globalWindow >= 0 && Run(cfg, events).Some?
    ensures WellFormed(Run(cfg, events).value)
    ensures Total(b, Run(cfg, events).value) == Supply(b, cfg, Run(cfg, events).value)
    decreases |events|
  {
    if events != [] {
      Conserved(b, cfg, events[..|events| - 1]);
      EveryStepKeeps(b, cfg, Run(cfg, events[..|events| - 1]).value, events[|events| - 1]);
    }
  }
}
