/** The receive side of single streams over every run: the handler reads the peer's DATA in order, and each DATA chunk
    is credited once and in full. */
module RequestRuns {
  import opened Basics
  import opened H2Errors
  import opened H2Types
  import opened ConnSpec
  import opened StreamSpec
  import opened System
  import opened Seqs
  import opened Conservation
  import opened TaskSteps
  import opened StreamRuns
  import opened Credits
  import opened BackgroundRead
  import Settings

  // ---------- what is followed ----------

  function DataTo(i: u32): Event -> seq<seq<byte>> {
    (e: Event) => if e.PeerData? && e.id == i then [e.data] else []
  }

  /** The DATA chunks the peer sent on stream i, in order. */
  function Arrived(events: seq<Event>, i: u32): seq<seq<byte>> {
    FlatMap(events, DataTo(i))
  }

  function ChunkIn(m: StreamReq): seq<seq<byte>> {
    if m.RequestBody? then [m.data] else []
  }

  /** The chunks in a mailbox. */
  function Posted(m: Mail): seq<seq<byte>> {
    FlatMap(m.msgs, ChunkIn)
  }

  function Flat(chunks: seq<seq<byte>>): seq<byte> {
    FlatMap(chunks, Bytes)
  }

  function NonZero(a: int): seq<int> {
    if a == 0 then [] else [a]
  }

  /** What one chunk must be credited with: its length, unless it is empty. */
  function SizeOf(d: seq<byte>): seq<int> {
    NonZero(|d|)
  }

  function Sizes(chunks: seq<seq<byte>>): seq<int> {
    FlatMap(chunks, SizeOf)
  }

  function AmountOf(a: i32): seq<int> {
    NonZero(a)
  }

  function Amounts(credits: seq<i32>): seq<int> {
    FlatMap<i32, int>(credits, AmountOf)
  }

  /** The WINDOW_UPDATE increments written for stream i. */
  function UpdateOn(i: u32): WireFrame -> seq<int> {
    (f: WireFrame) => if f.WWindowUpdate? && f.id == i then NonZero(f.increment) else []
  }

  /** The same on their way to the connection task. */
  function UpdateIn(i: u32): ConnReq -> seq<int> {
    (r: ConnReq) => if r.UpdatePeerWindow? && r.id == i then NonZero(r.amount) else []
  }

  function Updates(s: State, i: u32): seq<int> {
    FlatMap(s.wire, UpdateOn(i)) + FlatMap(s.requests, UpdateIn(i))
  }

  // ---------- one request body ----------

  function SizeInHand(b: Body): seq<int> {
    if b.cur.Some? then NonZero(b.cur.value.total) else []
  }

  /** The credits still to come out of a body: waiting for the stream task, for the chunk in hand, for the queue. */
  function Due(b: Body): seq<int> {
    Amounts(b.credits) + (SizeInHand(b) + Sizes(b.queue))
  }

  lemma IssueDue(b: Body, length: nat)
    requires length <= I32_MAX
    ensures Amounts(Issue(b, length).credits) == Amounts(b.credits) + NonZero(length)
  {
    FlatMapPush<i32, int>(b.credits, length, AmountOf);
  }

  lemma QueueDue(b: Body, data: seq<byte>)
    ensures Due(Queue(b, data)) == Due(b) + SizeOf(data)
  {
    FlatMapPush(b.queue, data, SizeOf);
    Regroup(SizeInHand(b), Sizes(b.queue), SizeOf(data));
    Regroup(Amounts(b.credits), SizeInHand(b) + Sizes(b.queue), SizeOf(data));
  }

  /** A chunk that is handed out, in part or to its end, stays due until it is credited. */
  lemma HandOutDue(b: Body, c: Cur, room: nat)
    requires b.cur.None? && c.total <= I32_MAX
    ensures Due(HandOut(b, c, room)) == Amounts(b.credits) + (NonZero(c.total) + Sizes(b.queue))
  {
    var n := Min(|c.rest|, room);
    if n == |c.rest| {
      IssueDue(b.(log := b.log.(read := b.log.read + c.rest[..n])), c.total);
      Regroup(Amounts(b.credits), NonZero(c.total), Sizes(b.queue));
      assert [] + Sizes(b.queue) == Sizes(b.queue);
    }
  }

  /** A used-up chunk is credited before the next one is taken. */
  lemma UsedUpDue(b: Body)
    requires BodyOk(b) && b.cur.Some?
    ensures Due(Issue(b.(cur := None), b.cur.value.total)) == Due(b)
  {
    IssueDue(b.(cur := None), b.cur.value.total);
    Regroup(Amounts(b.credits), SizeInHand(b), Sizes(b.queue));
    assert [] + Sizes(b.queue) == Sizes(b.queue);
  }

  /** A poll with no chunk in hand takes the next one. */
  lemma NextDue(b: Body, room: nat)
    requires BodyOk(b) && b.cur.None? && b.queue != []
    ensures var next := b.(queue := b.queue[1..]);
            Due(if b.queue[0] == [] then next else HandOut(next, Cur(|b.queue[0]|, b.queue[0]), room)) == Due(b)
  {
    if b.queue[0] != [] {
      HandOutDue(b.(queue := b.queue[1..]), Cur(|b.queue[0]|, b.queue[0]), room);
    }
    assert Sizes(b.queue) == SizeOf(b.queue[0]) + Sizes(b.queue[1..]);
    assert [] + Sizes(b.queue) == Sizes(b.queue);
  }

  lemma PollDue(b: Body, room: nat)
    requires BodyOk(b)
    ensures Due(PollBody(b, room)) == Due(b)
  {
    if b.cur.Some? && b.cur.value.rest != [] {
      HandOutDue(b.(cur := None), b.cur.value, room);
    } else {
      var b1 := if b.cur.Some? then Issue(b.(cur := None), b.cur.value.total) else b;
      if b.cur.Some? {
        UsedUpDue(b);
        assert BodyOk(b1);
      }
      if b1.queue != [] {
        NextDue(b1, room);
      }
    }
  }

  lemma DropDue(b: Body)
    requires BodyOk(b)
    ensures Due(DropBody(b)) == Due(b)
  {
    if b.cur.Some? {
      UsedUpDue(b.(dropped := true));
    }
  }

  lemma DrainDue(b: Body)
    requires BodyOk(b) && b.queue != [] && b.cur.None?
    ensures Due(DrainBody(b)) == Due(b)
  {
    var rest := Sizes(b.queue[1..]);
    IssueDue(b.(queue := b.queue[1..]), |b.queue[0]|);
    Regroup(Amounts(b.credits), SizeOf(b.queue[0]), rest);
    assert [] + rest == rest && [] + (SizeOf(b.queue[0]) + rest) == SizeOf(b.queue[0]) + rest;
  }

  /** What was read is the beginning of the chunks queued, with nothing missing while the body is in use. */
  predicate BodyFlow(b: Body) {
    && b.log.read <= Flat(b.log.queued)
    && (!b.dropped ==> Content(b) == Flat(b.log.queued) && !b.log.turned)
  }

  lemma QueueFlow(b: Body, data: seq<byte>)
    requires BodyFlow(b)
    ensures BodyFlow(Queue(b, data))
  {
    FlatMapPush(b.queue, data, Bytes);
    FlatMapPush(b.log.queued, data, Bytes);
    Regroup(b.log.read + InHand(b), Flat(b.queue), data);
  }

  lemma ReadFirst(b: Body)
    ensures b.log.read <= Content(b)
  {
    Regroup(b.log.read, InHand(b), Flat(b.queue));
  }

  lemma PollFlow(b: Body, room: nat)
    requires BodyFlow(b) && !b.dropped
    ensures BodyFlow(PollBody(b, room)) && PollBody(b, room).log.queued == b.log.queued
  {
    PollInOrder(b, room);
    ReadFirst(PollBody(b, room));
  }

  // ---------- one stream ----------

  /** `under` are the credits given or due, in order, `posted` those of the mailbox, `sizes` all that are to be given:
      each is given at most once, and in order unless a chunk came back; while the stream task runs none is missing. */
  predicate CreditFlow(under: seq<int>, posted: seq<int>, sizes: seq<int>, main: bool, turned: bool) {
    && multiset(under) <= multiset(sizes)
    && (!turned ==> under <= sizes)
    && (main ==> multiset(under + posted) == multiset(sizes))
    && (main && !turned ==> under + posted == sizes)
  }

  lemma SizeArrives(under: seq<int>, posted: seq<int>, sizes: seq<int>, x: seq<int>, main: bool, turned: bool)
    requires CreditFlow(under, posted, sizes, main, turned)
    ensures CreditFlow(under, posted + x, sizes + x, main, turned)
  {
    Regroup(under, posted, x);
  }

  lemma SizeQueued(under: seq<int>, posted: seq<int>, sizes: seq<int>, x: seq<int>, main: bool, turned: bool)
    requires CreditFlow(under, x + posted, sizes, true, turned)
    ensures CreditFlow(under + x, posted, sizes, main, turned)
  {
    Regroup(under, x, posted);
  }

  /** A chunk that comes back is credited ahead of what is due. */
  lemma SizeTurned(given: seq<int>, due: seq<int>, posted: seq<int>, sizes: seq<int>, x: seq<int>, main: bool,
                   turned: bool)
    requires CreditFlow(given + due, x + posted, sizes, true, turned)
    ensures CreditFlow((given + x) + due, posted, sizes, main, true)
  {
    assert multiset((given + x) + due + posted) == multiset(given + due + (x + posted));
  }

  /** What holds of the bytes of a request body. */
  predicate BytesOk(t: Task, m: Mail, arrived: seq<seq<byte>>) {
    t.body.Some? ==>
      && var b := t.body.value;
      && BodyFlow(b)
      && b.log.read <= Flat(arrived)
      && (b.dropped ==> b.cur.None?)
      && (!b.log.turned ==> b.log.queued <= arrived)
      && (!b.log.turned && InMain(t) ==> b.log.queued + Posted(m) == arrived)
  }

  predicate CreditsKept(t: Task, m: Mail, arrived: seq<seq<byte>>, updates: seq<int>) {
    t.body.Some? ==>
      var b := t.body.value;
      CreditFlow(updates + Due(b), Sizes(Posted(m)), Sizes(arrived), InMain(t), b.log.turned)
  }

  /** What holds of a task, its mailbox, the DATA sent to it and the updates sent for it. */
  predicate RequestOk(t: Task, m: Mail, arrived: seq<seq<byte>>, updates: seq<int>) {
    BytesOk(t, m, arrived) && CreditsKept(t, m, arrived, updates)
  }

  lemma {:induction false} FlatPrefix(a: seq<seq<byte>>, b: seq<seq<byte>>)
    ensures Flat(a) <= Flat(a + b)
  {
    FlatMapAppend(a, b, Bytes);
  }

  lemma SizesOut(data: seq<byte>, rest: seq<seq<byte>>)
    ensures Sizes([data] + rest) == SizeOf(data) + Sizes(rest)
  {
    FlatMapAppend([data], rest, SizeOf);
    FlatMapOne(data, SizeOf);
  }

  /** A chunk out of the mailbox goes into the channel of the body. */
  lemma QueueBytes(t: Task, t': Task, m: Mail, m': Mail, data: seq<byte>, arrived: seq<seq<byte>>)
    requires BytesOk(t, m, arrived) && InMain(t) && t.body.Some? && t'.body == Some(Queue(t.body.value, data))
    requires Posted(m) == [data] + Posted(m')
    ensures BytesOk(t', m', arrived)
  {
    var b := t.body.value;
    QueueFlow(b, data);
    Regroup(b.log.queued, [data], Posted(m'));
  }

  lemma QueueCredits(t: Task, t': Task, m: Mail, m': Mail, data: seq<byte>, arrived: seq<seq<byte>>, updates: seq<int>)
    requires CreditsKept(t, m, arrived, updates) && InMain(t) && t.body.Some?
    requires t'.body == Some(Queue(t.body.value, data)) && Posted(m) == [data] + Posted(m')
    ensures CreditsKept(t', m', arrived, updates)
  {
    var b := t.body.value;
    SizesOut(data, Posted(m'));
    QueueDue(b, data);
    Regroup(updates, Due(b), SizeOf(data));
    SizeQueued(updates + Due(b), Sizes(Posted(m')), Sizes(arrived), SizeOf(data), InMain(t'), b.log.turned);
  }

  /** A chunk out of the mailbox comes back and is credited at once. */
  lemma TurnedBytes(t: Task, t': Task, m: Mail, m': Mail, arrived: seq<seq<byte>>)
    requires BytesOk(t, m, arrived) && t.body.Some? && t.body.value.dropped && t'.body == Some(Turned(t.body.value))
    ensures BytesOk(t', m', arrived)
  {
  }

  lemma TurnedCredits(t: Task, t': Task, m: Mail, m': Mail, data: seq<byte>, arrived: seq<seq<byte>>,
                      updates: seq<int>)
    requires CreditsKept(t, m, arrived, updates) && InMain(t) && t.body.Some?
    requires t'.body == Some(Turned(t.body.value)) && Posted(m) == [data] + Posted(m')
    ensures CreditsKept(t', m', arrived, updates + SizeOf(data))
  {
    var b := t.body.value;
    SizesOut(data, Posted(m'));
    SizeTurned(updates, Due(b), Sizes(Posted(m')), Sizes(arrived), SizeOf(data), InMain(t'), b.log.turned);
  }

  /** What becomes of a message: a chunk is queued, or it comes back and is credited, and every other message leaves
      the body alone, as does a chunk that ends the task. */
  predicate Queued(t: Task, x: StreamReq, o: TaskOut) {
    x.RequestBody? && t.body.Some? && o.task.body == Some(Queue(t.body.value, x.data)) && o.out == []
  }

  predicate CameBack(t: Task, x: StreamReq, o: TaskOut) {
    && x.RequestBody? && t.body.Some? && o.task.body == Some(Turned(t.body.value)) && t.body.value.dropped
    && |x.data| <= I32_MAX && o.out == [UpdatePeerWindow(t.id, |x.data|)]
  }

  predicate BodyAlone(t: Task, x: StreamReq, o: TaskOut) {
    o.task.body == t.body && o.out == [] && (InMain(o.task) ==> !x.RequestBody?)
  }

  lemma HandleReceives(t: Task, x: StreamReq, delivered: bool)
    requires Selecting(t) && (delivered || !Listening(t))
    ensures var o := HandleReq(t, x, delivered); Queued(t, x, o) || CameBack(t, x, o) || BodyAlone(t, x, o)
  {
  }

  lemma PostedFirst(m: Mail)
    requires m.msgs != []
    ensures Posted(m) == ChunkIn(m.msgs[0]) + Posted(Pop(m))
  {
  }

  lemma QueuedRequest(t: Task, m: Mail, m': Mail, x: StreamReq, o: TaskOut, arrived: seq<seq<byte>>,
                      updates: seq<int>)
    requires RequestOk(t, m, arrived, updates) && InMain(t) && Posted(m) == ChunkIn(x) + Posted(m')
    requires Queued(t, x, o)
    ensures RequestOk(o.task, m', arrived, updates + FlatMap(o.out, UpdateIn(t.id)))
  {
    QueueBytes(t, o.task, m, m', x.data, arrived);
    QueueCredits(t, o.task, m, m', x.data, arrived, updates);
    assert updates + [] == updates;
  }

  lemma CameBackRequest(t: Task, m: Mail, m': Mail, x: StreamReq, o: TaskOut, arrived: seq<seq<byte>>,
                        updates: seq<int>)
    requires RequestOk(t, m, arrived, updates) && InMain(t) && Posted(m) == ChunkIn(x) + Posted(m')
    requires CameBack(t, x, o)
    ensures RequestOk(o.task, m', arrived, updates + FlatMap(o.out, UpdateIn(t.id)))
  {
    TurnedBytes(t, o.task, m, m', arrived);
    TurnedCredits(t, o.task, m, m', x.data, arrived, updates);
    FlatMapOne(o.out[0], UpdateIn(t.id));
  }

  lemma AloneRequest(t: Task, m: Mail, m': Mail, x: StreamReq, o: TaskOut, arrived: seq<seq<byte>>,
                     updates: seq<int>)
    requires RequestOk(t, m, arrived, updates) && InMain(t) && Posted(m) == ChunkIn(x) + Posted(m')
    requires BodyAlone(t, x, o)
    ensures RequestOk(o.task, m', arrived, updates + FlatMap(o.out, UpdateIn(t.id)))
  {
    assert updates + [] == updates && [] + Posted(m') == Posted(m');
  }

  /** Taking a message out of the mailbox. */
  lemma ReceiveRequest(t: Task, m: Mail, m': Mail, x: StreamReq, o: TaskOut, arrived: seq<seq<byte>>,
                       updates: seq<int>)
    requires RequestOk(t, m, arrived, updates) && InMain(t) && Posted(m) == ChunkIn(x) + Posted(m')
    requires Queued(t, x, o) || CameBack(t, x, o) || BodyAlone(t, x, o)
    ensures RequestOk(o.task, m', arrived, updates + FlatMap(o.out, UpdateIn(t.id)))
  {
    if Queued(t, x, o) {
      QueuedRequest(t, m, m', x, o, arrived, updates);
    } else if CameBack(t, x, o) {
      CameBackRequest(t, m, m', x, o, arrived, updates);
    } else {
      AloneRequest(t, m, m', x, o, arrived, updates);
    }
  }

  // ---------- the connection task ----------

  /** The arm passes no DATA on and gives nothing back to the peer. */
  predicate Quiet(c: Conn, mail: seq<Mail>, o: ConnOut) {
    o.Go? ==>
      && |o.mail| == |mail|
      && (forall k :: 0 <= k < |mail| ==> Posted(o.mail[k]) == Posted(mail[k]))
      && (forall f :: f in o.out ==> !f.WWindowUpdate?)
      && o.conn.biggest == c.biggest
  }

  lemma PushPosted(m: Mail, x: StreamReq)
    ensures Posted(m.Push(x)) == Posted(m) + ChunkIn(x)
  {
    FlatMapPush(m.msgs, x, ChunkIn);
  }

  lemma {:induction false} DistributeQuiet(c: Conn, mail: seq<Mail>)
    requires Distribute(c, mail).Some?
    ensures var (c', mail') := Distribute(c, mail).value; Quiet(c, mail, Go(c', mail', []))
    decreases |c.pending|, if c.global > 0 then 1 else 0
  {
    if c.global > 0 && c.pending != [] {
      var (id, want) := c.pending[0];
      if id in c.streams && c.streams[id].task < |mail| {
        PushPosted(mail[c.streams[id].task], AvailableWindow(Min(c.global, want)));
      }
      var (c1, mail1) := ServeHead(c, mail).value;
      DistributeQuiet(c1, mail1);
    }
  }

  lemma DistributedQuiet(c: Conn, mail: seq<Mail>, out: seq<WireFrame>)
    requires forall f :: f in out ==> !f.WWindowUpdate?
    ensures Quiet(c, mail, Distributed(c, mail, out))
  {
    if Distribute(c, mail).Some? {
      DistributeQuiet(c, mail);
    }
  }

  lemma AddGlobalQuiet(c: Conn, mail: seq<Mail>, amount: i32)
    ensures Quiet(c, mail, AddGlobal(c, mail, amount))
  {
    if CheckedAdd(c.global, amount).Some? {
      DistributedQuiet(c.(global := c.global + amount), mail, []);
    }
  }

  lemma StreamFailedQuiet(c: Conn, mail: seq<Mail>, error: H2Error, id: u32)
    ensures Quiet(c, mail, StreamFailed(c, mail, error, id))
  {
    if id in c.streams && c.streams[id].task < |mail| {
      PushPosted(mail[c.streams[id].task], Reset);
    }
  }

  lemma OnWindowUpdateQuiet(c: Conn, mail: seq<Mail>, id: u32, amount: i32)
    ensures Quiet(c, mail, OnWindowUpdate(c, mail, id, amount))
  {
    if id == 0 {
      AddGlobalQuiet(c, mail, amount);
    } else if id !in c.streams {
      DistributedQuiet(c, mail, []);
    } else {
      var k := c.streams[id].task;
      var sent := Send(mail, k, WindowUpdate(amount));
      if sent.Some? {
        PushPosted(mail[k], WindowUpdate(amount));
        DistributedQuiet(c, sent.value[k := NoteIncrement(sent.value[k], amount)], []);
      } else {
        var o := StreamFailed(c, mail, StreamError(StreamClosedError), id);
        StreamFailedQuiet(c, mail, StreamError(StreamClosedError), id);
        if o.Go? {
          DistributedQuiet(o.conn, o.mail, o.out);
        }
      }
    }
  }

  lemma OnSettingsQuiet(c: Conn, mail: seq<Mail>, frame: Settings.SettingsFrame)
    ensures Quiet(c, mail, OnSettings(c, mail, frame))
  {
    var o := OnSettings(c, mail, frame);
    if o.Go? {
      forall k | 0 <= k < |mail|
        ensures Posted(o.mail[k]) == Posted(mail[k])
      {
        PushPosted(mail[k], WindowUpdate(Settings.Apply(c.remote, frame).1.value));
      }
    }
  }

  lemma OnStreamClosingQuiet(c: Conn, mail: seq<Mail>, id: u32, error: Option<H2Error>)
    ensures Quiet(c, mail, OnStreamClosing(c, mail, id, error))
  {
    if error.Some? {
      StreamFailedQuiet(c, mail, error.value, id);
    }
  }

  /** Every request but a credit is quiet, and a credit is written as its two updates. */
  lemma OnRequestUpdates(c: Conn, mail: seq<Mail>, r: ConnReq, i: u32)
    requires i != 0 && OnRequest(c, mail, r).Go?
    ensures var o := OnRequest(c, mail, r);
            && |o.mail| == |mail|
            && (forall k :: 0 <= k < |mail| ==> Posted(o.mail[k]) == Posted(mail[k]))
            && FlatMap(o.out, UpdateOn(i)) == UpdateIn(i)(r)
            && o.conn.biggest == c.biggest
  {
    var o := OnRequest(c, mail, r);
    if r.UpdatePeerWindow? {
      assert o.out[1..] == [WWindowUpdate(r.id, r.amount)];
      FlatMapOne(WWindowUpdate(r.id, r.amount), UpdateOn(i));
    } else {
      match r {
        case GetWindow(id, amount) => DistributedQuiet(c.(pending := c.pending + [(id, amount)]), mail, []);
        case PutWindow(amount) => AddGlobalQuiet(c, mail, amount);
        case StreamClosing(id, error) => OnStreamClosingQuiet(c, mail, id, error);
        case _ =>
      }
      NoUpdates(o.out, i);
    }
  }

  lemma {:induction false} NoUpdates(out: seq<WireFrame>, i: u32)
    requires forall f :: f in out ==> !f.WWindowUpdate?
    ensures FlatMap(out, UpdateOn(i)) == []
  {
    if out != [] {
      NoUpdates(out[1..], i);
    }
  }

  lemma {:induction false} NotCredited(out: seq<ConnReq>, i: u32)
    requires forall r :: r in out ==> (r.UpdatePeerWindow? ==> r.id != i)
    ensures FlatMap(out, UpdateIn(i)) == []
  {
    if out != [] {
      NotCredited(out[1..], i);
    }
  }

  // ---------- every run ----------

  /** Nothing was received, credited or announced for a stream that was not opened. */
  predicate HeardBelow(events: seq<Event>, s: State) {
    && (forall e :: e in events ==> (e.PeerData? ==> e.id <= s.conn.biggest))
    && (forall r :: r in s.requests ==> (r.UpdatePeerWindow? ==> r.id <= s.conn.biggest))
    && (forall f :: f in s.wire ==> (f.WWindowUpdate? ==> f.id <= s.conn.biggest))
  }

  /** The receive side of task k after these events. */
  predicate RequestAt(events: seq<Event>, s: State, k: nat)
    requires k < |s.tasks| && k < |s.mail|
  {
    RequestOk(s.tasks[k], s.mail[k], Arrived(events, s.tasks[k].id), Updates(s, s.tasks[k].id))
  }

  predicate RequestsOk(events: seq<Event>, s: State) {
    && |s.mail| == |s.tasks|
    && HeardBelow(events, s)
    && forall k :: 0 <= k < |s.tasks| && Alone(s, k) ==> RequestAt(events, s, k)
  }

  lemma OtherEvent(events: seq<Event>, e: Event, i: u32)
    requires e.PeerData? ==> e.id != i
    ensures Arrived(events + [e], i) == Arrived(events, i)
  {
    FlatMapPush(events, e, DataTo(i));
    assert Arrived(events, i) + [] == Arrived(events, i);
  }

  /** The updates for stream i after a step that wrote `out` and took the request `r`, if any. */
  lemma UpdatesWritten(s: State, out: seq<WireFrame>, r: Option<ConnReq>, i: u32)
    requires r.Some? ==> s.requests != [] && s.requests[0] == r.value
    requires FlatMap(out, UpdateOn(i)) == if r.Some? then UpdateIn(i)(r.value) else []
    ensures FlatMap(s.wire + out, UpdateOn(i)) + FlatMap(Rest(s.requests, r), UpdateIn(i)) == Updates(s, i)
  {
    FlatMapAppend(s.wire, out, UpdateOn(i));
    var a, b := FlatMap(s.wire, UpdateOn(i)), FlatMap(out, UpdateOn(i));
    if r.Some? {
      FirstUpdate(s.requests, i);
      Regroup(a, b, FlatMap(s.requests[1..], UpdateIn(i)));
    } else {
      assert a + [] == a;
    }
  }

  lemma FirstUpdate(requests: seq<ConnReq>, i: u32)
    requires requests != []
    ensures FlatMap(requests, UpdateIn(i)) == UpdateIn(i)(requests[0]) + FlatMap(requests[1..], UpdateIn(i))
  {
  }

  /** A move of the connection task that passes no DATA on. */
  lemma ConnRequests(events: seq<Event>, e: Event, s: State, s': State, o: ConnOut, r: Option<ConnReq>)
    requires IdsOk(s) && RequestsOk(events, s) && !e.PeerData? && o.Go?
    requires r.Some? ==> s.requests != [] && s.requests[0] == r.value
    requires s'.tasks == s.tasks && s'.conn == o.conn && s'.mail == o.mail && s'.wire == s.wire + o.out
    requires s'.requests == Rest(s.requests, r)
    requires |o.mail| == |s.mail| && forall k :: 0 <= k < |s.mail| ==> Posted(o.mail[k]) == Posted(s.mail[k])
    requires forall i: u32 :: i != 0 ==> FlatMap(o.out, UpdateOn(i)) == if r.Some? then UpdateIn(i)(r.value) else []
    requires o.conn.biggest == s.conn.biggest
    requires forall f :: f in o.out ==> (f.WWindowUpdate? ==> f.id <= s.conn.biggest)
    ensures RequestsOk(events + [e], s')
  {
    forall k | 0 <= k < |s'.tasks| && Alone(s', k)
      ensures RequestAt(events + [e], s', k)
    {
      SameAlone(s, s', k);
      assert s.tasks[k].id != 0;
      UpdatesWritten(s, o.out, r, s.tasks[k].id);
      ConnAt(events, e, s, s', k);
    }
  }

  lemma ConnAt(events: seq<Event>, e: Event, s: State, s': State, k: nat)
    requires |s.mail| == |s.tasks| == |s'.mail| && s'.tasks == s.tasks && k < |s.tasks|
    requires RequestAt(events, s, k) && !e.PeerData? && Posted(s'.mail[k]) == Posted(s.mail[k])
    requires Updates(s', s.tasks[k].id) == Updates(s, s.tasks[k].id)
    ensures RequestAt(events + [e], s', k)
  {
    OtherEvent(events, e, s.tasks[k].id);
  }

  lemma QuietRequests(events: seq<Event>, e: Event, s: State, s': State, o: ConnOut)
    requires RunOk(s) && RequestsOk(events, s) && !e.PeerData? && o.Go? && Quiet(s.conn, s.mail, o)
    requires s'.tasks == s.tasks && s'.conn == o.conn && s'.mail == o.mail && s'.wire == s.wire + o.out
    requires s'.requests == s.requests
    ensures RequestsOk(events + [e], s')
  {
    forall i: u32 | i != 0
      ensures FlatMap(o.out, UpdateOn(i)) == []
    {
      NoUpdates(o.out, i);
    }
    ConnRequests(events, e, s, s', o, None);
  }

  lemma MoreArrived(t: Task, m: Mail, data: seq<byte>, arrived: seq<seq<byte>>, updates: seq<int>)
    requires RequestOk(t, m, arrived, updates)
    ensures RequestOk(t, m.Push(RequestBody(data)), arrived + [data], updates)
  {
    PushPosted(m, RequestBody(data));
    FlatPrefix(arrived, [data]);
    if t.body.Some? {
      var b := t.body.value;
      Regroup(b.log.queued, Posted(m), [data]);
      FlatMapPush(Posted(m), data, SizeOf);
      FlatMapPush(arrived, data, SizeOf);
      SizeArrives(updates + Due(b), Sizes(Posted(m)), Sizes(arrived), SizeOf(data), InMain(t), b.log.turned);
    }
  }

  /** One stream when DATA comes in for the task `to`. */
  lemma DataAt(events: seq<Event>, s: State, s': State, id: u32, data: seq<byte>, to: nat, k: nat)
    requires |s.mail| == |s.tasks| && k < |s.tasks| && to < |s.tasks| && s.tasks[to].id == id
    requires Alone(s, k) && RequestAt(events, s, k)
    requires s'.tasks == s.tasks && s'.wire == s.wire && s'.requests == s.requests
    requires s'.mail == s.mail[to := s.mail[to].Push(RequestBody(data))]
    ensures RequestAt(events + [PeerData(id, data)], s', k)
  {
    var e := PeerData(id, data);
    if k == to {
      FlatMapPush(events, e, DataTo(id));
      MoreArrived(s.tasks[k], s.mail[k], data, Arrived(events, id), Updates(s, id));
    } else {
      OtherEvent(events, e, s.tasks[k].id);
    }
  }

  lemma DataRequests(cfg: Config, events: seq<Event>, s: State, id: u32, data: seq<byte>)
    requires RunOk(s) && RequestsOk(events, s) && OnData(s.conn, s.mail, id, data).Go?
    ensures var e := PeerData(id, data); RequestsOk(events + [e], Step(cfg, s, e).state)
  {
    var s' := Step(cfg, s, PeerData(id, data)).state;
    assert s'.tasks == s.tasks && s'.wire == s.wire;
    forall k | 0 <= k < |s'.tasks| && Alone(s', k)
      ensures RequestAt(events + [PeerData(id, data)], s', k)
    {
      SameAlone(s, s', k);
      DataAt(events, s, s', id, data, s.conn.streams[id].task, k);
    }
  }

  lemma {:induction false} UnheardOf(events: seq<Event>, wire: seq<WireFrame>, requests: seq<ConnReq>, id: u32)
    requires forall e :: e in events ==> (e.PeerData? ==> e.id < id)
    requires forall r :: r in requests ==> (r.UpdatePeerWindow? ==> r.id < id)
    requires forall f :: f in wire ==> (f.WWindowUpdate? ==> f.id < id)
    ensures Arrived(events, id) == []
    ensures FlatMap(wire, UpdateOn(id)) == [] && FlatMap(requests, UpdateIn(id)) == []
    decreases |events| + |wire| + |requests|
  {
    if events != [] {
      UnheardOf(events[1..], wire, requests, id);
    } else if wire != [] {
      UnheardOf(events, wire[1..], requests, id);
    } else if requests != [] {
      UnheardOf(events, wire, requests[1..], id);
    }
  }

  lemma SpawnRequests(cfg: Config, events: seq<Event>, s: State, id: u32, parse: HeaderParse, hasBody: bool)
    requires RunOk(s) && RequestsOk(events, s) && Spawned(s.mail, OnHeaders(cfg, s.conn, s.mail, id, parse))
    ensures var e := PeerHeaders(id, parse, hasBody); RequestsOk(events + [e], Step(cfg, s, e).state)
  {
    var e := PeerHeaders(id, parse, hasBody);
    SpawnedState(cfg, s, id, parse, hasBody);
    var window := s.conn.remote.initialWindowSize;
    assert id in s.conn.streams ==> s.tasks[s.conn.streams[id].task].id == id;
    JoinedRequests(events, e, s, Step(cfg, s, e).state, NewTask(id, window, cfg.localInitialWindow, hasBody),
                   NewMail(window));
  }

  /** A fresh task with an empty mailbox, for an id not heard of or for that of another task. */
  lemma JoinedRequests(events: seq<Event>, e: Event, s: State, s': State, t: Task, m: Mail)
    requires RequestsOk(events, s) && !e.PeerData? && Joined(s, s', t, m) && (t.body.None? || t.body == Some(NewBody()))
    requires s'.conn.biggest == Max(t.id, s.conn.biggest) && (s.conn.biggest < t.id || Known(s, t.id))
    ensures RequestsOk(events + [e], s')
  {
    forall k | 0 <= k < |s'.tasks| && Alone(s', k)
      ensures RequestAt(events + [e], s', k)
    {
      if k == |s.tasks| {
        NewAlone(s, s', k);
        NewRequest(events, e, s, t, m);
      } else {
        OldAlone(s, s', k);
        assert RequestAt(events, s, k);
        OtherEvent(events, e, s.tasks[k].id);
      }
    }
  }

  lemma NewRequest(events: seq<Event>, e: Event, s: State, t: Task, m: Mail)
    requires HeardBelow(events, s) && !e.PeerData? && s.conn.biggest < t.id && m.msgs == []
    requires t.body.None? || t.body == Some(NewBody())
    ensures RequestOk(t, m, Arrived(events + [e], t.id), Updates(s, t.id))
  {
    OtherEvent(events, e, t.id);
    UnheardOf(events, s.wire, s.requests, t.id);
  }

  lemma HeadersRequests(cfg: Config, events: seq<Event>, s: State, id: u32, parse: HeaderParse, hasBody: bool)
    requires RunOk(s) && RequestsOk(events, s) && Step(cfg, s, PeerHeaders(id, parse, hasBody)).Running?
    ensures var e := PeerHeaders(id, parse, hasBody); RequestsOk(events + [e], Step(cfg, s, e).state)
  {
    var o := OnHeaders(cfg, s.conn, s.mail, id, parse);
    if Spawned(s.mail, o) {
      SpawnRequests(cfg, events, s, id, parse, hasBody);
    } else {
      RefusedQuiet(cfg, s.conn, s.mail, id, parse);
      QuietRequests(events, PeerHeaders(id, parse, hasBody), s, ConnMove(s, o, []).state, o);
    }
  }

  lemma RefusedQuiet(cfg: Config, c: Conn, mail: seq<Mail>, id: u32, parse: HeaderParse)
    requires !Spawned(mail, OnHeaders(cfg, c, mail, id, parse))
    ensures Quiet(c, mail, OnHeaders(cfg, c, mail, id, parse))
  {
    StreamFailedQuiet(c, mail, StreamError(RefusedStream), id);
    if parse.Refused? {
      StreamFailedQuiet(c, mail, parse.error, id);
    }
  }

  lemma SettingsRequests(cfg: Config, events: seq<Event>, s: State, frame: Settings.SettingsFrame)
    requires RunOk(s) && RequestsOk(events, s) && Step(cfg, s, PeerSettings(frame)).Running?
    ensures RequestsOk(events + [PeerSettings(frame)], Step(cfg, s, PeerSettings(frame)).state)
  {
    var o := OnSettings(s.conn, s.mail, frame);
    OnSettingsQuiet(s.conn, s.mail, frame);
    QuietRequests(events, PeerSettings(frame), s, ConnMove(s, o, []).state, o);
  }

  lemma WindowUpdateRequests(cfg: Config, events: seq<Event>, s: State, id: u32, amount: i32)
    requires RunOk(s) && RequestsOk(events, s) && Step(cfg, s, PeerWindowUpdate(id, amount)).Running?
    ensures var e := PeerWindowUpdate(id, amount); RequestsOk(events + [e], Step(cfg, s, e).state)
  {
    var o := OnWindowUpdate(s.conn, s.mail, id, amount);
    OnWindowUpdateQuiet(s.conn, s.mail, id, amount);
    QuietRequests(events, PeerWindowUpdate(id, amount), s, ConnMove(Supplied(s, id, amount), o, []).state, o);
  }

  lemma ShutdownRequests(cfg: Config, events: seq<Event>, s: State)
    requires RunOk(s) && RequestsOk(events, s) && Step(cfg, s, Shutdown).Running?
    ensures RequestsOk(events + [Shutdown], Step(cfg, s, Shutdown).state)
  {
    var o := OnShutdown(s.conn, s.mail);
    QuietRequests(events, Shutdown, s, ConnMove(s, o, []).state, o);
  }

  lemma TakenRequest(cfg: Config, events: seq<Event>, s: State)
    requires RunOk(s) && RequestsOk(events, s) && Step(cfg, s, TakeRequest).Running?
    ensures RequestsOk(events + [TakeRequest], Step(cfg, s, TakeRequest).state)
  {
    var r := s.requests[0];
    var o := OnRequest(s.conn, s.mail, r);
    forall i: u32 | i != 0
      ensures FlatMap(o.out, UpdateOn(i)) == UpdateIn(i)(r)
    {
      OnRequestUpdates(s.conn, s.mail, r, i);
    }
    OnRequestUpdates(s.conn, s.mail, r, 1);
    OnlyCreditsUpdate(s.conn, s.mail, r);
    ConnRequests(events, TakeRequest, s, Step(cfg, s, TakeRequest).state, o, Some(r));
  }

  lemma OnlyCreditsUpdate(c: Conn, mail: seq<Mail>, r: ConnReq)
    requires OnRequest(c, mail, r).Go? && (r.UpdatePeerWindow? ==> r.id <= c.biggest)
    ensures forall f :: f in OnRequest(c, mail, r).out ==> (f.WWindowUpdate? ==> f.id <= c.biggest)
  {
    match r {
      case GetWindow(id, amount) => DistributedQuiet(c.(pending := c.pending + [(id, amount)]), mail, []);
      case PutWindow(amount) => AddGlobalQuiet(c, mail, amount);
      case StreamClosing(id, error) => OnStreamClosingQuiet(c, mail, id, error);
      case _ =>
    }
  }

  // ---------- the stream tasks ----------

  predicate OwnUpdates(id: u32, o: TaskOut) {
    forall r :: r in o.out ==> (r.UpdatePeerWindow? ==> r.id == id)
  }

  lemma OtherAt(events: seq<Event>, e: Event, s: State, k: nat, mail: Mail, o: TaskOut, j: nat)
    requires |s.mail| == |s.tasks| && j < |s.tasks| && k < |s.tasks| && j != k
    requires Alone(s, j) && RequestAt(events, s, j) && !e.PeerData? && OwnUpdates(s.tasks[k].id, o)
    ensures RequestAt(events + [e], TaskMove(s.(mail := s.mail[k := mail]), k, o), j)
  {
    var id := s.tasks[j].id;
    OtherEvent(events, e, id);
    FlatMapAppend(s.requests, o.out, UpdateIn(id));
    NotCredited(o.out, id);
    assert FlatMap(s.requests, UpdateIn(id)) + [] == FlatMap(s.requests, UpdateIn(id));
  }

  lemma OwnAt(events: seq<Event>, e: Event, s: State, k: nat, mail: Mail, o: TaskOut)
    requires |s.mail| == |s.tasks| && k < |s.tasks| && !e.PeerData? && o.task.id == s.tasks[k].id
    requires var id := s.tasks[k].id;
      RequestOk(o.task, mail, Arrived(events, id), Updates(s, id) + FlatMap(o.out, UpdateIn(id)))
    ensures RequestAt(events + [e], TaskMove(s.(mail := s.mail[k := mail]), k, o), k)
  {
    var id := s.tasks[k].id;
    OtherEvent(events, e, id);
    FlatMapAppend(s.requests, o.out, UpdateIn(id));
    Regroup(FlatMap(s.wire, UpdateOn(id)), FlatMap(s.requests, UpdateIn(id)), FlatMap(o.out, UpdateIn(id)));
  }

  lemma TaskRequests(events: seq<Event>, e: Event, s: State, k: nat, mail: Mail, o: TaskOut)
    requires RunOk(s) && RequestsOk(events, s) && !e.PeerData? && k < |s.tasks|
    requires OwnUpdates(s.tasks[k].id, o) && o.task.id == s.tasks[k].id
    requires Alone(s, k) ==>
      var id := s.tasks[k].id;
      RequestOk(o.task, mail, Arrived(events, id), Updates(s, id) + FlatMap(o.out, UpdateIn(id)))
    ensures RequestsOk(events + [e], TaskMove(s.(mail := s.mail[k := mail]), k, o))
  {
    var s' := TaskMove(s.(mail := s.mail[k := mail]), k, o);
    forall j | 0 <= j < |s'.tasks| && Alone(s', j)
      ensures RequestAt(events + [e], s', j)
    {
      SameAlone(s, s', j);
      if j == k {
        OwnAt(events, e, s, k, mail, o);
      } else {
        OtherAt(events, e, s, k, mail, o, j);
      }
    }
  }

  /** A step of a task that leaves its mailbox alone. */
  lemma MovedRequests(events: seq<Event>, e: Event, s: State, k: nat, o: TaskOut)
    requires RunOk(s) && RequestsOk(events, s) && !e.PeerData? && k < |s.tasks|
    requires OwnUpdates(s.tasks[k].id, o) && o.task.id == s.tasks[k].id
    requires Alone(s, k) ==>
      var id := s.tasks[k].id;
      RequestOk(o.task, s.mail[k], Arrived(events, id), Updates(s, id) + FlatMap(o.out, UpdateIn(id)))
    ensures RequestsOk(events + [e], TaskMove(s, k, o))
  {
    assert s.mail[k := s.mail[k]] == s.mail;
    TaskRequests(events, e, s, k, s.mail[k], o);
  }

  /** A step of a task that does not touch its request body. */
  lemma SilentRequests(events: seq<Event>, e: Event, s: State, k: nat, o: TaskOut)
    requires RunOk(s) && RequestsOk(events, s) && !e.PeerData? && k < |s.tasks|
    requires o.task.id == s.tasks[k].id && o.task.body == s.tasks[k].body && (InMain(o.task) ==> InMain(s.tasks[k]))
    requires forall r :: r in o.out ==> !r.UpdatePeerWindow?
    ensures RequestsOk(events + [e], TaskMove(s, k, o))
  {
    var id := s.tasks[k].id;
    NotCredited(o.out, id);
    assert Updates(s, id) + [] == Updates(s, id);
    MovedRequests(events, e, s, k, o);
  }

  lemma CreditTaken(cfg: Config, t: Task, m: Mail, arrived: seq<seq<byte>>, updates: seq<int>)
    requires RequestOk(t, m, arrived, updates) && Selecting(t) && HasCredit(t)
    requires CreditOk(cfg, t) && TaskOk(t) && cfg.localInitialWindow <= I32_MAX
    ensures var o := TakeCredit(t); RequestOk(o.task, m, arrived, updates + FlatMap(o.out, UpdateIn(t.id)))
  {
    TakeCreditCredit(cfg, t);
    var credits := t.body.value.credits;
    var first := UpdatePeerWindow(t.id, credits[0]);
    FlatMapOne(first, UpdateIn(t.id));
    DueTaken(t.body.value, updates);
  }

  lemma DueTaken(b: Body, updates: seq<int>)
    requires b.credits != []
    ensures (updates + NonZero(b.credits[0])) + Due(b.(credits := b.credits[1..])) == updates + Due(b)
  {
    var first, rest, more := NonZero(b.credits[0]), Amounts(b.credits[1..]), SizeInHand(b) + Sizes(b.queue);
    assert Amounts(b.credits) == first + rest;
    Regroup(first, rest, more);
    Regroup(updates, first, rest + more);
  }

  lemma HandleOwn(t: Task, m: StreamReq, delivered: bool)
    ensures var o := HandleReq(t, m, delivered); OwnUpdates(t.id, o) && o.task.id == t.id
  {
  }

  lemma ReceiveStep(events: seq<Event>, s: State, k: nat, delivered: bool)
    requires RunOk(s) && RequestsOk(events, s) && k < |s.tasks| && k < |s.mail|
    requires Selecting(s.tasks[k]) && s.mail[k].msgs != [] && (delivered || !Listening(s.tasks[k]))
    ensures RequestsOk(events + [TaskReceive(k, delivered)],
                       TaskMove(s.(mail := s.mail[k := Pop(s.mail[k])]), k,
                                HandleReq(s.tasks[k], s.mail[k].msgs[0], delivered)))
  {
    var t, m := s.tasks[k], s.mail[k];
    if Alone(s, k) {
      ReceiveAt(events, s, k, delivered);
    }
    HandleOwn(t, m.msgs[0], delivered);
    TaskRequests(events, TaskReceive(k, delivered), s, k, Pop(m), HandleReq(t, m.msgs[0], delivered));
  }

  lemma ReceiveAt(events: seq<Event>, s: State, k: nat, delivered: bool)
    requires k < |s.tasks| && k < |s.mail| && RequestAt(events, s, k)
    requires Selecting(s.tasks[k]) && s.mail[k].msgs != [] && (delivered || !Listening(s.tasks[k]))
    ensures var t := s.tasks[k];
            var o := HandleReq(t, s.mail[k].msgs[0], delivered);
            RequestOk(o.task, Pop(s.mail[k]), Arrived(events, t.id), Updates(s, t.id) + FlatMap(o.out, UpdateIn(t.id)))
  {
    var t, m := s.tasks[k], s.mail[k];
    HandleReceives(t, m.msgs[0], delivered);
    PostedFirst(m);
    ReceiveRequest(t, m, Pop(m), m.msgs[0], HandleReq(t, m.msgs[0], delivered), Arrived(events, t.id),
                   Updates(s, t.id));
  }

  lemma CreditStep(cfg: Config, events: seq<Event>, s: State, k: nat)
    requires RunOk(s) && RequestsOk(events, s) && CreditsOk(cfg, s) && cfg.localInitialWindow <= I32_MAX
    requires Step(cfg, s, TaskCredit(k)).Running?
    ensures RequestsOk(events + [TaskCredit(k)], Step(cfg, s, TaskCredit(k)).state)
  {
    CreditOwn(s.tasks[k]);
    if Alone(s, k) {
      CreditAt(cfg, events, s, k);
    }
    MovedRequests(events, TaskCredit(k), s, k, TakeCredit(s.tasks[k]));
  }

  lemma CreditOwn(t: Task)
    requires HasCredit(t)
    ensures OwnUpdates(t.id, TakeCredit(t)) && TakeCredit(t).task.id == t.id
  {
  }

  lemma CreditAt(cfg: Config, events: seq<Event>, s: State, k: nat)
    requires k < |s.tasks| && k < |s.mail| && RequestAt(events, s, k) && Selecting(s.tasks[k]) && HasCredit(s.tasks[k])
    requires CreditsOk(cfg, s) && TaskOk(s.tasks[k]) && cfg.localInitialWindow <= I32_MAX
    ensures var t := s.tasks[k];
            var o := TakeCredit(t);
            RequestOk(o.task, s.mail[k], Arrived(events, t.id), Updates(s, t.id) + FlatMap(o.out, UpdateIn(t.id)))
  {
    var t := s.tasks[k];
    assert CreditOk(cfg, t);
    CreditTaken(cfg, t, s.mail[k], Arrived(events, t.id), Updates(s, t.id));
  }

  lemma LoopStep(cfg: Config, events: seq<Event>, s: State, k: nat)
    requires RunOk(s) && RequestsOk(events, s) && Step(cfg, s, TaskRun(k)).Running? && Sending(s.tasks[k])
    ensures RequestsOk(events + [TaskRun(k)], Step(cfg, s, TaskRun(k)).state)
  {
    var t := s.tasks[k];
    SilentRequests(events, TaskRun(k), s, k, if t.phase.Top? then Ask(t) else Emit(t));
  }

  lemma ExitStep(cfg: Config, events: seq<Event>, s: State, k: nat)
    requires RunOk(s) && RequestsOk(events, s) && Step(cfg, s, TaskRun(k)).Running? && !InMain(s.tasks[k])
    requires Attached(s.tasks[k])
    ensures RequestsOk(events + [TaskRun(k)], Step(cfg, s, TaskRun(k)).state)
  {
    var t := s.tasks[k];
    SilentRequests(events, TaskRun(k), s, k,
                   if t.phase.Leaving? then GiveBack(t)
                   else if t.phase.Closing? then AnnounceClosing(t) else AnnounceClosed(t));
  }

  lemma DropMoves(cfg: Config, s: State, k: nat, m: Mail)
    requires k < |s.tasks| && k < |s.mail| && s.tasks[k].phase.Dropping?
    requires m == s.mail[k].(open := false, msgs := [])
    ensures Step(cfg, s, TaskRun(k)) == Running(TaskMove(s.(mail := s.mail[k := m]), k, Gone(s.tasks[k], s.mail[k])))
  {
  }

  lemma DropStep(cfg: Config, events: seq<Event>, s: State, k: nat)
    requires RunOk(s) && RequestsOk(events, s) && Step(cfg, s, TaskRun(k)).Running? && s.tasks[k].phase.Dropping?
    ensures RequestsOk(events + [TaskRun(k)], Step(cfg, s, TaskRun(k)).state)
  {
    var m := s.mail[k].(open := false, msgs := []);
    DropMoves(cfg, s, k, m);
    TaskRequests(events, TaskRun(k), s, k, m, Gone(s.tasks[k], s.mail[k]));
  }

  lemma RunStep(cfg: Config, events: seq<Event>, s: State, k: nat)
    requires RunOk(s) && RequestsOk(events, s) && Step(cfg, s, TaskRun(k)).Running?
    ensures RequestsOk(events + [TaskRun(k)], Step(cfg, s, TaskRun(k)).state)
  {
    if s.tasks[k].phase.Dropping? {
      DropStep(cfg, events, s, k);
    } else if Sending(s.tasks[k]) {
      LoopStep(cfg, events, s, k);
    } else {
      ExitStep(cfg, events, s, k);
    }
  }

  /** The steps in which the handler or the response body speaks. */
  lemma HandlerStep(cfg: Config, events: seq<Event>, s: State, e: Event)
    requires RunOk(s) && RequestsOk(events, s) && Step(cfg, s, e).Running?
    requires e.TaskRespond? || e.TaskChunk? || e.TaskFail?
    ensures RequestsOk(events + [e], Step(cfg, s, e).state)
  {
    var t := s.tasks[e.k];
    SilentRequests(events, e, s, e.k,
                   if e.TaskRespond? then Respond(t, e.withBody)
                   else if e.TaskChunk? then ReadChunk(t, e.chunk)
                   else StreamSpec.Quiet(Leave(t, Some(StreamError(InternalError)))));
  }

  // ---------- the request bodies ----------

  /** The body of task k moved by itself. */
  lemma BodyRequests(events: seq<Event>, e: Event, s: State, k: nat, b: Body)
    requires RunOk(s) && RequestsOk(events, s) && !e.PeerData? && HasBody(s, k)
    requires Alone(s, k) ==>
      var id := s.tasks[k].id;
      RequestOk(s.tasks[k].(body := Some(b)), s.mail[k], Arrived(events, id), Updates(s, id))
    ensures RequestsOk(events + [e], MoveBody(s, k, b).state)
  {
    var o := TaskOut(s.tasks[k].(body := Some(b)), [], 0, 0);
    var id := s.tasks[k].id;
    assert Updates(s, id) + FlatMap(o.out, UpdateIn(id)) == Updates(s, id);
    assert s.mail[k := s.mail[k]] == s.mail && s.requests + [] == s.requests;
    TaskRequests(events, e, s, k, s.mail[k], o);
    assert TaskMove(s.(mail := s.mail[k := s.mail[k]]), k, o) == MoveBody(s, k, b).state;
  }

  /** The body moved by itself, and read on only if nothing is missing. */
  predicate BodyMoved(b: Body, b': Body) {
    && BodyFlow(b') && Due(b') == Due(b)
    && b'.log.queued == b.log.queued && b'.log.turned == b.log.turned
    && (b'.dropped ==> b'.cur.None?)
    && (b'.log.read == b.log.read || !b.log.turned)
  }

  lemma MovedBytes(t: Task, t': Task, m: Mail, arrived: seq<seq<byte>>)
    requires BytesOk(t, m, arrived) && t.body.Some? && t'.body.Some? && BodyMoved(t.body.value, t'.body.value)
    requires InMain(t') == InMain(t)
    ensures BytesOk(t', m, arrived)
  {
    var b := t.body.value;
    if !b.log.turned {
      FlatPrefix(b.log.queued, arrived[|b.log.queued|..]);
      assert b.log.queued + arrived[|b.log.queued|..] == arrived;
    }
  }

  lemma MovedCredits(t: Task, t': Task, m: Mail, arrived: seq<seq<byte>>, updates: seq<int>)
    requires CreditsKept(t, m, arrived, updates) && t.body.Some? && t'.body.Some?
    requires BodyMoved(t.body.value, t'.body.value) && InMain(t') == InMain(t)
    ensures CreditsKept(t', m, arrived, updates)
  {
  }

  lemma MovedRequest(t: Task, m: Mail, b': Body, arrived: seq<seq<byte>>, updates: seq<int>)
    requires RequestOk(t, m, arrived, updates) && t.body.Some? && BodyMoved(t.body.value, b')
    ensures RequestOk(t.(body := Some(b')), m, arrived, updates)
  {
    MovedBytes(t, t.(body := Some(b')), m, arrived);
    MovedCredits(t, t.(body := Some(b')), m, arrived, updates);
  }

  lemma PollMoved(b: Body, room: nat)
    requires BodyOk(b) && BodyFlow(b) && !b.dropped
    ensures BodyMoved(b, PollBody(b, room))
  {
    PollFlow(b, room);
    PollDue(b, room);
  }

  lemma DropMoved(b: Body)
    requires BodyOk(b) && BodyFlow(b)
    ensures BodyMoved(b, DropBody(b))
  {
    DropDue(b);
  }

  lemma DrainMoved(b: Body)
    requires BodyOk(b) && BodyFlow(b) && b.dropped && b.cur.None? && b.queue != []
    ensures BodyMoved(b, DrainBody(b))
  {
    DrainDue(b);
  }

  lemma BodyMoves(b: Body, e: Event)
    requires BodyOk(b) && BodyFlow(b) && (b.dropped ==> b.cur.None?)
    requires e.BodyPoll? || e.BodyDrop? || (e.BodyDrain? && b.queue != [])
    requires b.dropped == e.BodyDrain?
    ensures BodyMoved(b, MovedBody(b, e))
  {
    match e
    case BodyPoll(_, room) => PollMoved(b, room);
    case BodyDrop(_) => DropMoved(b);
    case BodyDrain(_) => DrainMoved(b);
  }

  lemma BodyAt(events: seq<Event>, s: State, k: nat, e: Event)
    requires HasBody(s, k) && k < |s.mail| && RequestAt(events, s, k) && BodyOk(s.tasks[k].body.value)
    requires e.BodyPoll? || e.BodyDrop? || (e.BodyDrain? && s.tasks[k].body.value.queue != [])
    requires s.tasks[k].body.value.dropped == e.BodyDrain?
    ensures var t := s.tasks[k];
            RequestOk(t.(body := Some(MovedBody(t.body.value, e))), s.mail[k], Arrived(events, t.id), Updates(s, t.id))
  {
    var t := s.tasks[k];
    var b := t.body.value;
    BodyMoves(b, e);
    MovedRequest(t, s.mail[k], MovedBody(b, e), Arrived(events, t.id), Updates(s, t.id));
  }

  lemma BodyStep(cfg: Config, events: seq<Event>, s: State, e: Event)
    requires RunOk(s) && RequestsOk(events, s) && Step(cfg, s, e).Running?
    requires e.BodyPoll? || e.BodyDrop? || e.BodyDrain?
    ensures RequestsOk(events + [e], Step(cfg, s, e).state)
  {
    BodyEnabled(cfg, s, e);
    if Alone(s, e.k) {
      BodyAt(events, s, e.k, e);
    }
    BodyRequests(events, e, s, e.k, MovedBody(s.tasks[e.k].body.value, e));
  }

  lemma EveryStepRequests(cfg: Config, events: seq<Event>, s: State, e: Event)
    requires RunOk(s) && RequestsOk(events, s) && CreditsOk(cfg, s) && Step(cfg, s, e).Running?
    requires s.tasks != [] ==> cfg.localInitialWindow <= I32_MAX
    ensures RequestsOk(events + [e], Step(cfg, s, e).state)
  {
    match e
    case PeerStop(_) =>
    case PeerData(id, data) => DataRequests(cfg, events, s, id, data);
    case PeerHeaders(id, parse, hasBody) => HeadersRequests(cfg, events, s, id, parse, hasBody);
    case PeerSettings(frame) => SettingsRequests(cfg, events, s, frame);
    case PeerWindowUpdate(id, amount) => WindowUpdateRequests(cfg, events, s, id, amount);
    case Shutdown => ShutdownRequests(cfg, events, s);
    case TakeRequest => TakenRequest(cfg, events, s);
    case BodyPoll(_, _) => BodyStep(cfg, events, s, e);
    case BodyDrop(_) => BodyStep(cfg, events, s, e);
    case BodyDrain(_) => BodyStep(cfg, events, s, e);
    case TaskReceive(k, delivered) => ReceiveStep(events, s, k, delivered);
    case TaskCredit(k) => CreditStep(cfg, events, s, k);
    case TaskRun(k) => RunStep(cfg, events, s, k);
    case _ => HandlerStep(cfg, events, s, e);
  }

  lemma {:induction false} RequestsHold(cfg: Config, events: seq<Event>)
    requires cfg.globalWindow >= 0 && Run(cfg, events).Some?
    ensures RequestsOk(events, Run(cfg, events).value)
    decreases |events|
  {
    if events != [] {
      var before, e := events[..|events| - 1], events[|events| - 1];
      assert events == before + [e];
      var s := Run(cfg, before).value;
      RequestsHold(cfg, before);
      RunsOk(cfg, before);
      CreditsHold(cfg, before);
      EveryStepRequests(cfg, before, s, e);
    }
  }

  // ---------- the guarantees ----------

  /** In every run the handler reads the peer's DATA of its stream in order; and while the body is in use and the
      stream task runs, what is read, in hand, queued and in the mailbox is all of that DATA, without loss. */
  lemma RequestBodyInOrder(cfg: Config, events: seq<Event>, k: nat)
    requires cfg.globalWindow >= 0 && Run(cfg, events).Some?
    requires k < |Run(cfg, events).value.tasks| && Alone(Run(cfg, events).value, k)
    requires HasBody(Run(cfg, events).value, k)
    ensures var s := Run(cfg, events).value;
            var b := s.tasks[k].body.value;
            var all := Flat(Arrived(events, s.tasks[k].id));
            && k < |s.mail|
            && b.log.read <= all
            && (InMain(s.tasks[k]) && !b.dropped ==>
                  b.log.read + InHand(b) + Flat(b.queue) + Flat(Posted(s.mail[k])) == all)
  {
    RequestsHold(cfg, events);
    var s := Run(cfg, events).value;
    assert RequestAt(events, s, k);
    FlatMapAppend(s.tasks[k].body.value.log.queued, Posted(s.mail[k]), Bytes);
  }

  /** In every run each DATA chunk is credited once and by its full length: the increments of the window updates written
      for a stream, those on their way, the chunk in hand, the queue and the mailbox are the lengths of the chunks that
      came in, empty ones aside; after the stream task none is credited twice. They are in order unless a chunk came
      back from a dropped body. */
  lemma CreditedInOrder(cfg: Config, events: seq<Event>, k: nat)
    requires cfg.globalWindow >= 0 && Run(cfg, events).Some?
    requires k < |Run(cfg, events).value.tasks| && Alone(Run(cfg, events).value, k)
    requires HasBody(Run(cfg, events).value, k)
    ensures var s := Run(cfg, events).value;
            var t := s.tasks[k];
            var b := t.body.value;
            var sizes := Sizes(Arrived(events, t.id));
            var given := FlatMap(s.wire, UpdateOn(t.id)) + FlatMap(s.requests, UpdateIn(t.id)) + Amounts(b.credits);
            var under := given + SizeInHand(b) + Sizes(b.queue);
            && k < |s.mail|
            && multiset(under) <= multiset(sizes)
            && (InMain(t) ==> multiset(under) + multiset(Sizes(Posted(s.mail[k]))) == multiset(sizes))
            && (b.log.turned ==> b.dropped)
            && (!b.log.turned ==> under <= sizes)
            && (!b.log.turned && InMain(t) ==> under + Sizes(Posted(s.mail[k])) == sizes)
  {
    RequestsHold(cfg, events);
    var s := Run(cfg, events).value;
    assert RequestAt(events, s, k);
    var t := s.tasks[k];
    Ungroup(FlatMap(s.wire, UpdateOn(t.id)) + FlatMap(s.requests, UpdateIn(t.id)), t.body.value);
  }

  lemma Ungroup(updates: seq<int>, b: Body)
    ensures updates + Due(b) == updates + Amounts(b.credits) + SizeInHand(b) + Sizes(b.queue)
  {
    Regroup(updates, Amounts(b.credits), SizeInHand(b) + Sizes(b.queue));
    Regroup(updates + Amounts(b.credits), SizeInHand(b), Sizes(b.queue));
  }
}
