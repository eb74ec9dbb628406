/** What the connection task does to one stream with a live handle: its owed window, its window limit and its
    handle, for every arm of the main loop. */
module PerStream {
  import opened Basics
  import opened H2Errors
  import opened H2Types
  import opened ConnSpec
  import opened System
  import opened Seqs
  import opened Conservation
  import Settings

  /** The stream window change in a message. */
  function WindowChange(m: StreamReq): int {
    if m.WindowUpdate? then m.amount else 0
  }

  /** The part of the stream's limit that the task has already been told about. */
  function Seen(m: Mail): int {
    m.limit - Sum(m.msgs, WindowChange)
  }

  /** Whatever prefix of these messages is received next, the limit seen stays at or below the peak. */
  predicate Below(msgs: seq<StreamReq>, seen: int, peak: int) {
    seen <= peak && (msgs != [] ==> Below(msgs[1..], seen + WindowChange(msgs[0]), peak))
  }

  /** The peak bounds every limit the task sees, and it is the limit unless an update lowered that. */
  predicate PeakOk(m: Mail) {
    Below(m.msgs, Seen(m), m.peak) && m.limit <= m.peak && (!m.lowered ==> m.limit == m.peak)
  }

  lemma {:induction false} BelowPush(msgs: seq<StreamReq>, m: StreamReq, seen: int, peak: int, peak': int)
    requires Below(msgs, seen, peak) && peak <= peak'
    requires seen + Sum(msgs, WindowChange) + WindowChange(m) <= peak'
    ensures Below(msgs + [m], seen, peak')
    decreases |msgs|
  {
    if msgs == [] {
      assert (msgs + [m])[1..] == [];
    } else {
      assert (msgs + [m])[1..] == msgs[1..] + [m];
      BelowPush(msgs[1..], m, seen + WindowChange(msgs[0]), peak, peak');
    }
  }

  /** Sending a message changes the limit and the peak, but not what the task has seen. */
  lemma PushSeen(m: Mail, x: StreamReq)
    ensures Seen(m.Push(x)) == Seen(m)
    ensures PeakOk(m) ==> PeakOk(m.Push(x))
  {
    SumPush(m.msgs, x, WindowChange);
    if PeakOk(m) {
      BelowPush(m.msgs, x, Seen(m), m.peak, m.Push(x).peak);
    }
  }

  /** Window a stream asked for that still waits in the connection's list. */
  function PendingFor(i: u32): ((u32, i32)) -> int {
    (p: (u32, i32)) => if p.0 == i then p.1 else 0
  }

  /** Window asked for or granted, between the connection's list and the stream's mailbox. */
  function Owed(c: Conn, mail: Mail, i: u32): int {
    Sum(c.pending, PendingFor(i)) + Sum(mail.msgs, WindowIn)
  }

  predicate Live(c: Conn, i: u32, k: nat) {
    i in c.streams && c.streams[i].task == k
  }

  /** A stream with id i whose task k still holds its mailbox and whose handle is stored. */
  predicate Ready(c: Conn, mail: seq<Mail>, i: u32, k: nat) {
    && k < |mail|
    && mail[k].open
    && Live(c, i, k)
    && OwnHandles(c.streams)
  }

  /** The effect on such a stream: `owed` is added to what it is owed, `shift` to the initial window. */
  predicate Effect(c: Conn, mail: seq<Mail>, o: ConnOut, i: u32, k: nat, owed: int, shift: int)
    requires o.Go? && k < |mail|
  {
    && |o.mail| == |mail|
    && Ready(o.conn, o.mail, i, k)
    && Seen(o.mail[k]) == Seen(mail[k])
    && (PeakOk(mail[k]) ==> PeakOk(o.mail[k]))
    && o.mail[k].limit - o.mail[k].increments == mail[k].limit - mail[k].increments + shift
    && o.conn.remote.initialWindowSize == c.remote.initialWindowSize + shift
    && Owed(o.conn, o.mail[k], i) == Owed(c, mail[k], i) + owed
  }

  /** A window grant or another message through the handle of stream j, seen from stream i. */
  lemma SendEffect(c: Conn, mail: seq<Mail>, j: u32, m: StreamReq, i: u32, k: nat)
    requires Ready(c, mail, i, k) && j in c.streams && c.streams[j].task < |mail| && !m.WindowUpdate?
    ensures var t := c.streams[j].task;
            Effect(c, mail, Go(c, mail[t := mail[t].Push(m)], []), i, k, if i == j then WindowIn(m) else 0, 0)
  {
    if i == j {
      PushSeen(mail[k], m);
      SumPush(mail[k].msgs, m, WindowIn);
    }
  }

  lemma ServeHeadEffect(c: Conn, mail: seq<Mail>, i: u32, k: nat)
    requires Ready(c, mail, i, k) && Undistributed(c)
    requires c.global > 0 && c.pending != [] && ServeHead(c, mail).Some?
    ensures var (c', mail') := ServeHead(c, mail).value;
            Effect(c, mail, Go(c', mail', []), i, k, 0, 0) && c'.streams == c.streams
  {
    var (j, want) := c.pending[0];
    if j in c.streams {
      SendEffect(c, mail, j, AvailableWindow(Min(c.global, want)), i, k);
    }
  }

  /** `distribute_window` pays a live stream exactly what it takes off the stream's requests. */
  lemma {:induction false} DistributeEffect(c: Conn, mail: seq<Mail>, i: u32, k: nat)
    requires Ready(c, mail, i, k) && Undistributed(c) && MailsOk(mail) && Distribute(c, mail).Some?
    ensures var (c', mail') := Distribute(c, mail).value;
            Effect(c, mail, Go(c', mail', []), i, k, 0, 0) && c'.streams == c.streams
    decreases |c.pending|, if c.global > 0 then 1 else 0
  {
    if c.global > 0 && c.pending != [] {
      ServeHeadEffect(c, mail, i, k);
      ServeHeadKeeps(SendWindow, c, mail);
      var (c1, mail1) := ServeHead(c, mail).value;
      DistributeEffect(c1, mail1, i, k);
    }
  }

  /** The list before is what was served from its front, then what is left; the last request served may be served in
      part, if the window ran out. */
  predicate Splits(before: seq<(u32, i32)>, served: seq<(u32, i32)>, after: seq<(u32, i32)>, global: int) {
    || before == served + after
    || (global == 0 && SplitsLast(before, served, after))
  }

  predicate SplitsLast(before: seq<(u32, i32)>, served: seq<(u32, i32)>, after: seq<(u32, i32)>) {
    && served != [] && after != []
    && var (part, left) := (served[|served| - 1], after[0]);
    && part.0 == left.0 && part.1 > 0 && left.1 > 0 && part.1 + left.1 <= I32_MAX
    && before == served[..|served| - 1] + [(part.0, part.1 + left.1)] + after[1..]
  }

  /** The grant that a served request is for task k. A stream without a handle gets none. */
  function GrantTo(streams: map<u32, Handle>, k: nat): ((u32, i32)) -> seq<StreamReq> {
    (p: (u32, i32)) => if p.0 in streams && streams[p.0].task == k then [AvailableWindow(p.1)] else []
  }

  /** Each mailbox got exactly the grants of the served requests of its stream, in the order of the requests. */
  predicate Granted(streams: map<u32, Handle>, mail: seq<Mail>, mail': seq<Mail>, served: seq<(u32, i32)>) {
    && |mail'| == |mail|
    && forall k :: 0 <= k < |mail| ==> mail'[k] == mail[k].(msgs := mail[k].msgs + FlatMap(served, GrantTo(streams, k)))
  }

  /** What the served requests of streams with a handle take. */
  function Taken(streams: map<u32, Handle>): ((u32, i32)) -> int {
    (p: (u32, i32)) => if p.0 in streams then p.1 else 0
  }

  /** `served` is what one or more rounds served. */
  predicate Serves(c: Conn, mail: seq<Mail>, c': Conn, mail': seq<Mail>, served: seq<(u32, i32)>) {
    && c'.streams == c.streams
    && Splits(c.pending, served, c'.pending, c'.global)
    && Granted(c.streams, mail, mail', served)
    && c.global == c'.global + Sum(served, Taken(c.streams))
  }

  /** What one round serves: the oldest request as far as there is window, or all of it for a stream with no handle. */
  function HeadServed(c: Conn): (u32, i32)
    requires c.pending != []
  {
    var (id, want) := c.pending[0];
    (id, if id in c.streams then Min(c.global, want) else want)
  }

  lemma ServeHeadServes(c: Conn, mail: seq<Mail>)
    requires Undistributed(c) && c.global > 0 && c.pending != [] && ServeHead(c, mail).Some?
    ensures var (c', mail') := ServeHead(c, mail).value;
            Serves(c, mail, c', mail', [HeadServed(c)])
            && (c'.pending == c.pending[1..] || c'.global == 0)
  {
    var head := HeadServed(c);
    var (c', mail') := ServeHead(c, mail).value;
    assert c.pending[0] in c.pending;
    assert c.pending == [c.pending[0]] + c.pending[1..];
    SumOne(head, Taken(c.streams));
    forall k | 0 <= k < |mail|
      ensures mail'[k] == mail[k].(msgs := mail[k].msgs + FlatMap([head], GrantTo(c.streams, k)))
    {
      FlatMapOne(head, GrantTo(c.streams, k));
      assert mail[k].msgs + [] == mail[k].msgs;
    }
  }

  /** Serving on behind a request that was served in full. */
  lemma ServesOn(c: Conn, mail: seq<Mail>, c1: Conn, mail1: seq<Mail>, c': Conn, mail': seq<Mail>, head: (u32, i32),
                 served: seq<(u32, i32)>)
    requires c.pending == [head] + c1.pending
    requires Serves(c, mail, c1, mail1, [head]) && Serves(c1, mail1, c', mail', served)
    ensures Serves(c, mail, c', mail', [head] + served)
  {
    SumAppend([head], served, Taken(c.streams));
    forall k | 0 <= k < |mail|
      ensures mail'[k] == mail[k].(msgs := mail[k].msgs + FlatMap([head] + served, GrantTo(c.streams, k)))
    {
      FlatMapAppend([head], served, GrantTo(c.streams, k));
      Regroup(mail[k].msgs, FlatMap([head], GrantTo(c.streams, k)), FlatMap(served, GrantTo(c.streams, k)));
    }
    SplitsOn(c1.pending, served, c'.pending, c'.global, head);
  }

  lemma SplitsOn(before: seq<(u32, i32)>, served: seq<(u32, i32)>, after: seq<(u32, i32)>, global: int,
                 head: (u32, i32))
    requires Splits(before, served, after, global)
    ensures Splits([head] + before, [head] + served, after, global)
  {
    Regroup([head], served, after);
    if before != served + after {
      var n := |served| - 1;
      assert ([head] + served)[..n + 1] == [head] + served[..n];
      var last := (served[n].0, served[n].1 + after[0].1);
      assert [head] + (served[..n] + [last] + after[1..]) == ([head] + served[..n]) + [last] + after[1..];
    }
  }

  /** `distribute_window` serves requests strictly in order, only the last one it touches in part; it posts exactly the
      grants of what it served, to each stream in that order, and takes their sum from the window; and it stops only
      when the window or the requests are used up. */
  lemma {:induction false} DistributeInOrder(c: Conn, mail: seq<Mail>)
    requires Undistributed(c) && MailsOk(mail) && Distribute(c, mail).Some?
    ensures var (c', mail') := Distribute(c, mail).value;
            && (exists served :: Serves(c, mail, c', mail', served))
            && (c'.global == 0 || c'.pending == [])
    decreases |c.pending|, if c.global > 0 then 1 else 0
  {
    if c.global <= 0 || c.pending == [] {
      NothingServed(c, mail);
    } else {
      var (c1, mail1) := ServeHead(c, mail).value;
      ServeHeadKeeps(SendWindow, c, mail);
      ServeHeadServes(c, mail);
      DistributeInOrder(c1, mail1);
      var (c', mail') := Distribute(c, mail).value;
      if c1.global == 0 {
        assert c' == c1 && mail' == mail1;
      } else {
        var served :| Serves(c1, mail1, c', mail', served);
        ServesOn(c, mail, c1, mail1, c', mail', HeadServed(c), served);
      }
    }
  }

  lemma NothingServed(c: Conn, mail: seq<Mail>)
    ensures Serves(c, mail, c, mail, [])
  {
    assert c.pending == [] + c.pending;
    forall k | 0 <= k < |mail|
      ensures mail[k] == mail[k].(msgs := mail[k].msgs + FlatMap([], GrantTo(c.streams, k)))
    {
      assert mail[k].msgs + [] == mail[k].msgs;
    }
  }

  lemma DistributedEffect(c: Conn, mail: seq<Mail>, out: seq<WireFrame>, i: u32, k: nat)
    requires Ready(c, mail, i, k) && Undistributed(c) && MailsOk(mail) && Distributed(c, mail, out).Go?
    ensures Effect(c, mail, Distributed(c, mail, out), i, k, 0, 0)
  {
    DistributeEffect(c, mail, i, k);
  }

  lemma AddGlobalEffect(c: Conn, mail: seq<Mail>, amount: i32, i: u32, k: nat)
    requires Ready(c, mail, i, k) && ConnOk(c) && MailsOk(mail) && amount >= 0 && AddGlobal(c, mail, amount).Go?
    ensures Effect(c, mail, AddGlobal(c, mail, amount), i, k, 0, 0)
  {
    DistributedEffect(c.(global := c.global + amount), mail, [], i, k);
  }

  lemma StreamFailedEffect(c: Conn, mail: seq<Mail>, error: H2Error, j: u32, i: u32, k: nat)
    requires Ready(c, mail, i, k) && StreamFailed(c, mail, error, j).Go?
    ensures Effect(c, mail, StreamFailed(c, mail, error, j), i, k, 0, 0)
  {
    if j in c.streams && Send(mail, c.streams[j].task, Reset).Some? {
      SendEffect(c, mail, j, Reset, i, k);
    }
  }

  lemma OnDataEffect(c: Conn, mail: seq<Mail>, j: u32, data: seq<byte>, i: u32, k: nat)
    requires Ready(c, mail, i, k) && OnData(c, mail, j, data).Go?
    ensures Effect(c, mail, OnData(c, mail, j, data), i, k, 0, 0)
  {
    SendEffect(c, mail, j, RequestBody(data), i, k);
  }

  /** SETTINGS shifts the limit of every live stream by the change of the initial window. */
  lemma OnSettingsEffect(c: Conn, mail: seq<Mail>, frame: Settings.SettingsFrame, i: u32, k: nat)
    requires Ready(c, mail, i, k) && OnSettings(c, mail, frame).Go?
    ensures Effect(c, mail, OnSettings(c, mail, frame), i, k, 0,
                   Settings.Apply(c.remote, frame).0.initialWindowSize - c.remote.initialWindowSize)
  {
    var dif := Settings.Apply(c.remote, frame).1.value;
    assert k in Targets(c.streams);
    PushSeen(mail[k], WindowUpdate(dif));
    SumPush(mail[k].msgs, WindowUpdate(dif), WindowIn);
  }

  /** WINDOW_UPDATE raises the limit of its own stream only, and is noted as that stream's increment. */
  lemma NotedSendEffect(c: Conn, mail: seq<Mail>, j: u32, amount: i32, i: u32, k: nat)
    requires Ready(c, mail, i, k) && amount >= 0 && j in c.streams && c.streams[j].task < |mail|
    ensures var t := c.streams[j].task;
            Effect(c, mail, Go(c, mail[t := NoteIncrement(mail[t].Push(WindowUpdate(amount)), amount)], []), i, k, 0, 0)
  {
    if i == j {
      PushSeen(mail[k], WindowUpdate(amount));
      SumPush(mail[k].msgs, WindowUpdate(amount), WindowIn);
    }
  }

  lemma OnWindowUpdateEffect(c: Conn, mail: seq<Mail>, j: u32, amount: i32, i: u32, k: nat)
    requires Ready(c, mail, i, k) && ConnOk(c) && MailsOk(mail) && amount >= 0 && OnWindowUpdate(c, mail, j, amount).Go?
    ensures Effect(c, mail, OnWindowUpdate(c, mail, j, amount), i, k, 0, 0)
  {
    if j == 0 {
      AddGlobalEffect(c, mail, amount, i, k);
    } else if j !in c.streams {
      DistributedEffect(c, mail, [], i, k);
    } else {
      var t := c.streams[j].task;
      if Send(mail, t, WindowUpdate(amount)).Some? {
        NotedSendEffect(c, mail, j, amount, i, k);
        var noted := mail[t := NoteIncrement(mail[t].Push(WindowUpdate(amount)), amount)];
        DistributedEffect(c, noted, [], i, k);
      } else {
        var o := StreamFailed(c, mail, StreamError(StreamClosedError), j);
        StreamFailedEffect(c, mail, StreamError(StreamClosedError), j, i, k);
        DistributedEffect(o.conn, o.mail, o.out, i, k);
      }
    }
  }

  lemma CountClosedEffect(c: Conn, mail: seq<Mail>, o: ConnOut, j: u32, i: u32, k: nat)
    requires o.Go? && k < |mail| && Effect(c, mail, o, i, k, 0, 0) && CountClosed(o, j).Go?
    ensures Effect(c, mail, CountClosed(o, j), i, k, 0, 0)
  {
  }

  /** What one request of a stream task adds to what stream i is owed. */
  function AskedBy(r: ConnReq, i: u32): int {
    if r.GetWindow? && r.id == i then r.amount else 0
  }

  lemma GetWindowEffect(c: Conn, mail: seq<Mail>, j: u32, amount: i32, i: u32, k: nat)
    requires Ready(c, mail, i, k) && ConnOk(c) && MailsOk(mail) && amount > 0
    requires OnRequest(c, mail, GetWindow(j, amount)).Go?
    ensures Effect(c, mail, OnRequest(c, mail, GetWindow(j, amount)), i, k, if i == j then amount else 0, 0)
  {
    SumPush(c.pending, (j, amount), PendingFor(i));
    DistributedEffect(c.(pending := c.pending + [(j, amount)]), mail, [], i, k);
  }

  lemma OnRequestEffect(c: Conn, mail: seq<Mail>, r: ConnReq, i: u32, k: nat)
    requires Ready(c, mail, i, k) && ConnOk(c) && MailsOk(mail) && ReqOk(r) && r != StreamClosed(i)
    requires OnRequest(c, mail, r).Go?
    ensures Effect(c, mail, OnRequest(c, mail, r), i, k, AskedBy(r, i), 0)
  {
    match r
    case GetWindow(j, amount) => GetWindowEffect(c, mail, j, amount, i, k);
    case PutWindow(amount) => AddGlobalEffect(c, mail, amount, i, k);
    case StreamClosing(j, error) =>
      var o := if error.Some? then StreamFailed(c, mail, error.value, j) else Go(c, mail, []);
      if error.Some? {
        StreamFailedEffect(c, mail, error.value, j, i, k);
      }
      CountClosedEffect(c, mail, o, j, i, k);
    case _ =>
  }

  lemma OnHeadersEffect(cfg: Config, c: Conn, mail: seq<Mail>, j: u32, parse: HeaderParse, i: u32, k: nat)
    requires Ready(c, mail, i, k)
    requires var o := OnHeaders(cfg, c, mail, j, parse); o.Go? && !Spawned(mail, o)
    ensures Effect(c, mail, OnHeaders(cfg, c, mail, j, parse), i, k, 0, 0)
  {
    if c.draining || (cfg.maxStreams.Some? && c.open >= cfg.maxStreams.value) {
      StreamFailedEffect(c, mail, StreamError(RefusedStream), j, i, k);
    } else {
      StreamFailedEffect(c, mail, parse.error, j, i, k);
    }
  }
}
