/** src/http2/mod.rs: what each arm of `Connection::main_loop` does to the connection and the mailboxes. */
module ConnSpec {
  import opened Basics
  import opened H2Errors
  import opened H2Types
  import opened Settings

  function Start(cfg: Config): Conn {
    Conn(map[], 0, 0, 65_535, cfg.globalWindow, [], false, DEFAULT)
  }

  /** Ends the loop with this error; the final GOAWAY names the biggest stream opened. */
  function Fail(c: Conn, error: H2Error): ConnOut {
    Halt(c.biggest, error.code)
  }

  /** One round of `distribute_window`: serve the oldest request, in part when there is not enough. */
  function ServeHead(c: Conn, mail: seq<Mail>): (r: Option<(Conn, seq<Mail>)>)
    requires c.global > 0 && c.pending != []
    ensures r.Some? ==> var c' := r.value.0;
            |c'.pending| < |c.pending| || (|c'.pending| == |c.pending| && c'.global == 0)
  {
    var (id, want) := c.pending[0];
    var rest := c.(pending := c.pending[1..]);
    if want <= 0 || id !in c.streams then Some((rest, mail))
    else
      var amount := Min(c.global, want);
      var sent := Send(mail, c.streams[id].task, AvailableWindow(amount));
      if sent.None? then None
      else if want > amount then
        Some((c.(global := c.global - amount, pending := [(id, want - amount)] + c.pending[1..]), sent.value))
      else
        Some((rest.(global := c.global - amount), sent.value))
  }

  /** `distribute_window`: rounds until the window or the requests run out. */
  function Distribute(c: Conn, mail: seq<Mail>): Option<(Conn, seq<Mail>)>
    decreases |c.pending|, if c.global > 0 then 1 else 0
  {
    if c.global <= 0 || c.pending == [] then Some((c, mail))
    else
      var r := ServeHead(c, mail);
      if r.None? then None else Distribute(r.value.0, r.value.1)
  }

  function Distributed(c: Conn, mail: seq<Mail>, out: seq<WireFrame>): ConnOut {
    var d := Distribute(c, mail);
    if d.None? then Fail(c, ConnectionError(InternalError)) else Go(d.value.0, d.value.1, out)
  }

  /** `update_global_window` followed by `distribute_window`. */
  function AddGlobal(c: Conn, mail: seq<Mail>, amount: i32): ConnOut {
    var g := CheckedAdd(c.global, amount);
    if g.None? then Fail(c, ConnectionError(InternalError))
    else Distributed(c.(global := g.value), mail, [])
  }

  /** `handle_possible_stream_error` on an error result. */
  function StreamFailed(c: Conn, mail: seq<Mail>, error: H2Error, id: u32): ConnOut {
    if error.ConnectionError? then Fail(c, error)
    else if id == 0 then Fail(c, ConnectionError(InternalError))
    else if id in c.streams then
      var h := c.streams[id];
      var sent := Send(mail, h.task, Reset);
      if sent.Some? then
        Go(c.(streams := c.streams[id := h.(closed := true)]), sent.value, [WRstStream(id, error.code)])
      else
        Go(c.(streams := c.streams - {id}), mail, [WRstStream(id, error.code)])
    else
      Go(c, mail, [WRstStream(id, error.code)])
  }

  function OnData(c: Conn, mail: seq<Mail>, id: u32, data: seq<byte>): ConnOut {
    if id !in c.streams || |data| > I32_MAX then Fail(c, ConnectionError(ProtocolError))
    else if |data| > c.peer then Fail(c, ConnectionError(FlowControlError))
    else
      var sent := Send(mail, c.streams[id].task, RequestBody(data));
      if sent.None? then Fail(c, StreamError(StreamClosedError))
      else Go(c.(peer := c.peer - |data|), sent.value, [])
  }

  /** A HEADERS frame, with what became of its block. A new stream task gets the next mailbox; a handle already
      stored under the id is replaced. */
  function OnHeaders(cfg: Config, c: Conn, mail: seq<Mail>, id: u32, parse: HeaderParse): (o: ConnOut)
    ensures Spawned(mail, o) ==> c.remote.initialWindowSize <= I32_MAX && cfg.localInitialWindow <= I32_MAX
  {
    if id % 2 == 0 || (id !in c.streams && c.biggest >= id) then Fail(c, ConnectionError(ProtocolError))
    else if parse.Broken? then Fail(c, parse.error)
    else if c.draining || (cfg.maxStreams.Some? && c.open >= cfg.maxStreams.value) then
      StreamFailed(c, mail, StreamError(RefusedStream), id)
    else if parse.Refused? then StreamFailed(c, mail, parse.error, id)
    else if c.remote.initialWindowSize > I32_MAX || cfg.localInitialWindow > I32_MAX then
      Fail(c, ConnectionError(ProtocolError))
    else
      var c1 := c.(biggest := Max(id, c.biggest));
      if c.open + 1 >= U32_LIMIT then Fail(c1, ConnectionError(InternalError))
      else
        var window := c.remote.initialWindowSize;
        Go(c1.(open := c.open + 1, streams := c.streams[id := Handle(|mail|, false)]),
           mail + [NewMail(window)], [])
  }

  /** Whether a new task was spawned: the only step that adds a mailbox. */
  predicate Spawned(mail: seq<Mail>, o: ConnOut) {
    o.Go? && |o.mail| == |mail| + 1
  }

  /** The tasks behind the stored handles. */
  function Targets(streams: map<u32, Handle>): set<nat> {
    set id | id in streams :: streams[id].task
  }

  /** The same message into every mailbox with a stored handle. */
  function Broadcast(mail: seq<Mail>, to: set<nat>, m: StreamReq): (r: seq<Mail>)
    ensures |r| == |mail|
    ensures forall k :: 0 <= k < |mail| ==> r[k] == if k in to then mail[k].Push(m) else mail[k]
  {
    seq(|mail|, k requires 0 <= k < |mail| => if k in to then mail[k].Push(m) else mail[k])
  }

  function SettingsAck(): SettingsFrame {
    SettingsFrame(true, None, None, None, None, None, None)
  }

  /** A SETTINGS frame without ACK: apply it, re-base every stream, acknowledge. */
  function OnSettings(c: Conn, mail: seq<Mail>, frame: SettingsFrame): ConnOut {
    var (remote, dif) := Apply(c.remote, frame);
    if dif.Err? then Fail(c, dif.error)
    else if exists k :: k in Targets(c.streams) && !(k < |mail| && mail[k].open) then
      Fail(c, StreamError(StreamClosedError))
    else
      Go(c.(remote := remote), Broadcast(mail, Targets(c.streams), WindowUpdate(dif.value)), [WSettings(SettingsAck())])
  }

  function NoteIncrement(m: Mail, amount: int): Mail {
    m.(increments := m.increments + amount)
  }

  function OnWindowUpdate(c: Conn, mail: seq<Mail>, id: u32, amount: i32): ConnOut {
    if id == 0 then AddGlobal(c, mail, amount)
    else if id in c.streams then
      var k := c.streams[id].task;
      var sent := Send(mail, k, WindowUpdate(amount));
      if sent.Some? then
        Distributed(c, sent.value[k := NoteIncrement(sent.value[k], amount)], [])
      else
        var o := StreamFailed(c, mail, StreamError(StreamClosedError), id);
        if o.Halt? then o else Distributed(o.conn, o.mail, o.out)
    else Distributed(c, mail, [])
  }

  /** The shutdown signal: end at once when idle, else refuse new streams from now on. */
  function OnShutdown(c: Conn, mail: seq<Mail>): ConnOut {
    if c.open == 0 then Halt(c.biggest, NoError)
    else Go(c.(draining := true), mail, [WSettings(SettingsAck().(ack := false, maxConcurrentStreams := Some(0)))])
  }

  /** The stream no longer counts as open; the last one to close ends a draining connection. */
  function CountClosed(o: ConnOut, id: u32): ConnOut {
    if o.Halt? then o
    else if o.conn.open == 0 then Fail(o.conn, ConnectionError(InternalError))
    else
      var c := o.conn.(open := o.conn.open - 1);
      if c.draining && c.open == 0 then Halt(c.biggest, NoError)
      else if id in c.streams then
        Go(c.(streams := c.streams[id := c.streams[id].(closed := true)]), o.mail, o.out)
      else Go(c, o.mail, o.out)
  }

  function OnStreamClosing(c: Conn, mail: seq<Mail>, id: u32, error: Option<H2Error>): ConnOut {
    CountClosed(if error.Some? then StreamFailed(c, mail, error.value, id) else Go(c, mail, []), id)
  }

  function OnUpdatePeerWindow(c: Conn, mail: seq<Mail>, id: u32, amount: i32): ConnOut {
    var p := CheckedAdd(c.peer, amount);
    if p.None? || amount < 0 then Fail(c, ConnectionError(InternalError))
    else Go(c.(peer := p.value), mail, [WWindowUpdate(0, amount), WWindowUpdate(id, amount)])
  }

  /** One request taken from the channel of the connection task. */
  function OnRequest(c: Conn, mail: seq<Mail>, r: ConnReq): ConnOut {
    match r
    case Frame(id, endStream, data) => Go(c, mail, [WData(id, endStream, data)])
    case Response(id, endStream) => Go(c, mail, [WHeaders(id, endStream)])
    case GetWindow(id, amount) => Distributed(c.(pending := c.pending + [(id, amount)]), mail, [])
    case PutWindow(amount) => AddGlobal(c, mail, amount)
    case UpdatePeerWindow(id, amount) => OnUpdatePeerWindow(c, mail, id, amount)
    case StreamClosing(id, error) => OnStreamClosing(c, mail, id, error)
    case StreamClosed(id) => Go(c.(streams := c.streams - {id}), mail, [])
  }
}
