/** The messages, mailboxes and records of the HTTP/2 flow control protocol. */
module H2Types {
  import opened Basics
  import opened H2Errors
  import Settings

  const MAX_CHUNK: int := 16_384

  /** Connection task to stream task (src/http2/stream.rs). */
  datatype StreamReq =
    | AvailableWindow(amount: i32)
    | WindowUpdate(amount: i32)
    | RequestBody(data: seq<byte>)
    | Reset

  /** Stream task to connection task (src/http2/mod.rs). */
  datatype ConnReq =
    | Frame(id: u32, endStream: bool, data: seq<byte>)
    | Response(id: u32, endStream: bool)
    | GetWindow(id: u32, amount: i32)
    | PutWindow(amount: i32)
    | UpdatePeerWindow(id: u32, amount: i32)
    | StreamClosing(id: u32, error: Option<H2Error>)
    | StreamClosed(id: u32)

  /** What the connection writes to the peer. A header block is one entry, however it is fragmented. */
  datatype WireFrame =
    | WHeaders(id: u32, endStream: bool)
    | WData(id: u32, endStream: bool, data: seq<byte>)
    | WRstStream(id: u32, code: ErrorCode)
    | WWindowUpdate(id: u32, increment: u32)
    | WSettings(frame: Settings.SettingsFrame)

  /** The channel into one stream task. It is open while the task holds the receiving half.
      The last four fields are history: the increments the peer sent for this stream, the window
      limit all updates so far add up to, the highest value that limit ever had, and whether an
      update ever lowered it. */
  datatype Mail = Mail(open: bool, msgs: seq<StreamReq>, increments: int, limit: int, peak: int, lowered: bool) {
    function Push(m: StreamReq): Mail {
      if m.WindowUpdate? then
        this.(msgs := msgs + [m], limit := limit + m.amount, peak := Max(peak, limit + m.amount),
              lowered := lowered || m.amount < 0)
      else
        this.(msgs := msgs + [m])
    }
  }

  /** The channel into a task that starts with this window. */
  function NewMail(window: int): Mail {
    Mail(true, [], 0, window, window, false)
  }

  /** `StreamHandle`: the sending half of the channel into the task with this number. */
  datatype Handle = Handle(task: nat, closed: bool)

  /** Different streams have different tasks. */
  predicate OwnHandles(streams: map<u32, Handle>) {
    forall i, j :: i in streams && j in streams && i != j ==> streams[i].task != streams[j].task
  }

  datatype Config = Config(localInitialWindow: u32, globalWindow: i32, maxStreams: Option<u32>)

  /** The fields of `Connection` that its main loop works on. */
  datatype Conn = Conn(
    streams: map<u32, Handle>,
    biggest: u32,
    open: u32,
    global: i32,
    peer: i32,
    pending: seq<(u32, i32)>,
    draining: bool,
    remote: Settings.Settings)

  /** Either the loop goes on, or it ends and GOAWAY carries this stream id and error code. */
  datatype ConnOut =
    | Go(conn: Conn, mail: seq<Mail>, out: seq<WireFrame>)
    | Halt(lastStream: u32, code: ErrorCode)

  /** The outcome of collecting a header block and reading a request out of it. */
  datatype HeaderParse = Parsed | Refused(error: H2Error) | Broken(error: H2Error)

  /** Sends through a handle; fails when the task has dropped its receiver. */
  function Send(mail: seq<Mail>, task: nat, m: StreamReq): (r: Option<seq<Mail>>)
    ensures r.Some? <==> task < |mail| && mail[task].open
    ensures r.Some? ==> r.value == mail[task := mail[task].Push(m)]
  {
    if task < |mail| && mail[task].open then Some(mail[task := mail[task].Push(m)]) else None
  }
}
