/** src/http2/mod.rs: the mutable `Connection`, its loops and updates in place, against `ConnSpec`. */
module Connection {
  import opened Basics
  import opened H2Errors
  import opened H2Types
  import opened ConnSpec
  import opened Settings
  import Buffer
  import HeaderBlocks

  /** Different streams have different tasks, each with its channel. */
  predicate Owned(streams: map<u32, Handle>, channels: nat) {
    OwnHandles(streams) && forall id :: id in streams ==> streams[id].task < channels
  }

  lemma BroadcastMore(mail: seq<Mail>, reached: set<nat>, k: nat, m: StreamReq)
    requires k < |mail| && k !in reached
    ensures Broadcast(mail, reached, m)[k := mail[k].Push(m)] == Broadcast(mail, reached + {k}, m)
  {
  }

  class Connection {
    const config: Config
    const remoteSettings: SettingsCell
    const headerBuffer: Buffer.Buffer
    var streams: map<u32, Handle>
    var biggestOpenStream: u32
    var openStreams: u32
    var globalWindow: i32
    var peerWindow: i32
    var pendingWindowReq: seq<(u32, i32)>
    var draining: bool
    // The sending halves of the channels, and everything written to the peer.
    var mail: seq<Mail>
    var wire: seq<WireFrame>

    function View(): Conn
      reads this, remoteSettings
    {
      Conn(streams, biggestOpenStream, openStreams, globalWindow, peerWindow, pendingWindowReq, draining,
           remoteSettings.View())
    }

    /** Between frames the header buffer is empty. */
    ghost predicate Valid()
      reads this, headerBuffer, headerBuffer.inner
    {
      Owned(streams, |mail|) && headerBuffer.Valid() && headerBuffer.Readable() == []
    }

    constructor (config: Config, headerCapacity: nat)
      ensures Valid() && View() == Start(config) && this.config == config
      ensures mail == [] && wire == [] && headerBuffer.inner.Length == headerCapacity
      ensures fresh(remoteSettings) && fresh(headerBuffer) && fresh(headerBuffer.inner)
    {
      this.config := config;
      remoteSettings := new SettingsCell();
      headerBuffer := new Buffer.Buffer.WithCapacity(headerCapacity);
      streams, biggestOpenStream, openStreams := map[], 0, 0;
      globalWindow, peerWindow := 65_535, config.globalWindow;
      pendingWindowReq, draining := [], false;
      mail, wire := [], [];
    }

    /** The outcome of an arm: with no error it goes on as specified, with an error the loop ends. */
    twostate predicate Did(new o: ConnOut, new error: Option<H2Error>)
      reads this, remoteSettings
    {
      if error.None? then
        o.Go? && View() == o.conn && mail == o.mail && wire == old(wire) + o.out
      else
        o == Halt(biggestOpenStream, error.value.code)
    }

    method Push(task: nat, m: StreamReq) returns (sent: bool)
      modifies this`mail
      ensures sent == Send(old(mail), task, m).Some?
      ensures mail == if sent then Send(old(mail), task, m).value else old(mail)
      ensures |mail| == |old(mail)|
    {
      sent := task < |mail| && mail[task].open;
      if sent {
        mail := mail[task := mail[task].Push(m)];
      }
    }

    method UpdateGlobalWindow(amount: i32) returns (error: Option<H2Error>)
      modifies this`globalWindow
      ensures error.None? <==> CheckedAdd(old(globalWindow), amount).Some?
      ensures error.None? ==> globalWindow == old(globalWindow) + amount
      ensures error.Some? ==> globalWindow == old(globalWindow) && error.value == ConnectionError(InternalError)
    {
      var sum := CheckedAdd(globalWindow, amount);
      if sum.None? {
        return Some(ConnectionError(InternalError));
      }
      globalWindow := sum.value;
      return None;
    }

    /** One round of the loop: the oldest request. */
    method ServeFirst() returns (served: bool)
      requires globalWindow > 0 && pendingWindowReq != []
      modifies this`globalWindow, this`pendingWindowReq, this`mail
      ensures |mail| == |old(mail)|
      ensures var r := ServeHead(old(View()), old(mail));
              if served then r == Some((View(), mail)) else r.None?
    {
      var (id, want) := pendingWindowReq[0];
      if 0 >= want {
        pendingWindowReq := pendingWindowReq[1..];
        return true;
      }
      if id !in streams {
        pendingWindowReq := pendingWindowReq[1..];
        return true;
      }
      var amount, remaining := want, 0;
      if globalWindow < want {
        amount, remaining := globalWindow, want - globalWindow;
      }
      var sent := Push(streams[id].task, AvailableWindow(amount));
      if !sent {
        return false;
      }
      var failed := UpdateGlobalWindow(-amount);
      if remaining > 0 {
        pendingWindowReq := [(id, remaining)] + pendingWindowReq[1..];
      } else {
        pendingWindowReq := pendingWindowReq[1..];
      }
      return true;
    }

    method DistributeWindow() returns (error: Option<H2Error>)
      modifies this`globalWindow, this`pendingWindowReq, this`mail
      ensures Did(Distributed(old(View()), old(mail), []), error)
      ensures |mail| == |old(mail)|
    {
      while true
        invariant Distribute(View(), mail) == Distribute(old(View()), old(mail)) && |mail| == |old(mail)|
        decreases |pendingWindowReq|, if globalWindow > 0 then 1 else 0
      {
        if 0 >= globalWindow {
          break;
        }
        if pendingWindowReq == [] {
          return None;
        }
        var served := ServeFirst();
        if !served {
          return Some(ConnectionError(InternalError));
        }
      }
      return None;
    }

    method HandlePossibleStreamError(failure: H2Error, id: u32) returns (error: Option<H2Error>)
      requires Valid()
      modifies this`streams, this`mail, this`wire
      ensures Did(StreamFailed(old(View()), old(mail), failure, id), error)
      ensures Valid()
    {
      if failure.StreamError? {
        if id == 0 {
          return Some(ConnectionError(InternalError));
        }
        if id in streams {
          var task := streams[id].task;
          streams := streams[id := Handle(task, true)];
          var sent := Push(task, Reset);
          if !sent {
            streams := streams - {id};
            assert streams == old(streams) - {id};
          }
        }
        wire := wire + [WRstStream(id, failure.code)];
        return None;
      }
      return Some(failure);
    }

    method OnDataFrame(id: u32, data: seq<byte>) returns (error: Option<H2Error>)
      requires Valid()
      modifies this`peerWindow, this`mail
      ensures Did(OnData(old(View()), old(mail), id, data), error)
      ensures Valid()
    {
      if id !in streams {
        return Some(ConnectionError(ProtocolError));
      }
      if |data| > I32_MAX {
        return Some(ConnectionError(ProtocolError));
      }
      if |data| > peerWindow {
        return Some(ConnectionError(FlowControlError));
      }
      var sent := Push(streams[id].task, RequestBody(data));
      if !sent {
        return Some(StreamError(StreamClosedError));
      }
      peerWindow := peerWindow - |data|;
      return None;
    }

    /** Collects the header block into the header buffer. */
    method ReadHeaderBlock(id: u32, data: seq<byte>, endHeaders: bool, following: seq<HeaderBlocks.Next>)
      returns (error: Option<H2Error>)
      requires headerBuffer.Valid() && headerBuffer.Readable() == []
      modifies headerBuffer`readPointer, headerBuffer`writePointer, headerBuffer.inner
      ensures headerBuffer.Valid()
      ensures var block := HeaderBlocks.ReadBlock(headerBuffer.inner.Length, id, data, endHeaders, following);
              if error.None? then block == Ok(headerBuffer.Readable()) else block == Err(error.value)
    {
      ghost var capacity := headerBuffer.inner.Length;
      error := StoreFragment(data);
      if error.Some? || endHeaders {
        return;
      }
      var next := 0;
      while true
        invariant next <= |following| && headerBuffer.Valid()
        invariant HeaderBlocks.ReadBlock(capacity, id, data, endHeaders, following)
               == HeaderBlocks.Collect(capacity, headerBuffer.Readable(), id, following[next..])
        decreases |following| - next
      {
        if next == |following| {
          return Some(ConnectionError(ProtocolError));
        }
        assert following[next..][1..] == following[next + 1..];
        match following[next] {
          case Failed(failure) => return Some(failure);
          case Came(frame) =>
            if frame.header.kind != HeaderBlocks.F.Continuation || frame.header.stream != id {
              return Some(ConnectionError(ProtocolError));
            }
            error := StoreFragment(frame.payload);
            if error.Some? || frame.header.flags.endHeaders {
              return;
            }
        }
        next := next + 1;
      }
    }

    method StoreFragment(data: seq<byte>) returns (error: Option<H2Error>)
      requires headerBuffer.Valid()
      modifies headerBuffer`readPointer, headerBuffer`writePointer, headerBuffer.inner
      ensures headerBuffer.Valid()
      ensures var grown := HeaderBlocks.Grown(headerBuffer.inner.Length, old(headerBuffer.Readable()), data);
              if error.None? then grown == Ok(headerBuffer.Readable()) else grown == Err(error.value)
    {
      var written := headerBuffer.Write(data);
      if written != |data| {
        return Some(ConnectionError(ProtocolError));
      }
      assert data[..written] == data;
      return None;
    }

    /** What becomes of a block: an error of its own, or what reading a request out of it gives. */
    static function Outcome(block: Result<seq<byte>, H2Error>, parse: HeaderParse): HeaderParse {
      if block.Err? then Broken(block.error) else parse
    }

    /** HEADERS, with the frames that follow it on the wire. `parse` is the request that HPACK makes of a block. */
    method OnHeadersFrame(id: u32, data: seq<byte>, endHeaders: bool, following: seq<HeaderBlocks.Next>,
                          parse: HeaderParse)
      returns (error: Option<H2Error>)
      requires Valid() && !parse.Broken?
      modifies this`streams, this`biggestOpenStream, this`openStreams, this`mail, this`wire
      modifies headerBuffer`readPointer, headerBuffer`writePointer, headerBuffer.inner
      ensures var block := HeaderBlocks.ReadBlock(headerBuffer.inner.Length, id, data, endHeaders, following);
              Did(OnHeaders(config, old(View()), old(mail), id, Outcome(block, parse)), error)
      ensures error.None? ==> Valid()
    {
      if id % 2 == 0 {
        return Some(ConnectionError(ProtocolError));
      }
      if id !in streams {
        if biggestOpenStream >= id {
          return Some(ConnectionError(ProtocolError));
        }
      }
      error := ReadHeaderBlock(id, data, endHeaders, following);
      if error.Some? {
        return;
      }
      headerBuffer.Reset();
      error := OpenOrRefuse(id, parse);
    }

    /** The header block is complete: refuse the stream or open it. The header buffer was reset on every way on. A new
        task gets the channel with the next number. */
    method OpenOrRefuse(id: u32, parse: HeaderParse) returns (error: Option<H2Error>)
      requires Valid() && !parse.Broken? && id % 2 == 1 && (id in streams || biggestOpenStream < id)
      modifies this`streams, this`biggestOpenStream, this`openStreams, this`mail, this`wire
      ensures Did(OnHeaders(config, old(View()), old(mail), id, parse), error)
      ensures Valid()
    {
      if draining {
        error := HandlePossibleStreamError(StreamError(RefusedStream), id);
        return;
      }
      if config.maxStreams.Some? {
        if openStreams >= config.maxStreams.value {
          error := HandlePossibleStreamError(StreamError(RefusedStream), id);
          return;
        }
      }
      if parse.Refused? {
        error := HandlePossibleStreamError(parse.error, id);
        return;
      }
      if remoteSettings.initialWindowSize > I32_MAX || config.localInitialWindow > I32_MAX {
        return Some(ConnectionError(ProtocolError));
      }
      if id > biggestOpenStream {
        biggestOpenStream := id;
      }
      if openStreams + 1 >= U32_LIMIT {
        return Some(ConnectionError(InternalError));
      }
      openStreams := openStreams + 1;
      streams := streams[id := Handle(|mail|, false)];
      mail := mail + [NewMail(remoteSettings.initialWindowSize)];
      return None;
    }

    /** One WindowUpdate through every stored handle, in any order; stops at a task that is gone. */
    method UpdateStreamWindows(dif: i32) returns (all: bool)
      requires Valid()
      modifies this`mail
      ensures Valid()
      ensures all ==> forall k :: k in Targets(streams) ==> k < |old(mail)| && old(mail)[k].open
      ensures all ==> mail == Broadcast(old(mail), Targets(streams), WindowUpdate(dif))
      ensures !all ==> exists k :: k in Targets(streams) && !(k < |old(mail)| && old(mail)[k].open)
    {
      var todo := streams.Keys;
      ghost var reached: set<nat> := {};
      while todo != {}
        invariant todo <= streams.Keys
        invariant reached == set id | id in streams && id !in todo :: streams[id].task
        invariant forall k :: k in reached ==> k < |old(mail)| && old(mail)[k].open
        invariant mail == Broadcast(old(mail), reached, WindowUpdate(dif))
        decreases todo
      {
        var id :| id in todo;
        var k := streams[id].task;
        assert k !in reached;
        var sent := Push(k, WindowUpdate(dif));
        if !sent {
          assert k in Targets(streams);
          return false;
        }
        BroadcastMore(old(mail), reached, k, WindowUpdate(dif));
        todo := todo - {id};
        reached := reached + {k};
      }
      assert reached == Targets(streams);
      return true;
    }

    /** SETTINGS without ACK. */
    method OnSettingsFrame(frame: SettingsFrame) returns (error: Option<H2Error>)
      requires Valid()
      modifies this`mail, this`wire, remoteSettings
      ensures Did(OnSettings(old(View()), old(mail), frame), error)
      ensures Valid()
    {
      var dif := remoteSettings.ApplySettingsFrame(frame);
      if dif.Err? {
        return Some(dif.error);
      }
      var all := UpdateStreamWindows(dif.value);
      if !all {
        return Some(StreamError(StreamClosedError));
      }
      wire := wire + [WSettings(SettingsAck())];
      return None;
    }

    method OnWindowUpdateFrame(id: u32, amount: i32) returns (error: Option<H2Error>)
      requires Valid()
      modifies this`globalWindow, this`pendingWindowReq, this`streams, this`mail, this`wire
      ensures Did(OnWindowUpdate(old(View()), old(mail), id, amount), error)
      ensures Valid()
    {
      if id == 0 {
        error := UpdateGlobalWindow(amount);
        if error.Some? {
          return;
        }
      } else if id in streams {
        var k := streams[id].task;
        var sent := Push(k, WindowUpdate(amount));
        if sent {
          mail := mail[k := NoteIncrement(mail[k], amount)];
        } else {
          error := HandlePossibleStreamError(StreamError(StreamClosedError), id);
          if error.Some? {
            return;
          }
        }
      }
      error := DistributeWindow();
    }

    method OnStreamClosingReq(id: u32, failure: Option<H2Error>) returns (error: Option<H2Error>, ended: bool)
      requires Valid()
      modifies this`openStreams, this`streams, this`mail, this`wire
      ensures Valid()
      ensures ended ==> OnStreamClosing(old(View()), old(mail), id, failure) == Halt(biggestOpenStream, NoError)
      ensures !ended ==> Did(OnStreamClosing(old(View()), old(mail), id, failure), error)
    {
      ended := false;
      ghost var out: seq<WireFrame> := [];
      if failure.Some? {
        error := HandlePossibleStreamError(failure.value, id);
        if error.Some? {
          return;
        }
        out := StreamFailed(old(View()), old(mail), failure.value, id).out;
      }
      error, ended := CountStreamClosed(id, out);
    }

    /** The end of the arm, after control frames `out` were written. */
    method CountStreamClosed(id: u32, ghost out: seq<WireFrame>) returns (error: Option<H2Error>, ended: bool)
      requires Valid()
      modifies this`openStreams, this`streams
      ensures Valid()
      ensures var o := CountClosed(Go(old(View()), mail, out), id);
              if ended then o == Halt(biggestOpenStream, NoError)
              else if error.Some? then o == Halt(biggestOpenStream, error.value.code)
              else o == Go(View(), mail, out)
    {
      if openStreams == 0 {
        return Some(ConnectionError(InternalError)), false;
      }
      openStreams := openStreams - 1;
      if draining && openStreams == 0 {
        return None, true;
      }
      if id in streams {
        streams := streams[id := Handle(streams[id].task, true)];
      }
      return None, false;
    }

    method OnUpdatePeerWindowReq(id: u32, amount: i32) returns (error: Option<H2Error>)
      modifies this`peerWindow, this`wire
      ensures Did(OnUpdatePeerWindow(old(View()), old(mail), id, amount), error)
    {
      var sum := CheckedAdd(peerWindow, amount);
      if sum.None? {
        return Some(ConnectionError(InternalError));
      }
      peerWindow := sum.value;
      if amount < 0 {
        return Some(ConnectionError(InternalError));
      }
      wire := wire + [WWindowUpdate(0, amount)];
      wire := wire + [WWindowUpdate(id, amount)];
      return None;
    }

    method OnShutdownSignal() returns (ended: bool)
      modifies this`draining, this`wire
      ensures ended ==> OnShutdown(old(View()), old(mail)) == Halt(biggestOpenStream, NoError)
      ensures !ended ==> Did(OnShutdown(old(View()), old(mail)), None)
    {
      if openStreams == 0 {
        return true;
      }
      draining := true;
      wire := wire + [WSettings(SettingsFrame(false, None, None, Some(0), None, None, None))];
      return false;
    }

    /** One request of a stream task. */
    method OnConnectionReq(r: ConnReq) returns (error: Option<H2Error>, ended: bool)
      requires Valid()
      modifies this`globalWindow, this`pendingWindowReq, this`peerWindow, this`openStreams, this`streams,
               this`mail, this`wire
      ensures Valid()
      ensures ended ==> OnRequest(old(View()), old(mail), r) == Halt(biggestOpenStream, NoError)
      ensures !ended ==> Did(OnRequest(old(View()), old(mail), r), error)
    {
      error, ended := None, false;
      match r
      case Frame(id, endStream, data) => wire := wire + [WData(id, endStream, data)];
      case Response(id, endStream) => wire := wire + [WHeaders(id, endStream)];
      case GetWindow(id, amount) =>
        pendingWindowReq := pendingWindowReq + [(id, amount)];
        error := DistributeWindow();
      case PutWindow(amount) =>
        error := UpdateGlobalWindow(amount);
        if error.None? {
          error := DistributeWindow();
        }
      case UpdatePeerWindow(id, amount) => error := OnUpdatePeerWindowReq(id, amount);
      case StreamClosing(id, failure) => error, ended := OnStreamClosingReq(id, failure);
      case StreamClosed(id) => streams := streams - {id};
    }
  }
}
