/** src/http2/stream.rs: the mutable `Stream` and its send loop, against `StreamSpec`. */
module StreamTask {
  import opened Basics
  import opened H2Errors
  import opened H2Types
  import opened StreamSpec

  /** The inner loop of `send_body` from the start of an iteration until it waits or the chunk is sent. */
  function Pump(t: Task): (Task, seq<ConnReq>)
    requires t.phase.Top? || (t.phase.Asked? && t.buffer != [])
    decreases |t.buffer|, if t.phase.Top? then 1 else 0
  {
    if t.phase.Top? then
      var o := Ask(t);
      if o.task.phase.BodyIdle? then (o.task, o.out)
      else
        var (t', out) := Pump(o.task);
        (t', o.out + out)
    else
      var o := Emit(t);
      if o.task.phase.Waiting? then (o.task, o.out)
      else
        var (t', out) := Pump(o.task);
        (t', o.out + out)
  }

  /** What the loop asks for. */
  function Asks(t: Task): int {
    if t.buffer != [] && t.needed > 0 && t.window > 0 then Min(t.window, t.needed) else 0
  }

  /** What it sends. */
  function Sends(t: Task): nat {
    if t.available > 0 then Min(t.available, |t.buffer|) else 0
  }

  /** However often the loop turns, it asks once and sends once: all it still needs as far as the stream window
      reaches, and all of the buffer as far as the granted window reaches. */
  lemma PumpOnce(t: Task)
    requires t.phase.Top?
    ensures var (t', out) := Pump(t);
            && t'.phase == (if Sends(t) == |t.buffer| then BodyIdle else Waiting)
            && t'.buffer == t.buffer[Sends(t)..]
            && t'.available == t.available - Sends(t)
            && t'.window == t.window - Asks(t)
            && t'.needed == t.needed - Asks(t)
            && out == (if Asks(t) > 0 then [GetWindow(t.id, Asks(t))] else [])
                      + (if Sends(t) > 0 then [Frame(t.id, false, t.buffer[..Sends(t)])] else [])
  {
    if t.buffer != [] {
      var asked := Ask(t).task;
      assert Pump(t).1 == Ask(t).out + Pump(asked).1;
      if t.available > 0 {
        var sent := Emit(asked).task;
        assert Pump(asked).1 == Emit(asked).out + Pump(sent).1;
        if sent.buffer != [] {
          PumpBlocked(sent);
        }
      }
    }
  }

  /** With nothing to ask and nothing granted the loop waits at once. */
  lemma PumpBlocked(t: Task)
    requires t.phase.Top? && t.buffer != [] && t.available <= 0 && (t.needed <= 0 || t.window <= 0)
    ensures Pump(t) == (t.(phase := Waiting), [])
  {
    var asked := Ask(t).task;
    assert asked == t.(phase := Asked) && Ask(t).out == [];
    assert Emit(asked).task == t.(phase := Waiting) && Emit(asked).out == [];
    assert Pump(asked) == (t.(phase := Waiting), []);
    assert [] + Pump(asked).1 == [];
    assert Pump(t).0 == Pump(asked).0 && Pump(t).1 == Ask(t).out + Pump(asked).1;
  }

  class Stream {
    const id: u32
    var phase: Phase
    var availableWindow: i32
    var window: i32
    var peerWindow: i32
    var windowNeeded: i32
    var bodyBuffer: seq<byte>
    var body: Option<Body>
    // The channel to the connection task.
    var sent: seq<ConnReq>
    ghost var produced: seq<byte>
    ghost var emitted: seq<WireFrame>
    ghost var asked: int

    ghost function View(): Task
      reads this
    {
      Task(id, phase, availableWindow, window, peerWindow, windowNeeded, bodyBuffer, body, produced, emitted, asked)
    }

    constructor (id: u32, window: i32, peerWindow: i32, hasBody: bool)
      ensures View() == NewTask(id, window, peerWindow, hasBody) && sent == []
    {
      this.id := id;
      phase, availableWindow, this.window, this.peerWindow := Handling, 0, window, peerWindow;
      windowNeeded, bodyBuffer := 0, [];
      body := if hasBody then Some(NewBody()) else None;
      sent, produced, emitted, asked := [], [], [], 0;
    }

    /** The step is the specified one, and its requests went out in order. */
    twostate predicate Did(o: TaskOut)
      reads this
    {
      View() == o.task && sent == old(sent) + o.out
    }

    /** `main` returns with this result: the locals of `send_body` are gone. */
    method Return(error: Option<H2Error>)
      modifies this`phase, this`bodyBuffer, this`windowNeeded
      ensures View() == Leave(old(View()), error)
    {
      phase, bodyBuffer, windowNeeded := Leaving(error), [], 0;
    }

    /** `main_select` came back: the inner loop of `send_body` starts over. */
    method GoOn()
      modifies this`phase
      ensures View() == Resume(old(View()))
    {
      if phase.Waiting? {
        phase := Top;
      }
    }

    method HandleStreamReq(m: StreamReq, delivered: bool)
      modifies this
      ensures Did(HandleReq(old(View()), m, delivered))
    {
      match m {
        case RequestBody(data) =>
          if body.None? || |data| > I32_MAX {
            Return(Some(ConnectionError(ProtocolError)));
            return;
          }
          if |data| > peerWindow {
            Return(Some(ConnectionError(FlowControlError)));
            return;
          }
          if !delivered {
            body := Some(Turned(body.value));
            sent := sent + [UpdatePeerWindow(id, |data|)];
          } else {
            body := Some(Queue(body.value, data));
            peerWindow := peerWindow - |data|;
          }
        case AvailableWindow(amount) =>
          var total := CheckedAdd(availableWindow, amount);
          if total.None? {
            Return(Some(ConnectionError(ProtocolError)));
            return;
          }
          availableWindow := total.value;
        case WindowUpdate(amount) =>
          var total := CheckedAdd(window, amount);
          if total.None? {
            Return(Some(ConnectionError(ProtocolError)));
            return;
          }
          window := total.value;
        case Reset =>
          Return(Some(StreamError(NoError)));
          return;
      }
      GoOn();
    }

    method TakeBodyCredit()
      requires HasCredit(View())
      modifies this
      ensures Did(TakeCredit(old(View())))
    {
      var amount := body.value.credits[0];
      body := Some(body.value.(credits := body.value.credits[1..]));
      var total := CheckedAdd(peerWindow, amount);
      if total.None? {
        Return(Some(ConnectionError(InternalError)));
        return;
      }
      peerWindow := total.value;
      sent := sent + [UpdatePeerWindow(id, amount)];
      GoOn();
    }

    /** The body reader returned a chunk. */
    method OnChunk(chunk: seq<byte>)
      requires |chunk| <= MAX_CHUNK
      modifies this
      ensures Did(ReadChunk(old(View()), chunk))
    {
      if chunk == [] {
        sent := sent + [Frame(id, true, [])];
        emitted := emitted + [WData(id, true, [])];
        Return(None);
        return;
      }
      bodyBuffer := chunk;
      produced := produced + chunk;
      windowNeeded := |chunk|;
      phase := Top;
    }

    /** The first half of an iteration: reserve from the stream window. */
    method Reserve()
      requires phase.Top?
      modifies this
      ensures Did(Ask(old(View())))
    {
      if |bodyBuffer| == 0 {
        phase := BodyIdle;
        return;
      }
      if windowNeeded > 0 && window > 0 {
        var amount := if window >= windowNeeded then windowNeeded else window;
        window := window - amount;
        windowNeeded := windowNeeded - amount;
        asked := asked + amount;
        sent := sent + [GetWindow(id, amount)];
      }
      phase := Asked;
    }

    /** The second half: send what the granted window allows. */
    method SendData()
      modifies this
      ensures Did(Emit(old(View())))
    {
      if availableWindow > 0 {
        var amount := if availableWindow > |bodyBuffer| then |bodyBuffer| else availableWindow;
        var data := bodyBuffer[..amount];
        bodyBuffer := bodyBuffer[amount..];
        availableWindow := availableWindow - amount;
        sent := sent + [Frame(id, false, data)];
        emitted := emitted + [WData(id, false, data)];
        phase := Top;
      } else {
        phase := Waiting;
      }
    }

    /** The inner loop: until it has to wait, or the whole chunk is sent. */
    method SendLoop()
      requires phase.Top?
      modifies this
      ensures View() == Pump(old(View())).0
      ensures sent == old(sent) + Pump(old(View())).1
    {
      while phase.Top? || phase.Asked?
        invariant phase.Top? || (phase.Asked? && bodyBuffer != []) || phase.BodyIdle? || phase.Waiting?
        invariant phase.BodyIdle? || phase.Waiting? ==>
                    View() == Pump(old(View())).0 && sent == old(sent) + Pump(old(View())).1
        invariant phase.Top? || phase.Asked? ==>
                    Pump(View()).0 == Pump(old(View())).0 && sent + Pump(View()).1 == old(sent) + Pump(old(View())).1
        decreases |bodyBuffer|, if phase.Top? then 2 else if phase.Asked? then 1 else 0
      {
        if phase.Top? {
          Reserve();
        } else {
          SendData();
        }
      }
    }

    /** `run_inner` after `main`: the unused window, then the two closing messages. */
    method Finish()
      requires phase.Leaving?
      modifies this
      ensures var t := old(View());
              && View() == AnnounceClosed(AnnounceClosing(GiveBack(t).task).task).task
              && sent == old(sent) + GiveBack(t).out + [StreamClosing(id, t.phase.error), StreamClosed(id)]
    {
      var error := phase.error;
      if availableWindow > 0 {
        sent := sent + [PutWindow(availableWindow)];
        availableWindow := 0;
      }
      sent := sent + [StreamClosing(id, error)];
      sent := sent + [StreamClosed(id)];
      phase := Dropping(error);
    }
  }
}
