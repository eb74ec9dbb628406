/** The receive window of each stream, and how many streams may be open. */
module Credits {
  import opened Basics
  import opened H2Errors
  import opened H2Types
  import opened ConnSpec
  import opened StreamSpec
  import opened System
  import opened Conservation
  import Seqs

  /** What the peer may still send on the stream, plus what it sent that is not credited yet, is the window
      announced to it. */
  predicate CreditOk(cfg: Config, t: Task) {
    t.phase.Done? || (t.peerWindow >= 0 && t.peerWindow + Outstanding(t.body) == cfg.localInitialWindow)
  }

  /** A draining connection still has a stream open, and the configured limit is respected. */
  predicate OpenOk(cfg: Config, c: Conn) {
    && (c.draining ==> c.open > 0)
    && (cfg.maxStreams.Some? ==> c.open <= cfg.maxStreams.value)
  }

  predicate CreditsOk(cfg: Config, s: State) {
    && OpenOk(cfg, s.conn)
    && (forall k :: 0 <= k < |s.tasks| ==> CreditOk(cfg, s.tasks[k]))
  }

  lemma HandleReqCredit(cfg: Config, t: Task, m: StreamReq, delivered: bool)
    requires CreditOk(cfg, t) && TaskOk(t) && Selecting(t)
    ensures CreditOk(cfg, HandleReq(t, m, delivered).task)
  {
    HandleOutstanding(t, m, delivered);
  }

  lemma HandleOutstanding(t: Task, m: StreamReq, delivered: bool)
    ensures var t' := HandleReq(t, m, delivered).task;
            t'.peerWindow + Outstanding(t'.body) == t.peerWindow + Outstanding(t.body)
            && (t.peerWindow >= 0 ==> t'.peerWindow >= 0)
  {
    if m.RequestBody? && t.body.Some? {
      Seqs.SumPush(t.body.value.queue, m.data, Length);
    }
  }

  /** A credit never overflows the stream's receive window. */
  lemma TakeCreditCredit(cfg: Config, t: Task)
    requires CreditOk(cfg, t) && TaskOk(t) && Selecting(t) && HasCredit(t) && cfg.localInitialWindow <= I32_MAX
    ensures CreditOk(cfg, TakeCredit(t).task)
    ensures TakeCredit(t).out == [UpdatePeerWindow(t.id, t.body.value.credits[0])]
  {
    var b := t.body.value;
    assert b.credits[0] in b.credits;
    Seqs.SumNonNegative(b.queue, Length);
    assert forall a :: a in b.credits[1..] ==> a in b.credits;
    Seqs.SumNonNegative<i32>(b.credits[1..], Amount);
  }

  /** The steps of a task that leave its receive side alone. */
  predicate SameCredit(t: Task, t': Task) {
    t'.peerWindow == t.peerWindow && t'.body == t.body && (t.phase.Done? ==> t'.phase.Done?)
  }

  lemma DistributeOpen(c: Conn, mail: seq<Mail>)
    requires Distribute(c, mail).Some?
    ensures Distribute(c, mail).value.0.open == c.open && Distribute(c, mail).value.0.draining == c.draining
    decreases |c.pending|, if c.global > 0 then 1 else 0
  {
    if c.global > 0 && c.pending != [] {
      var (c1, mail1) := ServeHead(c, mail).value;
      DistributeOpen(c1, mail1);
    }
  }

  predicate KeepsOpen(cfg: Config, c: Conn, o: ConnOut) {
    OpenOk(cfg, c) && o.Go? ==> OpenOk(cfg, o.conn)
  }

  lemma DistributedOpen(cfg: Config, c: Conn, mail: seq<Mail>, out: seq<WireFrame>)
    ensures KeepsOpen(cfg, c, Distributed(c, mail, out))
  {
    if Distribute(c, mail).Some? {
      DistributeOpen(c, mail);
    }
  }

  lemma AddGlobalOpen(cfg: Config, c: Conn, mail: seq<Mail>, amount: i32)
    ensures KeepsOpen(cfg, c, AddGlobal(c, mail, amount))
  {
    if CheckedAdd(c.global, amount).Some? {
      DistributedOpen(cfg, c.(global := c.global + amount), mail, []);
    }
  }

  lemma OnWindowUpdateOpen(cfg: Config, c: Conn, mail: seq<Mail>, id: u32, amount: i32)
    ensures KeepsOpen(cfg, c, OnWindowUpdate(c, mail, id, amount))
  {
    if id == 0 {
      AddGlobalOpen(cfg, c, mail, amount);
    } else if id !in c.streams {
      DistributedOpen(cfg, c, mail, []);
    } else {
      var k := c.streams[id].task;
      var sent := Send(mail, k, WindowUpdate(amount));
      if sent.Some? {
        DistributedOpen(cfg, c, sent.value[k := NoteIncrement(sent.value[k], amount)], []);
      } else {
        var o := StreamFailed(c, mail, StreamError(StreamClosedError), id);
        if o.Go? {
          DistributedOpen(cfg, o.conn, o.mail, o.out);
        }
      }
    }
  }

  /** The last stream of a draining connection ends the loop, so a running one keeps a stream. */
  lemma CountClosedOpen(cfg: Config, o: ConnOut, id: u32)
    requires o.Go? ==> OpenOk(cfg, o.conn)
    ensures CountClosed(o, id).Go? ==> OpenOk(cfg, CountClosed(o, id).conn)
  {
  }

  lemma OnRequestOpen(cfg: Config, c: Conn, mail: seq<Mail>, r: ConnReq)
    ensures KeepsOpen(cfg, c, OnRequest(c, mail, r))
  {
    match r
    case GetWindow(id, amount) => DistributedOpen(cfg, c.(pending := c.pending + [(id, amount)]), mail, []);
    case PutWindow(amount) => AddGlobalOpen(cfg, c, mail, amount);
    case StreamClosing(id, error) =>
      if OpenOk(cfg, c) {
        CountClosedOpen(cfg, if error.Some? then StreamFailed(c, mail, error.value, id) else Go(c, mail, []), id);
      }
    case _ =>
  }

  lemma ConnCredits(cfg: Config, s: State, e: Event)
    requires CreditsOk(cfg, s) && Step(cfg, s, e).Running?
    requires e.PeerData? || e.PeerHeaders? || e.PeerSettings? || e.PeerWindowUpdate? || e.Shutdown? || e.TakeRequest?
    ensures CreditsOk(cfg, Step(cfg, s, e).state)
  {
    match e
    case PeerWindowUpdate(id, amount) => OnWindowUpdateOpen(cfg, s.conn, s.mail, id, amount);
    case TakeRequest => OnRequestOpen(cfg, s.conn, s.mail, s.requests[0]);
    case _ =>
  }

  lemma MovedCredits(cfg: Config, s: State, k: nat, o: TaskOut)
    requires CreditsOk(cfg, s) && k < |s.tasks| && SameCredit(s.tasks[k], o.task)
    ensures CreditsOk(cfg, TaskMove(s, k, o))
  {
    assert CreditOk(cfg, s.tasks[k]);
  }

  lemma RunCredits(cfg: Config, s: State, k: nat)
    requires CreditsOk(cfg, s) && k < |s.tasks| && RunTask(s, k).Running?
    ensures CreditsOk(cfg, RunTask(s, k).state)
  {
    var t := s.tasks[k];
    match t.phase
    case Top => MovedCredits(cfg, s, k, Ask(t));
    case Asked => MovedCredits(cfg, s, k, Emit(t));
    case Leaving(_) => MovedCredits(cfg, s, k, GiveBack(t));
    case Closing(_) => MovedCredits(cfg, s, k, AnnounceClosing(t));
    case Closed(_) => MovedCredits(cfg, s, k, AnnounceClosed(t));
    case _ =>
  }

  lemma TaskCredits(cfg: Config, s: State, e: Event)
    requires CreditsOk(cfg, s) && WellFormed(s) && Step(cfg, s, e).Running? && cfg.localInitialWindow <= I32_MAX
    requires e.TaskReceive? || e.TaskCredit? || e.TaskRespond? || e.TaskChunk? || e.TaskFail? || e.TaskRun?
    ensures CreditsOk(cfg, Step(cfg, s, e).state)
  {
    match e
    case TaskReceive(k, delivered) => HandleReqCredit(cfg, s.tasks[k], s.mail[k].msgs[0], delivered);
    case TaskCredit(k) => TakeCreditCredit(cfg, s.tasks[k]);
    case TaskRespond(k, withBody) => MovedCredits(cfg, s, k, Respond(s.tasks[k], withBody));
    case TaskChunk(k, chunk) => MovedCredits(cfg, s, k, ReadChunk(s.tasks[k], chunk));
    case TaskFail(k) => MovedCredits(cfg, s, k, Quiet(Leave(s.tasks[k], Some(StreamError(InternalError)))));
    case TaskRun(k) => RunCredits(cfg, s, k);
  }

  lemma BodyCredits(cfg: Config, s: State, e: Event)
    requires CreditsOk(cfg, s) && WellFormed(s) && Step(cfg, s, e).Running?
    requires e.BodyPoll? || e.BodyDrop? || e.BodyDrain?
    ensures CreditsOk(cfg, Step(cfg, s, e).state)
  {
    match e
    case BodyPoll(k, room) => PollBodyKeeps(s.tasks[k].body.value, room);
    case BodyDrop(k) => DropBodyKeeps(s.tasks[k].body.value);
    case BodyDrain(k) => DrainBodyKeeps(s.tasks[k].body.value);
  }

  /** Over every run; the stream window fits an i32 as soon as a stream was opened. */
  lemma {:induction false} CreditsHold(cfg: Config, events: seq<Event>)
    requires cfg.globalWindow >= 0 && Run(cfg, events).Some?
    ensures CreditsOk(cfg, Run(cfg, events).value)
    ensures Run(cfg, events).value.tasks != [] ==> cfg.localInitialWindow <= I32_MAX
    decreases |events|
  {
    if events != [] {
      var before := events[..|events| - 1];
      var e := events[|events| - 1];
      CreditsHold(cfg, before);
      Conserved(OpenCount, cfg, before);
      var s := Run(cfg, before).value;
      if e.TaskReceive? || e.TaskCredit? || e.TaskRespond? || e.TaskChunk? || e.TaskFail? || e.TaskRun? {
        TaskCredits(cfg, s, e);
      } else if e.BodyPoll? || e.BodyDrop? || e.BodyDrain? {
        BodyCredits(cfg, s, e);
      } else {
        ConnCredits(cfg, s, e);
      }
    }
  }

}
