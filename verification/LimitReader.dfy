/** src/request.rs: `LimitReader`, which passes on a fixed number of bytes of the source and then tells the end. */
module LimitReader {
  import opened Basics
  import opened Polling
  import opened Runs

  datatype Reader = Reader(max: nat, current: nat, src: seq<byte>)

  datatype Polled = Polled(r: Reader, poll: Poll<seq<byte>>, env: seq<Answer>)

  function PollRead(r: Reader, room: nat, env: seq<Answer>): Polled {
    if r.current > r.max then Polled(r, Failed(Implementation), env)
    else
      var remaining := r.max - r.current;
      if remaining == 0 then Polled(r, Ready([]), env)
      else
        var (got, rest) := ReadSource(if remaining >= room then room else remaining, r.src, env);
        match got
        case Ready(s) => Polled(r.(current := r.current + |s|, src := r.src[|s|..]), got, rest)
        case _ => Polled(r, got, rest)
  }

  /** A poll waits or fails only where the source does; it hands out as much as the source does within the limit, and an
      empty answer, with room for one, is the limit or the end of the source. */
  lemma PollAnswers(r: Reader, room: nat, env: seq<Answer>)
    requires r.current <= r.max
    ensures var p := PollRead(r, room, env);
            if r.current == r.max then p == Polled(r, Ready([]), env)
            else if env == [] || env[0].Block? then p.poll.Pending?
            else if env[0].Fail? then p.poll == Failed(StreamFailed)
            else
              && p.poll.Ready? && |p.poll.value| == Min(Min(env[0].limit, room), Min(r.max - r.current, |r.src|))
              && (p.poll.value == [] ==> room == 0 || r.src == [])
  {
  }

  datatype Call = Call(room: pos, env: seq<Answer>)

  datatype Session = Session(r: Reader, out: seq<byte>, ended: bool)

  function Do(s: Session, c: Call): Session {
    var p := PollRead(s.r, c.room, c.env);
    Session(p.r, if p.poll.Ready? then s.out + p.poll.value else s.out, s.ended || p.poll == Ready([]))
  }

  predicate Sound(max: nat, src: seq<byte>, s: Session) {
    && s.r.max == max && s.r.current == |s.out| <= max && s.out + s.r.src == src
    && (s.ended ==> |s.out| == max || s.r.src == [])
  }

  lemma DoSound(max: nat, src: seq<byte>, s: Session, c: Call)
    requires Sound(max, src, s)
    ensures Sound(max, src, Do(s, c))
  {
    var p := PollRead(s.r, c.room, c.env);
    if p.poll.Ready? {
      assert p.poll.value + p.r.src == s.r.src;
      assert s.out + p.poll.value + p.r.src == s.out + (p.poll.value + p.r.src);
    }
  }

  /** Over every run the bytes are the first ones of the source and never more than the limit, not one more is taken
      from the source, and the end is told only at the limit or where the source ends. */
  lemma FirstBytes(max: nat, src: seq<byte>, calls: seq<Call>)
    ensures var s := After(Do, Session(Reader(max, 0, src), [], false), calls);
            && |s.out| <= Min(max, |src|) && s.out == src[..|s.out|] && s.r.src == src[|s.out|..]
            && (s.ended ==> |s.out| == Min(max, |src|))
  {
    forall s, c | Sound(max, src, s) ensures Sound(max, src, Do(s, c)) {
      DoSound(max, src, s, c);
    }
    Invariant(Do, s => Sound(max, src, s), Session(Reader(max, 0, src), [], false), calls);
  }

  class LimitReader {
    const max: nat
    var current: nat
    var src: seq<byte>
    var answers: seq<Answer>

    constructor (max: nat, src: seq<byte>)
      ensures View() == Reader(max, 0, src) && answers == []
    {
      this.max, current, this.src, answers := max, 0, src, [];
    }

    ghost function View(): Reader
      reads this
    {
      Reader(max, current, src)
    }

    method Poll(room: nat) returns (poll: Poll<seq<byte>>)
      modifies this`current, this`src, this`answers
      ensures Polled(View(), poll, answers) == PollRead(old(View()), room, old(answers))
    {
      if current > max {
        return Failed(Implementation);
      }
      var remaining := max - current;
      if remaining == 0 {
        return Ready([]);
      }
      var (got, later) := ReadSource(if remaining >= room then room else remaining, src, answers);
      poll, answers := got, later;
      if poll.Ready? {
        src := src[|poll.value|..];
        current := current + |poll.value|;
      }
    }
  }
}
