/** src/lib.rs: the loop of `read_request_inner` over the header lines, and that its result does not depend on how
    the bytes of the request arrive. */
module HeaderLines {
  import opened Basics
  import opened Polling
  import opened Parse
  import opened HeaderFraming
  import Buffer

  // ---------- the reference ----------

  datatype Lines = Lines(headers: seq<Header>, rest: seq<byte>)

  function Prepend(headers: seq<Header>, l: Option<Lines>): Option<Lines> {
    if l.Some? then Some(Lines(headers + l.value.headers, l.value.rest)) else None
  }

  /** The limits: what the parser accepts, the longest line, and the size of the buffer, which must also hold the byte
      behind a line. */
  datatype Limits = Limits(accept: Accept, lineMax: nat, capacity: nat)

  /** One line after the other up to the empty line. */
  function ReadAll(l: Limits, u: seq<byte>): Option<Lines>
    decreases |u|
  {
    if u == [] then None
    else if u[0] == CR then if LineEnd(u) && l.capacity >= 2 then Some(Lines([], u[2..])) else None
    else
      match HeaderEnd(u)
      case Found(e) =>
        FoundLine(u);
        var parsed := ParseHeader(l.accept, u);
        if e < l.capacity && e <= l.lineMax && parsed.Some? then Prepend([parsed.value.header], ReadAll(l, u[e..]))
        else None
      case _ => None
  }

  // ---------- the loop ----------

  datatype State = State(buf: seq<byte>, src: seq<byte>, headers: seq<Header>)

  datatype Verdict = Complete | Rejected | Eof | Broken | Waiting

  datatype Stopped = Stopped(s: State, verdict: Verdict, env: seq<Answer>)

  /** One look at the buffer: a finished or refused loop, a line taken, or a need for more bytes. */
  datatype Look = Over(verdict: Verdict) | Taken(header: Header, end: nat) | ReadMore

  function LookAt(l: Limits, buf: seq<byte>): (r: Look)
    requires buf != []
    ensures r.Taken? ==> 0 < r.end < |buf|
    ensures r == Over(Complete) <==> LineEnd(buf)
  {
    if buf[0] == CR then
      if |buf| < 2 then ReadMore else if buf[1] == NL then Over(Complete) else Over(Rejected)
    else
      match HeaderEnd(buf)
      case Bad => Over(Rejected)
      case More => ReadMore
      case Found(e) =>
        FoundLine(buf);
        var parsed := ParseHeader(l.accept, buf);
        if e > l.lineMax || parsed.None? then Over(Rejected) else Taken(parsed.value.header, e)
  }

  /** What the next read brings, or why the loop ends. */
  function Arrive(l: Limits, s: State, env: seq<Answer>): (r: (State, Option<Verdict>, seq<Answer>))
    requires s.buf != []
    ensures r.1.None? ==> r.0.buf != [] && |r.2| < |env|
  {
    var (got, rest) := ReadSource(if |s.buf| <= l.capacity then l.capacity - |s.buf| else 0, s.src, env);
    match got
    case Ready(bytes) =>
      if bytes == [] then (s, Some(Eof), rest)
      else (s.(buf := s.buf + bytes, src := s.src[|bytes|..]), None, rest)
    case Pending => (s, Some(Waiting), rest)
    case Failed(_) => (s, Some(Broken), rest)
  }

  function Loop(l: Limits, s: State, env: seq<Answer>): Stopped
    requires s.buf != []
    decreases |env|, |s.buf|
  {
    match LookAt(l, s.buf)
    case Over(v) => Stopped(if v.Complete? then s.(buf := s.buf[2..]) else s, v, env)
    case Taken(header, end) => Loop(l, s.(buf := s.buf[end..], headers := s.headers + [header]), env)
    case ReadMore =>
      var (t, verdict, rest) := Arrive(l, s, env);
      if verdict.Some? then Stopped(t, verdict.value, rest) else Loop(l, t, rest)
  }

  // ---------- independence of the segmentation ----------

  /** A line is found as soon as its end and the byte behind it are there. */
  lemma {:induction false} FoundSoon(u: seq<byte>, idx: nat, k: nat)
    requires HeaderEndFrom(u, idx).Found? && HeaderEndFrom(u, idx).end < k <= |u|
    ensures HeaderEndFrom(u[..k], idx) == HeaderEndFrom(u, idx)
    decreases |u| - idx
  {
    EndBeyond(u, idx);
    if u[idx] != CR {
      FoundSoon(u, idx + 1, k);
    } else if IsLws(u[idx + 2]) {
      FoundSoon(u, idx + 3, k);
    }
  }

  lemma {:induction false} EndBeyond(u: seq<byte>, idx: nat)
    requires HeaderEndFrom(u, idx).Found?
    ensures idx + 2 <= HeaderEndFrom(u, idx).end
    decreases |u| - idx
  {
    if u[idx] != CR {
      EndBeyond(u, idx + 1);
    } else if IsLws(u[idx + 2]) {
      EndBeyond(u, idx + 3);
    }
  }

  /** A look that refuses is right about all bytes, arrived or not. */
  lemma Refused(l: Limits, buf: seq<byte>, src: seq<byte>)
    requires buf != [] && |buf| <= l.capacity
    requires LookAt(l, buf) == Over(Rejected) || (LookAt(l, buf).ReadMore? && (src == [] || |buf| == l.capacity))
    ensures ReadAll(l, buf + src).None?
  {
    var u := buf + src;
    assert u[..|buf|] == buf;
    if buf[0] != CR {
      match HeaderEnd(buf)
      case More =>
        if src == [] {
          assert u == buf;
        } else if HeaderEnd(u).Found? && HeaderEnd(u).end < l.capacity {
          FoundSoon(u, 1, |buf|);
        }
      case Bad => HeaderOnline(buf, src);
      case Found(e) =>
        HeaderOnline(buf, src);
        ParseLocal(l.accept, buf, src);
    } else if src == [] {
      assert u == buf;
    }
  }

  lemma ReadLine(l: Limits, u: seq<byte>, header: Header, e: nat)
    requires u != [] && u[0] != CR && HeaderEnd(u) == Found(e) && e < l.capacity && e <= l.lineMax
    requires ParseHeader(l.accept, u).Some? && ParseHeader(l.accept, u).value.header == header
    ensures e <= |u| && ReadAll(l, u) == Prepend([header], ReadAll(l, u[e..]))
  {
    FoundLine(u);
  }

  /** A line taken is the first line of all bytes. */
  lemma FirstLine(l: Limits, buf: seq<byte>, src: seq<byte>)
    requires buf != [] && |buf| <= l.capacity && LookAt(l, buf).Taken?
    ensures var t := LookAt(l, buf);
            ReadAll(l, buf + src) == Prepend([t.header], ReadAll(l, buf[t.end..] + src))
  {
    var t := LookAt(l, buf);
    FirstLineAt(l, buf, src, t.header, t.end);
  }

  lemma FirstLineAt(l: Limits, buf: seq<byte>, src: seq<byte>, header: Header, e: nat)
    requires buf != [] && buf[0] != CR && HeaderEnd(buf) == Found(e) && e < l.capacity && e <= l.lineMax && e <= |buf|
    requires ParseHeader(l.accept, buf).Some? && ParseHeader(l.accept, buf).value.header == header
    ensures ReadAll(l, buf + src) == Prepend([header], ReadAll(l, buf[e..] + src))
  {
    HeaderOnline(buf, src);
    ParseLocal(l.accept, buf, src);
    ReadLine(l, buf + src, header, e);
    assert (buf + src)[e..] == buf[e..] + src;
  }

  lemma PrependTwice(a: seq<Header>, b: seq<Header>, l: Option<Lines>)
    ensures Prepend(a, Prepend(b, l)) == Prepend(a + b, l)
  {
    if l.Some? {
      assert a + (b + l.value.headers) == a + b + l.value.headers;
    }
  }

  /** What the whole loop has to deliver from a state on. */
  function All(l: Limits, s: State): Option<Lines> {
    Prepend(s.headers, ReadAll(l, s.buf + s.src))
  }

  lemma TakenKeeps(l: Limits, s: State)
    requires s.buf != [] && |s.buf| <= l.capacity && LookAt(l, s.buf).Taken?
    ensures var t := LookAt(l, s.buf);
            All(l, s) == All(l, s.(buf := s.buf[t.end..], headers := s.headers + [t.header]))
  {
    FirstLine(l, s.buf, s.src);
    var t := LookAt(l, s.buf);
    PrependTwice(s.headers, [t.header], ReadAll(l, s.buf[t.end..] + s.src));
  }

  lemma ArrivalKeeps(l: Limits, s: State, n: nat)
    requires n <= |s.src|
    ensures All(l, s) == All(l, s.(buf := s.buf + s.src[..n], src := s.src[n..]))
  {
    assert s.buf + s.src[..n] + s.src[n..] == s.buf + s.src;
  }

  /** A stopped loop is right about what it had to deliver. */
  predicate Delivers(l: Limits, all: Option<Lines>, r: Stopped, env: seq<Answer>) {
    match r.verdict
    case Complete => all == Some(Lines(r.s.headers, r.s.buf + r.s.src))
    case Waiting => all == All(l, r.s)
    case Broken => Fail in env
    case _ => all.None?
  }

  /** However the bytes arrive, the loop ends with the lines of the reference and leaves what it leaves; it refuses
      or misses the end only where the reference does; and a wait loses nothing. */
  lemma {:induction false} LoopRefines(l: Limits, s: State, env: seq<Answer>)
    requires s.buf != [] && |s.buf| <= l.capacity
    ensures Delivers(l, All(l, s), Loop(l, s, env), env)
    decreases |env|, |s.buf|
  {
    match LookAt(l, s.buf)
    case Over(_) => OverDelivers(l, s, env);
    case Taken(header, end) =>
      TakenKeeps(l, s);
      LoopRefines(l, s.(buf := s.buf[end..], headers := s.headers + [header]), env);
    case ReadMore =>
      var (got, rest) := ReadSource(l.capacity - |s.buf|, s.src, env);
      if got.Ready? && got.value != [] {
        var t := s.(buf := s.buf + got.value, src := s.src[|got.value|..]);
        ArrivalKeeps(l, s, |got.value|);
        LoopRefines(l, t, rest);
        LaterDelivers(l, All(l, s), Loop(l, t, rest), env, rest);
      } else {
        EndDelivers(l, s, env);
      }
  }

  lemma OverDelivers(l: Limits, s: State, env: seq<Answer>)
    requires s.buf != [] && |s.buf| <= l.capacity && LookAt(l, s.buf).Over?
    ensures Delivers(l, All(l, s), Loop(l, s, env), env)
  {
    if LookAt(l, s.buf).verdict.Complete? {
      CompleteHere(l, s);
    } else {
      OverRejected(l, s.buf);
      Refused(l, s.buf, s.src);
    }
  }

  lemma LaterDelivers(l: Limits, all: Option<Lines>, r: Stopped, env: seq<Answer>, rest: seq<Answer>)
    requires Delivers(l, all, r, rest) && (Fail in rest ==> Fail in env)
    ensures Delivers(l, all, r, env)
  {
  }

  /** Nothing arrives: the source ends, waits or fails. */
  lemma EndDelivers(l: Limits, s: State, env: seq<Answer>)
    requires s.buf != [] && |s.buf| <= l.capacity && LookAt(l, s.buf).ReadMore?
    requires var got := ReadSource(l.capacity - |s.buf|, s.src, env).0; got.Ready? ==> got.value == []
    ensures Delivers(l, All(l, s), Loop(l, s, env), env)
  {
    if ReadSource(l.capacity - |s.buf|, s.src, env).0.Ready? {
      Refused(l, s.buf, s.src);
    }
  }

  lemma OverRejected(l: Limits, buf: seq<byte>)
    requires buf != [] && LookAt(l, buf).Over? && !LookAt(l, buf).verdict.Complete?
    ensures LookAt(l, buf) == Over(Rejected)
  {
  }

  lemma CompleteHere(l: Limits, s: State)
    requires s.buf != [] && |s.buf| <= l.capacity && LineEnd(s.buf)
    ensures All(l, s) == Some(Lines(s.headers, s.buf[2..] + s.src))
  {
    assert (s.buf + s.src)[2..] == s.buf[2..] + s.src;
    assert s.headers + [] == s.headers;
  }

  /** The loop waits only where the source does: it has no answer left, or one that says so. */
  lemma {:induction false} LoopWaits(l: Limits, s: State, env: seq<Answer>)
    requires s.buf != []
    ensures var r := Loop(l, s, env);
            && (r.verdict.Waiting? ==> Block in env || r.env == [])
            && (Block in r.env ==> Block in env)
    decreases |env|, |s.buf|
  {
    match LookAt(l, s.buf)
    case Over(_) =>
    case Taken(header, end) => LoopWaits(l, s.(buf := s.buf[end..], headers := s.headers + [header]), env);
    case ReadMore =>
      var (t, verdict, rest) := Arrive(l, s, env);
      if verdict.None? {
        LoopWaits(l, t, rest);
      }
  }

  /** Two runs over the same bytes that both come to the end read the same headers and leave the same bytes. */
  lemma SameForAllSegmentations(l: Limits, s: State, t: State, env: seq<Answer>, other: seq<Answer>)
    requires s.buf != [] && |s.buf| <= l.capacity && t.buf != [] && |t.buf| <= l.capacity
    requires s.buf + s.src == t.buf + t.src && s.headers == t.headers
    requires Loop(l, s, env).verdict.Complete? && Loop(l, t, other).verdict.Complete?
    ensures Loop(l, s, env).s.headers == Loop(l, t, other).s.headers
    ensures Loop(l, s, env).s.buf + Loop(l, s, env).s.src == Loop(l, t, other).s.buf + Loop(l, t, other).s.src
  {
    LoopRefines(l, s, env);
    LoopRefines(l, t, other);
    assert All(l, s) == All(l, t);
  }

  // ---------- the object ----------

  class Request {
    const limits: Limits
    const buffer: Buffer.Buffer
    var headers: seq<Header>
    // The bytes that have not arrived yet, and how they arrive.
    var src: seq<byte>
    var answers: seq<Answer>

    ghost predicate Ok()
      reads this, buffer, buffer.inner
    {
      buffer.Valid() && buffer.inner.Length == limits.capacity && buffer.Readable() != []
    }

    ghost function View(): State
      requires buffer.Valid()
      reads this, buffer, buffer.inner
    {
      State(buffer.Readable(), src, headers)
    }

    constructor (limits: Limits, buffer: Buffer.Buffer, src: seq<byte>)
      requires buffer.Valid()
      ensures this.limits == limits && this.buffer == buffer
      ensures View() == State(buffer.Readable(), src, []) && answers == []
    {
      this.limits, this.buffer, this.src := limits, buffer, src;
      headers, answers := [], [];
    }

    /** `read_into_buffer`. */
    method ReadIntoBuffer() returns (poll: Poll<nat>)
      requires Ok()
      modifies this`src, this`answers, buffer, buffer.inner
      ensures Ok() && buffer.inner == old(buffer.inner)
      ensures var room := limits.capacity - |old(buffer.Readable())|;
              var (got, rest) := ReadSource(room, old(src), old(answers));
              && answers == rest
              && (got.Ready? ==> poll == Ready(|got.value|) && buffer.Readable() == old(buffer.Readable()) + got.value
                                 && src == old(src)[|got.value|..])
              && (got.Pending? ==> poll == Pending) && (got.Failed? ==> poll == Failed(got.error))
              && (!got.Ready? ==> View() == old(View()))
    {
      var (got, rest) := ReadSource(buffer.AvailableForWrite(), src, answers);
      answers := rest;
      match got {
        case Pending => return Pending;
        case Failed(e) => return Failed(e);
        case Ready(bytes) =>
          src := src[|bytes|..];
          var n := buffer.Write(bytes);
          assert bytes[..|bytes|] == bytes;
          return Ready(|bytes|);
      }
    }

    /** One turn at the top of the loop. */
    method Inspect() returns (look: Look)
      requires Ok()
      ensures look == LookAt(limits, buffer.Readable())
    {
      var content := buffer.Readable();
      if content[0] == CR {
        if |content| < 2 {
          return ReadMore;
        }
        return if content[1] == NL then Over(Complete) else Over(Rejected);
      }
      var end := FindHeaderEnd(content);
      match end {
        case Bad => return Over(Rejected);
        case More => return ReadMore;
        case Found(e) =>
          if e > limits.lineMax {
            return Over(Rejected);
          }
          var parsed := ParseRequestHeader(limits.accept, content);
          return if parsed.None? then Over(Rejected) else Taken(parsed.value.header, e);
      }
    }

    /** The end of a turn that needs more bytes. */
    method Refill() returns (verdict: Option<Verdict>)
      requires Ok()
      modifies this`src, this`answers, buffer, buffer.inner
      ensures buffer.Valid() && buffer.inner == old(buffer.inner)
      ensures (View(), verdict, answers) == Arrive(limits, old(View()), old(answers))
    {
      var got := ReadIntoBuffer();
      match got {
        case Ready(n) =>
          assert n == 0 ==> buffer.Readable() == old(buffer.Readable()) && src == old(src);
          return if n == 0 then Some(Eof) else None;
        case Pending => return Some(Waiting);
        case Failed(_) => return Some(Broken);
      }
    }

    method ReadHeaders() returns (verdict: Verdict)
      requires Ok()
      modifies this, buffer, buffer.inner
      ensures buffer.Valid() && Stopped(View(), verdict, answers) == Loop(limits, old(View()), old(answers))
    {
      while true
        invariant Ok() && buffer.inner == old(buffer.inner)
        invariant Loop(limits, View(), answers) == Loop(limits, old(View()), old(answers))
        decreases |answers|, |buffer.Readable()|
      {
        var look := Inspect();
        match look {
          case Over(v) =>
            if v.Complete? {
              buffer.Progress(2);
            }
            return v;
          case Taken(header, end) =>
            headers := headers + [header];
            buffer.Progress(end);
          case ReadMore =>
            var over := Refill();
            if over.Some? {
              return over.value;
            }
        }
      }
    }
  }
}
