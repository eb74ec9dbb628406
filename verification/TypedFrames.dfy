/** src/http2/frame.rs: the conversions between frames and their typed forms (section 6 of RFC 7540). */
module TypedFrames {
  import opened Basics
  import opened H2Errors
  import opened BigEndian
  import opened Seqs
  import S = Settings
  import opened SettingsCodec
  import F = Frames

  type u64 = n: nat | n < U64_LIMIT

  datatype Dependency = Dependency(stream: u32, exclusive: bool, weight: byte)

  datatype Typed =
    | Data(stream: u32, endStream: bool, data: seq<byte>)
    | Headers(stream: u32, endStream: bool, endHeaders: bool, priority: Option<Dependency>, data: seq<byte>)
    | Priority(stream: u32, dependency: Dependency)
    | RstStream(stream: u32, error: Option<ErrorCode>)
    | Settings(settings: S.SettingsFrame)
    | Ping(ack: bool, number: u64)
    | GoAway(lastStream: u32, error: Option<ErrorCode>, debug: seq<byte>)
    | WindowUpdate(stream: u32, increment: u32)
    | Continuation(stream: u32, endHeaders: bool, data: seq<byte>)

  // ---------- error codes ----------

  function ErrorNumber(c: ErrorCode): (n: u32)
    ensures n <= 13
  {
    match c
    case NoError => 0
    case ProtocolError => 1
    case InternalError => 2
    case FlowControlError => 3
    case SettingsTimeout => 4
    case StreamClosedError => 5
    case FrameSizeError => 6
    case RefusedStream => 7
    case Cancel => 8
    case CompressionError => 9
    case ConnectError => 10
    case EnhanceYourCalm => 11
    case InadequateSecurity => 12
    case Http11Required => 13
  }

  /** `ErrorCode::from_u32`. */
  function ErrorOf(n: nat): (c: Option<ErrorCode>)
    ensures c.Some? <==> n <= 13
    ensures c.Some? ==> ErrorNumber(c.value) == n
  {
    match n
    case 0 => Some(NoError)
    case 1 => Some(ProtocolError)
    case 2 => Some(InternalError)
    case 3 => Some(FlowControlError)
    case 4 => Some(SettingsTimeout)
    case 5 => Some(StreamClosedError)
    case 6 => Some(FrameSizeError)
    case 7 => Some(RefusedStream)
    case 8 => Some(Cancel)
    case 9 => Some(CompressionError)
    case 10 => Some(ConnectError)
    case 11 => Some(EnhanceYourCalm)
    case 12 => Some(InadequateSecurity)
    case 13 => Some(Http11Required)
    case _ => None
  }

  /** The error codes in the order of their numbers (section 7 of RFC 7540). */
  const CODES: seq<ErrorCode> :=
    [NoError, ProtocolError, InternalError, FlowControlError, SettingsTimeout, StreamClosedError, FrameSizeError,
     RefusedStream, Cancel, CompressionError, ConnectError, EnhanceYourCalm, InadequateSecurity, Http11Required]

  /** The number of a code is its place in that list, and is sent in four bytes; an unknown code is sent as an internal
      error. */
  lemma ErrorNumbers(c: ErrorCode, n: byte)
    ensures ErrorNumber(c) == n <==> n < 14 && CODES[n] == c
    ensures ErrorOf(n) == if n < 14 then Some(CODES[n]) else None
    ensures n < 14 ==> ErrorBytes(Some(CODES[n])) == [0, 0, 0, n]
    ensures ErrorBytes(None) == [0, 0, 0, 2]
  {
    SmallNumber(n);
    SmallNumber(2);
  }

  lemma SmallNumber(n: byte)
    ensures ToBytes(n, 4) == [0, 0, 0, n]
  {
    var s := ToBytes(n, 4);
    Powers();
    ReadWritten(n, 4);
    FourBytes(s);
  }

  lemma ErrorOfNumber(c: ErrorCode)
    ensures ErrorOf(ErrorNumber(c)) == Some(c)
  {
  }

  /** An unknown code is sent on as an internal error. */
  function ErrorBytes(c: Option<ErrorCode>): (s: seq<byte>)
    ensures |s| == 4
  {
    ToBytes(if c.Some? then ErrorNumber(c.value) else ErrorNumber(InternalError), 4)
  }

  // ---------- priorities ----------

  function DependencyBytes(d: Dependency): (s: seq<byte>)
    ensures |s| == 5
  {
    ToBytes(d.stream % F.STREAM_ID_LIMIT + (if d.exclusive then F.STREAM_ID_LIMIT else 0), 4) + [d.weight]
  }

  function DependencyOf(s: seq<byte>): Dependency
    requires |s| >= 5
  {
    Dependency(F.StreamOf(s[..4]), FromBytes(s[..4]) >= F.STREAM_ID_LIMIT, s[4])
  }

  lemma DependencyRead(d: Dependency)
    ensures DependencyOf(DependencyBytes(d)) == d <==> d.stream < F.STREAM_ID_LIMIT
  {
    var n := d.stream % F.STREAM_ID_LIMIT + (if d.exclusive then F.STREAM_ID_LIMIT else 0);
    Powers();
    ReadWritten(n, 4);
    DependencyParts(DependencyBytes(d), ToBytes(n, 4), d.weight, n);
  }

  lemma DependencyParts(s: seq<byte>, t: seq<byte>, weight: byte, n: nat)
    requires |t| == 4 && s == t + [weight] && FromBytes(t) == n
    ensures n < U32_LIMIT
    ensures DependencyOf(s) == Dependency(n % F.STREAM_ID_LIMIT, n >= F.STREAM_ID_LIMIT, weight)
  {
    Bounded(t);
    Powers();
    assert s[..4] == t && s[4] == weight;
  }

  // ---------- to frames ----------

  function Header(kind: F.FrameType, first: bool, endHeaders: bool, stream: u32): F.FrameHeader {
    F.FrameHeader(kind, F.Flags(first, endHeaders, false, false), stream)
  }

  function ToFrame(t: Typed): F.Frame {
    match t
    case Data(stream, endStream, data) => F.Frame(Header(F.Data, endStream, false, stream), data)
    case Headers(stream, endStream, endHeaders, priority, data) =>
      F.Frame(Header(F.Headers, endStream, endHeaders, stream),
              if priority.Some? then DependencyBytes(priority.value) + data else data)
    case Priority(stream, dependency) =>
      F.Frame(Header(F.Priority, false, false, stream), DependencyBytes(dependency))
    case RstStream(stream, error) => F.Frame(Header(F.RstStream, false, false, stream), ErrorBytes(error))
    case Settings(settings) => F.Frame(Header(F.Settings, settings.ack, false, 0), Encode(settings))
    case Ping(ack, number) => F.Frame(Header(F.Ping, ack, false, 0), ToBytes(number, 8))
    case GoAway(lastStream, error, debug) =>
      F.Frame(Header(F.GoAway, false, false, 0), ToBytes(lastStream, 4) + ErrorBytes(error) + debug)
    case WindowUpdate(stream, increment) =>
      F.Frame(Header(F.WindowUpdate, false, false, stream), ToBytes(increment, 4))
    case Continuation(stream, endHeaders, data) => F.Frame(Header(F.Continuation, false, endHeaders, stream), data)
  }

  /** The only flags sent are END_STREAM or ACK, and END_HEADERS, on the frames that have them. */
  lemma FlagsSent(t: Typed)
    ensures F.Bits(ToFrame(t).header.flags) ==
              match t
              case Data(_, endStream, _) => if endStream then 0x1 else 0x0
              case Headers(_, endStream, endHeaders, _, _) =>
                if endStream && endHeaders then 0x5 else if endHeaders then 0x4 else if endStream then 0x1 else 0x0
              case Settings(settings) => if settings.ack then 0x1 else 0x0
              case Ping(ack, _) => if ack then 0x1 else 0x0
              case Continuation(_, endHeaders, _) => if endHeaders then 0x4 else 0x0
              case _ => 0x0
  {
  }

  /** A frame goes to its own stream, frames of the connection to stream 0. */
  lemma StreamSent(t: Typed)
    ensures ToFrame(t).header.stream ==
              if t.Settings? || t.Ping? || t.GoAway? then 0 else t.stream
  {
  }

  /** Four bytes as a number, most significant first. */
  function Word(p: seq<byte>, at: nat): int
    requires at + 4 <= |p|
  {
    p[at] as int * 0x100_0000 + p[at + 1] as int * 0x1_0000 + p[at + 2] as int * 0x100 + p[at + 3]
  }

  lemma WordWritten(n: u32, s: seq<byte>, t: seq<byte>)
    ensures var p := s + ToBytes(n, 4) + t; Word(p, |s|) == n
  {
    var b := ToBytes(n, 4);
    Powers();
    ReadWritten(n, 4);
    FourBytes(b);
    var p := s + b + t;
    assert p[|s|] == b[0] && p[|s| + 1] == b[1] && p[|s| + 2] == b[2] && p[|s| + 3] == b[3];
  }

  /** A stream dependency: the exclusive flag is the first bit, then the stream, then the weight. */
  predicate DependencySent(d: Dependency, p: seq<byte>) {
    |p| >= 5 && Word(p, 0) == d.stream % 0x8000_0000 + (if d.exclusive then 0x8000_0000 else 0) && p[4] == d.weight
  }

  lemma DependencyWritten(d: Dependency, rest: seq<byte>)
    ensures DependencySent(d, DependencyBytes(d) + rest)
  {
    var n := d.stream % F.STREAM_ID_LIMIT + (if d.exclusive then F.STREAM_ID_LIMIT else 0);
    WordWritten(n, [], [d.weight] + rest);
    assert DependencyBytes(d) + rest == [] + ToBytes(n, 4) + ([d.weight] + rest);
  }

  /** Where section 6 of RFC 7540 puts the numbers in the payload. */
  lemma NumbersSent(t: Typed)
    ensures var p := ToFrame(t).payload;
            match t
            case Priority(_, d) => |p| == 5 && DependencySent(d, p)
            case Headers(_, _, _, Some(d), data) => DependencySent(d, p) && p[5..] == data
            case RstStream(_, Some(c)) => |p| == 4 && Word(p, 0) == ErrorNumber(c)
            case WindowUpdate(_, n) => |p| == 4 && Word(p, 0) == n
            case GoAway(last, Some(c), debug) =>
              |p| >= 8 && Word(p, 0) == last && Word(p, 4) == ErrorNumber(c) && p[8..] == debug
            case _ => true
  {
    var p := ToFrame(t).payload;
    match t
    case Priority(_, d) =>
      DependencyWritten(d, []);
      assert p + [] == p;
    case Headers(_, _, _, Some(d), data) => DependencyWritten(d, data);
    case RstStream(_, Some(c)) =>
      WordWritten(ErrorNumber(c), [], []);
      assert [] + p + [] == p;
    case WindowUpdate(_, n) =>
      WordWritten(n, [], []);
      assert [] + p + [] == p;
    case GoAway(last, Some(c), debug) =>
      WordWritten(last, [], ErrorBytes(Some(c)) + debug);
      WordWritten(ErrorNumber(c), ToBytes(last, 4), debug);
      assert p == [] + ToBytes(last, 4) + (ErrorBytes(Some(c)) + debug);
    case _ =>
  }

  // ---------- from frames ----------

  /** `Panic` where the source slices beyond the payload. */
  datatype Converted = Is(typed: Typed) | Refused(error: H2Error) | Panic

  function FromFrame(f: F.Frame): Converted {
    var h, p := f.header, f.payload;
    match h.kind
    case Data =>
      if h.stream == 0 then Refused(ConnectionError(ProtocolError)) else Is(Data(h.stream, h.flags.first, p))
    case Headers =>
      if h.stream == 0 then Refused(ConnectionError(ProtocolError))
      else if !h.flags.priority then Is(Headers(h.stream, h.flags.first, h.flags.endHeaders, None, p))
      else
        var at := if h.flags.padded then 8 else 0;
        if |p| < at + 5 then Panic
        else
          Is(Headers(h.stream, h.flags.first, h.flags.endHeaders, Some(DependencyOf(p[at..at + 5])), p[at + 5..]))
    case Priority => if |p| < 5 then Panic else Is(Priority(h.stream, DependencyOf(p)))
    case RstStream => if |p| != 4 then Panic else Is(RstStream(h.stream, ErrorOf(FromBytes(p))))
    case Settings =>
      var s := Decode(h.flags.first, p);
      if s.Ok? then Is(Settings(s.value)) else Refused(s.error)
    case Ping =>
      if |p| != 8 then Panic
      else
        Bounded(p);
        Powers();
        Is(Ping(h.flags.first, FromBytes(p)))
    case GoAway =>
      if |p| < 8 then Panic else Is(GoAway(F.StreamOf(p[..4]), ErrorOf(FromBytes(p[4..8])), p[8..]))
    case WindowUpdate => if |p| < 4 then Panic else Is(WindowUpdate(h.stream, F.StreamOf(p[..4])))
    case Continuation => Is(Continuation(h.stream, h.flags.endHeaders, p))
    case PushPromise => Refused(ConnectionError(ProtocolError))
  }

  /** DATA and HEADERS without a stream are refused, as is PUSH_PROMISE, and SETTINGS for what they hold. */
  lemma FramesRefused(f: F.Frame)
    ensures FromFrame(f).Refused? <==>
              || ((f.header.kind.Data? || f.header.kind.Headers?) && f.header.stream == 0)
              || f.header.kind.PushPromise?
              || (f.header.kind.Settings? && Decode(f.header.flags.first, f.payload).Err?)
    ensures FromFrame(f).Refused? ==>
              FromFrame(f).error == if f.header.kind.Settings? then Decode(f.header.flags.first, f.payload).error
                                    else ConnectionError(ProtocolError)
  {
  }

  /** Without the checks on the header, the conversion leaves the payload exactly where that is too short, or not of the
      one size for RST_STREAM and PING. */
  lemma PayloadNeeded(f: F.Frame)
    ensures FromFrame(f).Panic? <==>
              match f.header.kind
              case Headers =>
                f.header.stream != 0 && f.header.flags.priority && |f.payload| < if f.header.flags.padded then 13 else 5
              case Priority => |f.payload| < 5
              case RstStream => |f.payload| != 4
              case Ping => |f.payload| != 8
              case GoAway => |f.payload| < 8
              case WindowUpdate => |f.payload| < 4
              case _ => false
  {
  }

  /** For every frame that passed the checks on its header, the conversion stays within the payload, except for
      HEADERS with padding and a priority, which is looked for eight bytes too late. */
  lemma StaysWithinPayload(raw: F.RawHeader, payload: seq<byte>)
    requires raw.length == |payload| && F.FromHeaderAndPayload(raw, payload).Ok?
    ensures var f := F.FromHeaderAndPayload(raw, payload).value;
            FromFrame(f).Panic? <==>
              f.header.kind.Headers? && f.header.flags.padded && f.header.flags.priority && |f.payload| < 13
  {
  }

  // ---------- round trips ----------

  /** What the typed form must satisfy to survive. */
  predicate Canonical(t: Typed) {
    match t
    case Data(stream, _, _) => stream != 0
    case Headers(stream, _, _, priority, _) => stream != 0 && priority.None?
    case Priority(_, dependency) => dependency.stream < F.STREAM_ID_LIMIT
    case RstStream(_, error) => error.Some?
    case Settings(settings) => settings.ack ==> settings == EMPTY.(ack := true)
    case Ping(_, _) => true
    case GoAway(lastStream, error, _) => lastStream < F.STREAM_ID_LIMIT && error.Some?
    case WindowUpdate(_, increment) => increment < F.STREAM_ID_LIMIT
    case Continuation(_, _, _) => true
  }

  lemma ErrorRead(c: Option<ErrorCode>)
    ensures ErrorOf(FromBytes(ErrorBytes(c))) == c <==> c.Some?
  {
    Powers();
    ReadWritten(if c.Some? then ErrorNumber(c.value) else ErrorNumber(InternalError), 4);
    ErrorOfNumber(InternalError);
    if c.Some? {
      ErrorOfNumber(c.value);
    }
  }

  lemma StreamRead(n: u32)
    ensures F.StreamOf(ToBytes(n, 4)) == n <==> n < F.STREAM_ID_LIMIT
  {
    Powers();
    ReadWritten(n, 4);
  }

  lemma SettingsRead(s: S.SettingsFrame)
    ensures Decode(s.ack, Encode(s)) == Ok(s) <==> (s.ack ==> s == EMPTY.(ack := true))
  {
    if s.ack {
      assert EntriesFrom(EMPTY.(ack := true), 1) == [];
    } else {
      SettingsRoundTrip(s);
    }
  }

  predicate Survives(t: Typed) {
    FromFrame(ToFrame(t)) == Is(t)
  }

  lemma NumbersSurvive(t: Typed)
    requires t.Priority? || t.RstStream? || t.Settings? || t.Ping?
    ensures Survives(t) <==> Canonical(t)
  {
    match t
    case Priority(_, dependency) => DependencyRead(dependency);
    case RstStream(_, error) => ErrorRead(error);
    case Settings(settings) => SettingsRead(settings);
    case Ping(_, number) =>
      Powers();
      ReadWritten(number, 8);
  }

  lemma GoAwaySurvives(t: Typed)
    requires t.GoAway?
    ensures Survives(t) <==> Canonical(t)
  {
    var p := ToFrame(t).payload;
    assert p[..4] == ToBytes(t.lastStream, 4);
    assert p[4..8] == ErrorBytes(t.error);
    assert p[8..] == t.debug;
    StreamRead(t.lastStream);
    ErrorRead(t.error);
  }

  lemma WindowUpdateSurvives(t: Typed)
    requires t.WindowUpdate?
    ensures Survives(t) <==> Canonical(t)
  {
    assert ToBytes(t.increment, 4)[..4] == ToBytes(t.increment, 4);
    StreamRead(t.increment);
  }

  /** Converting to a frame and back gives the same typed frame exactly for the canonical ones. */
  lemma TypedRoundTrip(t: Typed)
    ensures FromFrame(ToFrame(t)) == Is(t) <==> Canonical(t)
  {
    match t
    case Data(_, _, _) =>
    case Headers(_, _, _, _, _) =>
    case Continuation(_, _, _) =>
    case GoAway(_, _, _) => GoAwaySurvives(t);
    case WindowUpdate(_, _) => WindowUpdateSurvives(t);
    case _ => NumbersSurvive(t);
  }

  /** What a typed frame needs for the wire: a stream id that fits and is zero or not as its type demands. */
  predicate Sendable(t: Typed) {
    && |ToFrame(t).payload| < 0x100_0000 && ToFrame(t).header.stream < F.STREAM_ID_LIMIT
    && (t.Priority? || t.RstStream? ==> t.stream != 0) && (t.Continuation? ==> t.stream == 0)
  }

  lemma {:induction false} SixEach(entries: seq<Entry>)
    ensures |FlatMap(entries, EntryBytes)| == 6 * |entries|
  {
    if entries != [] {
      SixEach(entries[1..]);
    }
  }

  /** Over the wire: a canonical frame whose stream id and length fit is written, read and converted back unchanged,
      whatever follows. */
  lemma WireRoundTrip(capacity: nat, t: Typed, tail: seq<byte>)
    requires Canonical(t) && Sendable(t) && capacity >= 9 && |ToFrame(t).payload| <= capacity
    ensures var r := F.ReadFirst(capacity, F.Write(ToFrame(t)) + tail);
            r.Ok? && FromFrame(r.value.frame) == Is(t) && r.value.rest == tail
  {
    SendableFrame(t);
    F.ReadWrittenFrame(capacity, ToFrame(t), tail);
    TypedRoundTrip(t);
  }

  lemma SendableFrame(t: Typed)
    requires Canonical(t) && Sendable(t)
    ensures F.WellFormed(ToFrame(t))
  {
    if t.Settings? {
      SendableSettings(t.settings);
    }
  }

  lemma SendableSettings(settings: S.SettingsFrame)
    requires Sendable(Settings(settings))
    ensures F.WellFormed(ToFrame(Settings(settings)))
  {
    SixEach(EntriesFrom(settings, 1));
  }
}
