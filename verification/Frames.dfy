/** src/http2/frame.rs and src/http2/mod.rs: frames on the wire (section 4.1 of RFC 7540). */
module Frames {
  import opened Basics
  import opened H2Errors
  import opened BigEndian

  datatype FrameType =
    | Data | Headers | Priority | RstStream | Settings | PushPromise | Ping | GoAway | WindowUpdate | Continuation

  function Code(t: FrameType): byte {
    match t
    case Data => 0
    case Headers => 1
    case Priority => 2
    case RstStream => 3
    case Settings => 4
    case PushPromise => 5
    case Ping => 6
    case GoAway => 7
    case WindowUpdate => 8
    case Continuation => 9
  }

  /** `FrameType::from_u8`. */
  function TypeOf(code: byte): (t: Option<FrameType>)
    ensures t.Some? <==> code <= 9
    ensures t.Some? ==> Code(t.value) == code
  {
    match code
    case 0 => Some(Data)
    case 1 => Some(Headers)
    case 2 => Some(Priority)
    case 3 => Some(RstStream)
    case 4 => Some(Settings)
    case 5 => Some(PushPromise)
    case 6 => Some(Ping)
    case 7 => Some(GoAway)
    case 8 => Some(WindowUpdate)
    case 9 => Some(Continuation)
    case _ => None
  }

  /** The known flags; bit 0 is END_STREAM or ACK. */
  datatype Flags = Flags(first: bool, endHeaders: bool, padded: bool, priority: bool)

  function Bits(f: Flags): byte {
    (if f.first then 1 else 0) + (if f.endHeaders then 4 else 0) + (if f.padded then 8 else 0)
    + (if f.priority then 32 else 0)
  }

  /** `Flags::from_bits_truncate`: unknown bits are dropped. */
  function FlagsOf(b: byte): Flags {
    Flags(b % 2 == 1, b / 4 % 2 == 1, b / 8 % 2 == 1, b / 32 % 2 == 1)
  }

  lemma FlagsOfBits(f: Flags)
    ensures FlagsOf(Bits(f)) == f
  {
  }

  /** The frame types in the order of their codes (section 11.2 of RFC 7540). */
  const TYPES: seq<FrameType> :=
    [Data, Headers, Priority, RstStream, Settings, PushPromise, Ping, GoAway, WindowUpdate, Continuation]

  /** The code of a type is its place in that list. */
  lemma TypeCodes(t: FrameType, code: byte)
    ensures Code(t) == code <==> code < 10 && TYPES[code] == t
    ensures TypeOf(code) == if code < 10 then Some(TYPES[code]) else None
  {
  }

  /** Section 6 of RFC 7540: END_STREAM and ACK are 0x1, END_HEADERS is 0x4, PADDED 0x8 and PRIORITY 0x20, each whatever
      the others are. */
  lemma FlagBits(f: Flags)
    ensures Bits(f.(first := true)) == Bits(f.(first := false)) + 0x1
    ensures Bits(f.(endHeaders := true)) == Bits(f.(endHeaders := false)) + 0x4
    ensures Bits(f.(padded := true)) == Bits(f.(padded := false)) + 0x8
    ensures Bits(f.(priority := true)) == Bits(f.(priority := false)) + 0x20
    ensures Bits(Flags(false, false, false, false)) == 0
  {
  }

  function Bit(b: bool): byte {
    if b then 1 else 0
  }

  /** The other four bits are ignored. */
  lemma UnknownBits(f: Flags, b1: bool, b4: bool, b6: bool, b7: bool)
    ensures var b := Bits(f) + 0x2 * Bit(b1) + 0x10 * Bit(b4) + 0x40 * Bit(b6) + 0x80 * Bit(b7);
            b < 0x100 && FlagsOf(b) == f
  {
    var b := Bits(f) + 0x2 * Bit(b1) + 0x10 * Bit(b4) + 0x40 * Bit(b6) + 0x80 * Bit(b7);
    var low, high := Bit(f.first) + 2 * Bit(b1), Bit(b6) + 2 * Bit(b7);
    assert b == low + 4 * (Bit(f.endHeaders) + 2 * (Bit(f.padded) + 2 * (Bit(b4) + 2 * (Bit(f.priority) + 2 * high))));
    assert b / 4 == Bit(f.endHeaders) + 2 * (Bit(f.padded) + 2 * (Bit(b4) + 2 * (Bit(f.priority) + 2 * high)));
    assert b / 8 == Bit(f.padded) + 2 * (Bit(b4) + 2 * (Bit(f.priority) + 2 * high));
    assert b / 32 == Bit(f.priority) + 2 * high;
  }

  datatype RawHeader = RawHeader(length: nat, code: byte, flags: byte, stream: u32)

  datatype FrameHeader = FrameHeader(kind: FrameType, flags: Flags, stream: u32)

  datatype Frame = Frame(header: FrameHeader, payload: seq<byte>)

  const STREAM_ID_LIMIT: nat := 0x8000_0000

  /** The first bit of the stream id is ignored. */
  function StreamOf(s: seq<byte>): u32
    requires |s| == 4
  {
    Bounded(s);
    Powers();
    if FromBytes(s) >= STREAM_ID_LIMIT then FromBytes(s) - STREAM_ID_LIMIT else FromBytes(s)
  }

  /** `FrameHeaderRaw::from_slice`. */
  function FromSlice(buf: seq<byte>): Result<RawHeader, H2Error> {
    if 9 > |buf| then Err(ConnectionError(ProtocolError))
    else Ok(RawHeader(FromBytes(buf[..3]), buf[3], buf[4], StreamOf(buf[5..9])))
  }

  function Check(ok: bool, error: H2Error): Option<H2Error> {
    if ok then None else Some(error)
  }

  function OrElse(a: Option<H2Error>, b: Option<H2Error>): Option<H2Error> {
    if a.Some? then a else b
  }

  /** What each type demands of the stream id and the length, in the order of the source. */
  function Invalid(kind: FrameType, flags: Flags, stream: u32, length: nat): Option<H2Error> {
    match kind
    case Data =>
      OrElse(Check(stream != 0, ConnectionError(ProtocolError)),
             Check(flags.padded ==> length >= 1, ConnectionError(ProtocolError)))
    case Headers =>
      OrElse(Check(stream != 0, ConnectionError(ProtocolError)),
             Check((if flags.padded then 1 else 0) + (if flags.priority then 5 else 0) <= length,
                   ConnectionError(ProtocolError)))
    case Priority =>
      OrElse(Check(stream != 0, ConnectionError(ProtocolError)), Check(length == 5, StreamError(FrameSizeError)))
    case RstStream =>
      OrElse(Check(stream != 0, ConnectionError(ProtocolError)), Check(length == 4, ConnectionError(FrameSizeError)))
    case Settings =>
      OrElse(Check(stream == 0, ConnectionError(ProtocolError)),
             Check(length % 6 == 0, ConnectionError(FrameSizeError)))
    case PushPromise => Some(ConnectionError(ProtocolError))
    case Ping =>
      OrElse(Check(stream == 0, ConnectionError(ProtocolError)), Check(length == 8, ConnectionError(FrameSizeError)))
    case GoAway =>
      OrElse(Check(stream == 0, ConnectionError(ProtocolError)), Check(8 <= length, ConnectionError(FrameSizeError)))
    case WindowUpdate => Check(length == 4, ConnectionError(FrameSizeError))
    case Continuation => Check(stream == 0, ConnectionError(ProtocolError))
  }

  /** Frames of a stream, frames of the connection, and WINDOW_UPDATE of either; clients never send PUSH_PROMISE. */
  predicate RightStream(kind: FrameType, stream: u32) {
    match kind
    case Data | Headers | Priority | RstStream => stream > 0
    case Settings | Ping | GoAway | Continuation => stream == 0
    case WindowUpdate => true
    case PushPromise => false
  }

  /** The sizes that section 6 of RFC 7540 gives for each type; padding and a priority must fit. */
  predicate RightSize(kind: FrameType, flags: Flags, length: nat) {
    match kind
    case Data => !flags.padded || length > 0
    case Headers => length >= if flags.padded && flags.priority then 6 else if flags.priority then 5
                              else if flags.padded then 1 else 0
    case Priority => length == 5
    case RstStream | WindowUpdate => length == 4
    case Ping => length == 8
    case GoAway => length > 7
    case Settings => 6 * (length / 6) == length
    case PushPromise | Continuation => true
  }

  /** `FrameHeader::try_from`. */
  function Validate(raw: RawHeader): Result<FrameHeader, H2Error> {
    var kind := TypeOf(raw.code);
    if kind.None? then Err(ConnectionError(InternalError))
    else
      var flags := FlagsOf(raw.flags);
      var error := Invalid(kind.value, flags, raw.stream, raw.length);
      if error.Some? then Err(error.value) else Ok(FrameHeader(kind.value, flags, raw.stream))
  }

  /** A frame header is accepted if and only if its type is known and its stream and its size are right; otherwise the
      error is one of the connection, except for the size of PRIORITY, with the code of the first check that fails. */
  lemma HeaderRules(raw: RawHeader)
    ensures var flags := FlagsOf(raw.flags);
            var r := Validate(raw);
            if raw.code > 9 then r == Err(ConnectionError(InternalError))
            else
              var kind := TYPES[raw.code];
              if !RightStream(kind, raw.stream) then r == Err(ConnectionError(ProtocolError))
              else if RightSize(kind, flags, raw.length) then r == Ok(FrameHeader(kind, flags, raw.stream))
              else if kind.Data? || kind.Headers? then r == Err(ConnectionError(ProtocolError))
              else if kind.Priority? then r == Err(StreamError(FrameSizeError))
              else r == Err(ConnectionError(FrameSizeError))
  {
    if raw.code <= 9 {
      TypeCodes(TYPES[raw.code], raw.code);
    }
  }

  /** Fewer than nine bytes are no header. */
  lemma ShortHeader(buf: seq<byte>)
    ensures FromSlice(buf).Err? <==> |buf| < 9
    ensures |buf| < 9 ==> FromSlice(buf) == Err(ConnectionError(ProtocolError))
  {
  }

  /** `Frame::from_header_and_payload`: the padding is cut off. */
  function FromHeaderAndPayload(raw: RawHeader, payload: seq<byte>): Result<Frame, H2Error> {
    var h := Validate(raw);
    if h.Err? then Err(h.error)
    else if (h.value.kind.Data? || h.value.kind.Headers?) && h.value.flags.padded then
      if payload == [] then Err(ConnectionError(InternalError))
      else if payload[0] >= |payload| || 1 > |payload| - payload[0] then Err(ConnectionError(ProtocolError))
      else Ok(Frame(h.value, payload[1..|payload| - payload[0]]))
    else Ok(Frame(h.value, payload))
  }

  /** `write_frame`. */
  function Write(f: Frame): (s: seq<byte>)
    ensures |s| == 9 + |f.payload|
  {
    ToBytes(|f.payload|, 3) + [Code(f.header.kind)] + [Bits(f.header.flags)] + ToBytes(f.header.stream, 4) + f.payload
  }

  /** The layout of section 4.1 of RFC 7540, byte by byte. */
  lemma WireLayout(f: Frame)
    requires |f.payload| < 0x100_0000
    ensures var w := Write(f);
            && w[0] as int * 0x1_0000 + w[1] as int * 0x100 + w[2] == |f.payload|
            && w[3] == Code(f.header.kind) && w[4] == Bits(f.header.flags)
            && w[5] as int * 0x100_0000 + w[6] as int * 0x1_0000 + w[7] as int * 0x100 + w[8] == f.header.stream
            && w[9..] == f.payload
  {
    var w := Write(f);
    var length, stream := ToBytes(|f.payload|, 3), ToBytes(f.header.stream, 4);
    assert w[..3] == length && w[5..9] == stream;
    Powers();
    ReadWritten(|f.payload|, 3);
    ReadWritten(f.header.stream, 4);
    ThreeBytes(length);
    FourBytes(stream);
  }

  // ---------- the reference for reading ----------

  datatype Read = Read(frame: Frame, rest: seq<byte>)

  /** The first frame of a byte string, read with a buffer of this capacity. */
  function ReadFirst(capacity: nat, u: seq<byte>): Result<Read, H2Error> {
    if |u| < 9 || capacity < 9 then Err(ConnectionError(ProtocolError))
    else
      var raw := FromSlice(u).value;
      if raw.length > capacity || |u| < 9 + raw.length then Err(ConnectionError(ProtocolError))
      else
        var f := FromHeaderAndPayload(raw, u[9..9 + raw.length]);
        if f.Ok? then Ok(Read(f.value, u[9 + raw.length..])) else Err(f.error)
  }

  /** What can be written and read back: the length and the stream id fit their fields, the type is one a client may
      send, it is not padded, and its stream and length are what the type demands. */
  predicate WellFormed(f: Frame) {
    && |f.payload| < 0x100_0000 && f.header.stream < STREAM_ID_LIMIT
    && ((f.header.kind.Data? || f.header.kind.Headers?) ==> !f.header.flags.padded)
    && Invalid(f.header.kind, f.header.flags, f.header.stream, |f.payload|).None?
  }

  /** The header that was written, as it is read. */
  lemma HeaderRead(f: Frame, tail: seq<byte>)
    ensures var raw := FromSlice(Write(f) + tail).value;
            && raw.code == Code(f.header.kind) && FlagsOf(raw.flags) == f.header.flags
            && (raw.length == |f.payload| <==> |f.payload| < 0x100_0000)
            && (raw.stream == f.header.stream <==> f.header.stream < STREAM_ID_LIMIT)
  {
    var u := Write(f) + tail;
    assert u[..3] == ToBytes(|f.payload|, 3);
    assert u[3] == Code(f.header.kind) && u[4] == Bits(f.header.flags);
    assert u[5..9] == ToBytes(f.header.stream, 4);
    FlagsOfBits(f.header.flags);
    Powers();
    ReadWritten(|f.payload|, 3);
    ReadWritten(f.header.stream, 4);
  }

  lemma TypeOfCode(t: FrameType)
    ensures TypeOf(Code(t)) == Some(t)
  {
  }

  /** A written frame is read back unchanged, and exactly its bytes are used, if and only if it is well formed and
      its payload fits the buffer. */
  lemma ReadWrittenFrame(capacity: nat, f: Frame, tail: seq<byte>)
    requires capacity >= 9
    ensures ReadFirst(capacity, Write(f) + tail) == Ok(Read(f, tail)) <==> WellFormed(f) && |f.payload| <= capacity
  {
    HeaderRead(f, tail);
    TypeOfCode(f.header.kind);
    var u := Write(f) + tail;
    var raw := FromSlice(u).value;
    if |f.payload| < 0x100_0000 {
      assert u[9..9 + |f.payload|] == f.payload && u[9 + |f.payload|..] == tail;
    } else if ReadFirst(capacity, u).Ok? {
      assert |ReadFirst(capacity, u).value.frame.payload| <= raw.length;
      Bounded(u[..3]);
      Powers();
    }
  }

  /** The header is that of a padded DATA or HEADERS frame. */
  predicate Padded(raw: RawHeader) {
    var h := Validate(raw);
    h.Ok? && (h.value.kind.Data? || h.value.kind.Headers?) && h.value.flags.padded
  }

  /** Section 6.1 of RFC 7540: a payload of the length of the padding, the data, and the padding is read as the data. */
  lemma PaddingCut(raw: RawHeader, data: seq<byte>, padding: seq<byte>)
    requires Padded(raw) && |padding| < 256
    ensures FromHeaderAndPayload(raw, [|padding|] + data + padding) == Ok(Frame(Validate(raw).value, data))
  {
    var payload := [|padding|] + data + padding;
    assert payload[0] == |padding| && payload[1..1 + |data|] == data;
  }

  /** No other payload is read: it is refused as a protocol error, as an internal error if it is empty. */
  lemma PaddingFits(raw: RawHeader, payload: seq<byte>)
    requires Padded(raw)
    ensures var f := FromHeaderAndPayload(raw, payload);
            if payload == [] then f == Err(ConnectionError(InternalError))
            else if payload[0] >= |payload| then f == Err(ConnectionError(ProtocolError))
            else
              var n := |payload| - payload[0];
              f.Ok? && f.value.header == Validate(raw).value && payload == [payload[0]] + f.value.payload + payload[n..]
  {
    if payload != [] && payload[0] < |payload| {
      var n := |payload| - payload[0];
      assert payload == [payload[0]] + payload[1..n] + payload[n..];
    }
  }

  /** A payload beyond the buffer is refused, whatever follows. */
  lemma TooLong(capacity: nat, f: Frame, tail: seq<byte>)
    requires capacity < |f.payload| < 0x100_0000
    ensures ReadFirst(capacity, Write(f) + tail) == Err(ConnectionError(ProtocolError))
  {
    HeaderRead(f, tail);
  }
}
