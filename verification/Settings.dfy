/** src/http2/settings.rs: the settings of one endpoint and how a SETTINGS frame changes them. */
module Settings {
  import opened Basics
  import opened H2Errors

  const MAX_FRAME_SIZE_MIN: int := 16_384
  const MAX_FRAME_SIZE_MAX: int := 16_777_215
  const WINDOW_SIZE_MAX: int := 0x7fff_ffff

  datatype SettingsFrame = SettingsFrame(
    ack: bool,
    headerTableSize: Option<u32>,
    enablePush: Option<bool>,
    maxConcurrentStreams: Option<u32>,
    initialWindowSize: Option<u32>,
    maxFrameSize: Option<u32>,
    maxHeaderListSize: Option<u32>)

  datatype Settings = Settings(
    headerTableSize: u32,
    enablePush: bool,
    maxConcurrentStreams: Option<u32>,
    initialWindowSize: u32,
    maxFrameSize: u32,
    maxHeaderListSize: Option<u32>)

  const DEFAULT: Settings := Settings(4096, true, None, 65_535, 16_384, None)

  /** The initial values of section 6.5.2 of RFC 7540. */
  lemma Defaults()
    ensures DEFAULT.headerTableSize == 4_096 && DEFAULT.enablePush && DEFAULT.maxConcurrentStreams.None?
    ensures DEFAULT.initialWindowSize == 65_535 && DEFAULT.maxFrameSize == 16_384 && DEFAULT.maxHeaderListSize.None?
    ensures InRange(DEFAULT)
  {
  }

  function Or<T>(o: Option<T>, d: T): T {
    if o.Some? then o.value else d
  }

  function OrKeep<T>(o: Option<T>, d: Option<T>): Option<T> {
    if o.Some? then o else d
  }

  /** What every settings value of a running connection satisfies. */
  predicate InRange(s: Settings) {
    && s.initialWindowSize <= WINDOW_SIZE_MAX
    && MAX_FRAME_SIZE_MIN <= s.maxFrameSize <= MAX_FRAME_SIZE_MAX
  }

  /** The settings left behind by applying a frame (also when it fails half way) and the change of the window. */
  function Apply(s: Settings, f: SettingsFrame): (r: (Settings, Result<i32, H2Error>))
    ensures r.1.Ok? ==> r.1.value == r.0.initialWindowSize - s.initialWindowSize
    ensures InRange(s) ==> InRange(r.0)
    ensures InRange(s) ==>
              (r.1.Ok? <==>
               && (f.maxFrameSize.Some? ==> MAX_FRAME_SIZE_MIN <= f.maxFrameSize.value <= MAX_FRAME_SIZE_MAX)
               && (f.initialWindowSize.Some? ==> f.initialWindowSize.value <= WINDOW_SIZE_MAX))
  {
    var s1 := s.(headerTableSize := Or(f.headerTableSize, s.headerTableSize),
                 enablePush := Or(f.enablePush, s.enablePush),
                 maxConcurrentStreams := OrKeep(f.maxConcurrentStreams, s.maxConcurrentStreams));
    if f.maxFrameSize.Some? && !(MAX_FRAME_SIZE_MIN <= f.maxFrameSize.value <= MAX_FRAME_SIZE_MAX) then
      (s1, Err(ConnectionError(ProtocolError)))
    else
      var s2 := s1.(maxFrameSize := Or(f.maxFrameSize, s.maxFrameSize),
                    maxHeaderListSize := OrKeep(f.maxHeaderListSize, s.maxHeaderListSize));
      if s.initialWindowSize > I32_MAX then
        (s2, Err(ConnectionError(InternalError)))
      else if f.initialWindowSize.Some? && f.initialWindowSize.value > WINDOW_SIZE_MAX then
        (s2, Err(ConnectionError(FlowControlError)))
      else
        var s3 := s2.(initialWindowSize := Or(f.initialWindowSize, s.initialWindowSize));
        (s3, Ok(s3.initialWindowSize - s.initialWindowSize))
  }

  /** Section 6.5.2 of RFC 7540: a field that the frame has takes its value, every other keeps its own. */
  predicate Changed(s: Settings, f: SettingsFrame, s': Settings) {
    && (if f.headerTableSize.Some? then s'.headerTableSize == f.headerTableSize.value
        else s'.headerTableSize == s.headerTableSize)
    && (if f.enablePush.Some? then s'.enablePush == f.enablePush.value else s'.enablePush == s.enablePush)
    && (if f.maxConcurrentStreams.Some? then s'.maxConcurrentStreams == f.maxConcurrentStreams
        else s'.maxConcurrentStreams == s.maxConcurrentStreams)
    && (if f.initialWindowSize.Some? then s'.initialWindowSize == f.initialWindowSize.value
        else s'.initialWindowSize == s.initialWindowSize)
    && (if f.maxFrameSize.Some? then s'.maxFrameSize == f.maxFrameSize.value else s'.maxFrameSize == s.maxFrameSize)
    && (if f.maxHeaderListSize.Some? then s'.maxHeaderListSize == f.maxHeaderListSize
        else s'.maxHeaderListSize == s.maxHeaderListSize)
  }

  /** An accepted frame changes exactly its fields. A refused one is refused for its frame size first, then for its
      window, and never changes either of them. */
  lemma FieldByField(s: Settings, f: SettingsFrame)
    requires InRange(s)
    ensures Apply(s, f).1.Ok? ==> Changed(s, f, Apply(s, f).0)
    ensures var badSize := f.maxFrameSize.Some? && !(16_384 <= f.maxFrameSize.value <= 16_777_215);
            var badWindow := f.initialWindowSize.Some? && f.initialWindowSize.value > 0x7fff_ffff;
            && (Apply(s, f).1 == Err(ConnectionError(ProtocolError)) <==> badSize)
            && (Apply(s, f).1 == Err(ConnectionError(FlowControlError)) <==> !badSize && badWindow)
            && (Apply(s, f).1.Ok? <==> !badSize && !badWindow)
  {
  }

  /** The mutable settings object of a connection. */
  class SettingsCell {
    var headerTableSize: u32
    var enablePush: bool
    var maxConcurrentStreams: Option<u32>
    var initialWindowSize: u32
    var maxFrameSize: u32
    var maxHeaderListSize: Option<u32>

    function View(): Settings
      reads this
    {
      Settings(headerTableSize, enablePush, maxConcurrentStreams, initialWindowSize, maxFrameSize, maxHeaderListSize)
    }

    constructor ()
      ensures View() == DEFAULT
    {
      headerTableSize, enablePush, maxConcurrentStreams := 4096, true, None;
      initialWindowSize, maxFrameSize, maxHeaderListSize := 65_535, 16_384, None;
    }

    method SetInitialWindowSize(value: u32) returns (r: Result<(), H2Error>)
      modifies this`initialWindowSize
      ensures r.Ok? <==> value <= WINDOW_SIZE_MAX
      ensures r.Err? ==> r.error == ConnectionError(FlowControlError)
      ensures initialWindowSize == if r.Ok? then value else old(initialWindowSize)
    {
      if value > WINDOW_SIZE_MAX {
        return Err(ConnectionError(FlowControlError));
      }
      initialWindowSize := value;
      return Ok(());
    }

    method SetMaxFrameSize(value: u32) returns (r: Result<(), H2Error>)
      modifies this`maxFrameSize
      ensures r.Ok? <==> MAX_FRAME_SIZE_MIN <= value <= MAX_FRAME_SIZE_MAX
      ensures r.Err? ==> r.error == ConnectionError(ProtocolError)
      ensures maxFrameSize == if r.Ok? then value else old(maxFrameSize)
    {
      if MAX_FRAME_SIZE_MIN > value || value > MAX_FRAME_SIZE_MAX {
        return Err(ConnectionError(ProtocolError));
      }
      maxFrameSize := value;
      return Ok(());
    }

    /** Applies the fields one after the other, so a refused field leaves the earlier ones changed. */
    method ApplySettingsFrame(frame: SettingsFrame) returns (r: Result<i32, H2Error>)
      modifies this
      ensures (View(), r) == Apply(old(View()), frame)
    {
      if frame.headerTableSize.Some? {
        headerTableSize := frame.headerTableSize.value;
      }
      if frame.enablePush.Some? {
        enablePush := frame.enablePush.value;
      }
      if frame.maxConcurrentStreams.Some? {
        maxConcurrentStreams := Some(frame.maxConcurrentStreams.value);
      }
      if frame.maxFrameSize.Some? {
        var res := SetMaxFrameSize(frame.maxFrameSize.value);
        if res.Err? {
          return Err(res.error);
        }
      }
      if frame.maxHeaderListSize.Some? {
        maxHeaderListSize := Some(frame.maxHeaderListSize.value);
      }
      if initialWindowSize > I32_MAX {
        return Err(ConnectionError(InternalError));
      }
      var before: i32 := initialWindowSize;
      if frame.initialWindowSize.Some? {
        var res := SetInitialWindowSize(frame.initialWindowSize.value);
        if res.Err? {
          return Err(res.error);
        }
      }
      return Ok(initialWindowSize - before);
    }
  }

  /** Applies frames in order, stopping at the first refusal; also returns the sum of the window changes. */
  function ApplyAll(s: Settings, fs: seq<SettingsFrame>): (Settings, int)
    decreases |fs|
  {
    if fs == [] then (s, 0)
    else
      var (s1, r) := Apply(s, fs[0]);
      if r.Err? then (s, 0)
      else
        var (s2, total) := ApplyAll(s1, fs[1..]);
        (s2, r.value + total)
  }

  /** Section 6.9.2 of RFC 7540: the differences handed to the streams telescope to the total change. */
  lemma {:induction false} DifferencesTelescope(s: Settings, fs: seq<SettingsFrame>)
    requires InRange(s)
    ensures InRange(ApplyAll(s, fs).0)
    ensures ApplyAll(s, fs).1 == ApplyAll(s, fs).0.initialWindowSize - s.initialWindowSize
    decreases |fs|
  {
    if fs != [] && Apply(s, fs[0]).1.Ok? {
      DifferencesTelescope(Apply(s, fs[0]).0, fs[1..]);
    }
  }
}
