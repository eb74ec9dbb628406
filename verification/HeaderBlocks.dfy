/** src/http2/mod.rs: `write_response` cuts a header block into HEADERS and CONTINUATION frames, and the main loop
    collects one out of such frames (sections 4.3 and 6.10 of RFC 7540). */
module HeaderBlocks {
  import opened Basics
  import opened Seqs
  import opened H2Errors
  import opened TypedFrames
  import F = Frames

  const FRAGMENT: nat := 16_384

  function Fragment(t: Typed): seq<byte> {
    if t.Headers? || t.Continuation? then t.data else []
  }

  function Joined(frames: seq<Typed>): seq<byte> {
    FlatMap(frames, Fragment)
  }

  /** One HEADERS frame that carries END_STREAM as asked, then CONTINUATION frames of the same stream; all but the last
      are full, and END_HEADERS is on exactly the last. */
  predicate Block(frames: seq<Typed>, stream: u32, endStream: bool) {
    && frames != []
    && (frames[0].Headers? && frames[0].endStream == endStream && frames[0].priority.None?)
    && forall i :: 0 <= i < |frames| ==> Part(frames[i], stream, i == 0, i == |frames| - 1)
  }

  predicate Part(t: Typed, stream: u32, first: bool, last: bool) {
    && (if first then t.Headers? else t.Continuation? && t.data != [])
    && t.stream == stream && t.endHeaders == last
    && |t.data| <= FRAGMENT && (!last ==> |t.data| == FRAGMENT)
  }

  /** The frames so far, none of which is the last. */
  predicate Begun(frames: seq<Typed>, stream: u32) {
    forall i :: 0 <= i < |frames| ==> Part(frames[i], stream, i == 0, false)
  }

  /** The loop of `write_response` over the encoded headers; `written` is what `write_frame` got. */
  method WriteBlock(block: seq<byte>, stream: u32, endStream: bool) returns (written: seq<Typed>)
    ensures Block(written, stream, endStream) && Joined(written) == block
    ensures |written| == if block == [] then 1 else (|block| + FRAGMENT - 1) / FRAGMENT
  {
    written := [];
    var first := true;
    var dataStore := Some(block);
    while dataStore.Some?
      invariant first <==> written == []
      invariant dataStore.Some? ==> Begun(written, stream) && Joined(written) + dataStore.value == block
      invariant dataStore.Some? ==> |block| == FRAGMENT * |written| + |dataStore.value|
      invariant dataStore.Some? && !first ==> dataStore.value != []
      invariant !first ==> written[0].Headers? && written[0].endStream == endStream && written[0].priority.None?
      invariant dataStore.None? ==> Block(written, stream, endStream) && Joined(written) == block
      invariant dataStore.None? ==> FRAGMENT * (|written| - 1) <= |block| <= FRAGMENT * |written|
      invariant dataStore.None? && |written| > 1 ==> FRAGMENT * (|written| - 1) < |block|
      decreases if dataStore.Some? then |dataStore.value| + 1 else 0
    {
      var data := dataStore.value;
      var remaining := None;
      if |data| > FRAGMENT {
        remaining := Some(data[FRAGMENT..]);
        data := data[..FRAGMENT];
      }
      var endHeaders := remaining.None?;
      var frame := if first then Headers(stream, endStream, endHeaders, None, data)
                   else Continuation(stream, endHeaders, data);
      FlatMapPush(written, frame, Fragment);
      assert remaining.Some? ==> data + remaining.value == dataStore.value;
      written := written + [frame];
      first := false;
      dataStore := remaining;
    }
  }

  // ---------- collecting a block ----------

  /** What one more call of `read_next_frame` returned. */
  datatype Next = Came(frame: F.Frame) | Failed(error: H2Error)

  /** The block so far and one more fragment, if the header buffer holds both. */
  function Grown(capacity: nat, have: seq<byte>, data: seq<byte>): Result<seq<byte>, H2Error> {
    if |have| + |data| > capacity then Err(ConnectionError(ProtocolError)) else Ok(have + data)
  }

  /** The loop over CONTINUATION frames; a peer that sends nothing more has closed the connection. */
  function Collect(capacity: nat, have: seq<byte>, stream: u32, following: seq<Next>): Result<seq<byte>, H2Error>
    decreases |following|
  {
    if following == [] then Err(ConnectionError(ProtocolError))
    else if following[0].Failed? then Err(following[0].error)
    else
      var h := following[0].frame.header;
      if h.kind != F.Continuation || h.stream != stream then Err(ConnectionError(ProtocolError))
      else
        var grown := Grown(capacity, have, following[0].frame.payload);
        if grown.Err? || h.flags.endHeaders then grown else Collect(capacity, grown.value, stream, following[1..])
  }

  /** A HEADERS frame with this fragment, and the frames that follow it. */
  function ReadBlock(capacity: nat, stream: u32, data: seq<byte>, endHeaders: bool, following: seq<Next>)
    : Result<seq<byte>, H2Error>
  {
    var first := Grown(capacity, [], data);
    if first.Err? || endHeaders then first else Collect(capacity, first.value, stream, following)
  }

  function Follow(frames: seq<Typed>): seq<Next> {
    seq(|frames|, i requires 0 <= i < |frames| => Came(ToFrame(frames[i])))
  }

  /** The loops of both sides fit: the fragments of a block are collected to the block, if and only if it fits the
      header buffer. */
  lemma PartsJoin(capacity: nat, frames: seq<Typed>, stream: u32, endStream: bool)
    requires Block(frames, stream, endStream)
    ensures ReadBlock(capacity, stream, frames[0].data, frames[0].endHeaders, Follow(frames[1..]))
         == if |Joined(frames)| <= capacity then Ok(Joined(frames)) else Err(ConnectionError(ProtocolError))
  {
    assert Part(frames[0], stream, true, |frames| == 1);
    assert frames == [frames[0]] + frames[1..];
    FlatMapAppend([frames[0]], frames[1..], Fragment);
    FlatMapOne(frames[0], Fragment);
    assert [] + frames[0].data == frames[0].data;
    if |frames| > 1 {
      forall i | 1 <= i < |frames|
        ensures Part(frames[i], stream, false, i == |frames| - 1)
      {
        assert Part(frames[i], stream, i == 0, i == |frames| - 1);
      }
      RestJoins(capacity, frames[0].data, frames[1..], stream);
    } else {
      assert Joined(frames[1..]) == [];
    }
  }

  predicate Continues(frames: seq<Typed>, stream: u32) {
    frames != [] && forall i :: 0 <= i < |frames| ==> Part(frames[i], stream, false, i == |frames| - 1)
  }

  lemma {:induction false} RestJoins(capacity: nat, have: seq<byte>, frames: seq<Typed>, stream: u32)
    requires Continues(frames, stream)
    ensures |have| <= capacity ==>
              Collect(capacity, have, stream, Follow(frames))
              == if |have + Joined(frames)| <= capacity then Ok(have + Joined(frames))
                 else Err(ConnectionError(ProtocolError))
    decreases |frames|
  {
    var t := frames[0];
    assert Part(t, stream, false, |frames| == 1);
    var grown := have + t.data;
    assert grown + Joined(frames[1..]) == have + (t.data + Joined(frames[1..]));
    assert Follow(frames)[1..] == Follow(frames[1..]);
    if |frames| > 1 {
      forall i | 0 <= i < |frames[1..]|
        ensures Part(frames[1..][i], stream, false, i == |frames[1..]| - 1)
      {
        assert Part(frames[i + 1], stream, false, i + 1 == |frames| - 1);
      }
      RestJoins(capacity, grown, frames[1..], stream);
    } else {
      assert Joined(frames[1..]) == [];
      assert grown + [] == grown;
    }
  }

  /** What the checks on a frame header let through: CONTINUATION on stream 0 alone. */
  predicate Checked(f: F.Frame) {
    f.header.kind.Continuation? ==> f.header.stream == 0
  }

  lemma ReadIsChecked(capacity: nat, u: seq<byte>)
    ensures var r := F.ReadFirst(capacity, u); r.Ok? ==> Checked(r.value.frame)
  {
  }

  /** So the frames that `read_next_frame` returns never continue a block: it is read if and only if the HEADERS frame
      carries all of it and it fits the header buffer, and whatever else comes ends the connection. */
  lemma OnlyWholeBlocks(capacity: nat, stream: u32, data: seq<byte>, endHeaders: bool, following: seq<Next>)
    requires stream != 0
    requires following != [] && following[0].Came? ==> Checked(following[0].frame)
    ensures var r := ReadBlock(capacity, stream, data, endHeaders, following);
            && (r.Ok? <==> endHeaders && |data| <= capacity)
            && (r.Ok? ==> r.value == data)
            && (r.Err? ==>
                  r.error == if |data| <= capacity && following != [] && following[0].Failed? then following[0].error
                             else ConnectionError(ProtocolError))
  {
    assert [] + data == data;
  }

  /** What the calls of `read_next_frame` return, one after the other, for these bytes. */
  function Incoming(frameCapacity: nat, u: seq<byte>): seq<Next>
    decreases |u|
  {
    var r := F.ReadFirst(frameCapacity, u);
    if r.Err? then [Failed(r.error)] else [Came(r.value.frame)] + Incoming(frameCapacity, r.value.rest)
  }

  /** Whatever bytes follow a HEADERS frame, its block is read if and only if it is whole and fits. */
  lemma BlockFromBytes(frameCapacity: nat, capacity: nat, stream: u32, data: seq<byte>, endHeaders: bool, u: seq<byte>)
    requires stream != 0
    ensures var r := ReadBlock(capacity, stream, data, endHeaders, Incoming(frameCapacity, u));
            (r.Ok? <==> endHeaders && |data| <= capacity) && (r.Ok? ==> r.value == data)
  {
    ReadIsChecked(frameCapacity, u);
    OnlyWholeBlocks(capacity, stream, data, endHeaders, Incoming(frameCapacity, u));
  }
}
