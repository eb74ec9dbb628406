/** The two halves of the chunked coding undo each other, whatever the schedule. */
module ChunkedPair {
  import opened Basics
  import opened Seqs
  import opened Polling
  import opened Runs
  import opened Parse
  import opened ChunkHeader
  import opened ChunkedCoding
  import W = ChunkedWriter
  import R = ChunkedReader

  /** Digits followed by something else are read as just these digits. */
  lemma DigitsRead(s: seq<byte>, rest: seq<byte>)
    requires AllHex(s) && rest != [] && !IsHex(rest[0])
    ensures HexRun(s + rest) == |s| && (s + rest)[..|s|] == s && (s + rest)[|s|..] == rest
  {
    var n := HexRun(s + rest);
    assert forall i :: 0 <= i < |s| ==> HexClass()((s + rest)[i]);
    assert (s + rest)[|s|] == rest[0];
  }

  /** Digits and a line end are a header, if the build takes so many digits. */
  lemma DigitsDecode(checked: bool, limit: nat, s: seq<byte>, u: seq<byte>)
    requires AllHex(s) && 1 <= |s| && |s| + 2 <= limit
    ensures R.Decode(checked, limit, s + (CRNL + u)) ==
              if checked && |s| > 16 then R.TooLong
              else if WrappedValue(s) == 0 then R.Terminated(u)
              else R.DecodeData(checked, limit, WrappedValue(s), u)
  {
    DigitsRead(s, CRNL + u);
    assert (s + (CRNL + u))[|s| + 2..] == u;
  }

  /** A printed header decodes to the printed size. */
  lemma HeaderReads(checked: bool, limit: nat, size: nat, u: seq<byte>)
    requires size < U64_LIMIT && |Header(size)| <= limit
    ensures R.Decode(checked, limit, Header(size) + u) ==
              if size == 0 then R.Terminated(u) else R.DecodeData(checked, limit, size, u)
  {
    HexLength(size, 16);
    Pow16Monotone(16, 16);
    HexValueOfHex(size);
    DigitsDecode(checked, limit, Hex(size), u);
    assert Header(size) + u == Hex(size) + (CRNL + u);
  }

  lemma DataReads(checked: bool, limit: nat, c: seq<byte>, u: seq<byte>)
    ensures R.DecodeData(checked, limit, |c|, c + CRNL + u) == R.Prepend(c, R.Decode(checked, limit, u))
  {
    var v := c + CRNL + u;
    assert v[..|c|] == c && v[|c|..] == CRNL + u && v[|c| + 2..] == u;
  }

  lemma ChunkReads(checked: bool, limit: nat, c: seq<byte>, u: seq<byte>)
    requires 0 < |c| < U64_LIMIT && |Header(|c|)| <= limit
    ensures R.Decode(checked, limit, Chunk(c) + u) == R.Prepend(c, R.Decode(checked, limit, u))
  {
    assert Chunk(c) + u == Header(|c|) + (c + CRNL + u);
    HeaderReads(checked, limit, |c|, c + CRNL + u);
    DataReads(checked, limit, c, u);
  }

  lemma LastReads(checked: bool, limit: nat, tail: seq<byte>)
    requires limit >= 3
    ensures R.Decode(checked, limit, LAST + tail) == R.Body([], tail)
  {
    assert Hex(0) == [48];
    assert LAST + tail == Header(0) + (CRNL + tail);
    HeaderReads(checked, limit, 0, CRNL + tail);
    assert (CRNL + tail)[2..] == tail;
  }

  /** A size of 17 digits: with overflow checks nothing is decoded, without them its first digit is added to the value
      of the others. */
  lemma LongSizeDiffers(limit: nat, d: byte, s: seq<byte>, c: seq<byte>, tail: seq<byte>)
    requires limit >= 19 && IsHex(d) && AllHex(s) && |s| == 16
    requires 0 < |c| == HexValue(s) + HexDigit(d).value < U64_LIMIT
    ensures var u := ([d] + s) + (CRNL + (c + CRNL + (LAST + tail)));
            && R.Decode(true, limit, u) == R.TooLong
            && R.Decode(false, limit, u) == R.Body(c, tail)
            && !R.ShortSizes(limit, u)
  {
    var rest := LAST + tail;
    var u := ([d] + s) + (CRNL + (c + CRNL + rest));
    SeventeenDigits(d, s);
    DigitsDecode(true, limit, [d] + s, c + CRNL + rest);
    DigitsDecode(false, limit, [d] + s, c + CRNL + rest);
    DataReads(false, limit, c, rest);
    LastReads(false, limit, tail);
    assert c + [] == c;
    R.BuildsDecode(limit, u);
  }

  /** The reference decoder undoes the reference encoder and stops right behind it. */
  lemma {:induction false} DecodeEncoded(checked: bool, limit: nat, chunks: seq<seq<byte>>, tail: seq<byte>)
    requires limit >= 3
    requires forall i :: 0 <= i < |chunks| ==> 0 < |chunks[i]| < U64_LIMIT && |Header(|chunks[i]|)| <= limit
    ensures R.Decode(checked, limit, Encode(chunks) + LAST + tail) == R.Body(Concat(chunks), tail)
  {
    if chunks == [] {
      assert Encode(chunks) + LAST + tail == LAST + tail;
      LastReads(checked, limit, tail);
    } else {
      var rest := Encode(chunks[1..]) + LAST + tail;
      assert Encode(chunks) + LAST + tail == Chunk(chunks[0]) + rest;
      ChunkReads(checked, limit, chunks[0], rest);
      DecodeEncoded(checked, limit, chunks[1..], tail);
    }
  }

  /** Whatever is written in whatever pieces through whatever sink, once a shutdown completed, and read in whatever
      pieces from whatever source: nothing else ever comes out, the end comes exactly after the last byte, stays, and
      leaves what follows on the wire; nothing fails that the source does not fail; and there is no more than one turn
      for each byte before the end. */
  lemma RoundTrip(bufferSize: nat, writes: seq<W.Call>, checked: bool, limit: nat, tail: seq<byte>, polls: seq<R.Call>)
    requires 3 <= bufferSize < U64_LIMIT && |Header(bufferSize - 2)| <= limit
    requires After(W.Do, W.Session(W.New(bufferSize), []), writes).w.finished
    ensures var w := After(W.Do, W.Session(W.New(bufferSize), []), writes);
            var r := After(R.Do, R.Start(checked, limit, w.w.sink + tail), polls);
            && r.out <= w.written
            && (r.ended ==> r.out == w.written && r.r.src == tail)
            && (r.ended ==> forall c :: R.Do(r, c).r == r.r && R.Do(r, c).out == r.out)
            && (r.failed ==> !r.reliable)
            && (r.reliable && r.turns > |w.written| ==> r.ended)
  {
    W.EncodesWrites(bufferSize, writes);
    var w := After(W.Do, W.Session(W.New(bufferSize), []), writes);
    forall i | 0 <= i < |w.w.chunks| ensures |Header(|w.w.chunks[i]|)| <= limit {
      HexMonotone(|w.w.chunks[i]|, bufferSize - 2);
    }
    DecodeEncoded(checked, limit, w.w.chunks, tail);
    R.DecodesSource(checked, limit, w.w.sink + tail, polls);
  }
}
