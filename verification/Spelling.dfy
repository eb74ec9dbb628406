/** Sizes of chunks in every spelling: digits of either case, with any zeros in front (section 4.1 of RFC 7230); and
    that the reference decoder accepts exactly the chunked bodies so spelled. */
module Spelling {
  import opened Basics
  import opened Seqs
  import opened Parse
  import opened ChunkHeader
  import opened ChunkedCoding
  import opened ChunkedPair
  import R = ChunkedReader

  // ---------- digits ----------

  /** "0123456789abcdef" */
  const LOWER: seq<byte> := [48, 49, 50, 51, 52, 53, 54, 55, 56, 57, 97, 98, 99, 100, 101, 102]

  /** "0123456789ABCDEF" */
  const UPPER: seq<byte> := [48, 49, 50, 51, 52, 53, 54, 55, 56, 57, 65, 66, 67, 68, 69, 70]

  /** The value of a digit is its place in the alphabet, of either case; nothing else is a digit. */
  lemma DigitValue(b: byte, v: nat)
    ensures HexDigit(b) == Some(v) <==> v < 16 && (LOWER[v] == b || UPPER[v] == b)
    ensures IsHex(b) <==> b in LOWER || b in UPPER
    ensures v < 16 ==> PrintDigit(v) == LOWER[v]
  {
  }

  function LowerOf(b: byte): byte {
    if 65 <= b <= 70 then b + 32 else b
  }

  function Lower(s: seq<byte>): (t: seq<byte>)
    ensures |t| == |s| && forall i :: 0 <= i < |s| ==> t[i] == LowerOf(s[i])
  {
    seq(|s|, i requires 0 <= i < |s| => LowerOf(s[i]))
  }

  function Zeros(k: nat): (t: seq<byte>)
    ensures |t| == k && forall i :: 0 <= i < k ==> t[i] == 48
  {
    seq(k, i => 48)
  }

  /** The digits of a number: in any case, with any zeros in front. */
  predicate Spells(s: seq<byte>, n: nat) {
    |Hex(n)| <= |s| && Lower(s) == Zeros(|s| - |Hex(n)|) + Hex(n)
  }

  lemma DigitsSpell(b: byte)
    requires IsHex(b)
    ensures LowerOf(b) == PrintDigit(HexDigit(b).value) && IsHex(LowerOf(b))
  {
  }

  lemma SpellsDigits(s: seq<byte>, n: nat)
    requires Spells(s, n)
    ensures AllHex(s)
  {
    forall i | 0 <= i < |s|
      ensures IsHex(s[i])
    {
      var t := Lower(s);
      assert IsHex(t[i]);
      assert t[i] == LowerOf(s[i]);
    }
  }

  /** Every string of digits spells its value, and no other number. */
  lemma {:induction false} SpellsValue(s: seq<byte>)
    requires AllHex(s) && s != []
    ensures Spells(s, HexValue(s))
    decreases |s|
  {
    var init, d := s[..|s| - 1], s[|s| - 1];
    var v := HexDigit(d).value;
    DigitsSpell(d);
    assert Lower(s) == Lower(init) + [LowerOf(d)];
    if init == [] {
      assert HexValue(s) == v;
    } else {
      SpellsValue(init);
      PushDigit(init, HexValue(init), v);
    }
  }

  /** One more digit behind. */
  lemma PushDigit(init: seq<byte>, n: nat, v: nat)
    requires Spells(init, n) && v < 16
    ensures var k := |init| + 1 - |Hex(n * 16 + v)|;
            k >= 0 && Lower(init) + [PrintDigit(v)] == Zeros(k) + Hex(n * 16 + v)
  {
    if n > 0 {
      assert (n * 16 + v) / 16 == n && (n * 16 + v) % 16 == v;
    } else {
      assert Hex(0) == [48];
    }
  }

  lemma {:induction false} ValueOfSpelled(s: seq<byte>, n: nat)
    requires Spells(s, n)
    ensures AllHex(s) && HexValue(s) == n
  {
    SpellsDigits(s, n);
    SpellsValue(s);
    OneNumber(s, n, HexValue(s));
  }

  lemma OneNumber(s: seq<byte>, m: nat, n: nat)
    requires Spells(s, m) && Spells(s, n)
    ensures m == n
  {
    ZerosCount(|s| - |Hex(m)|, Hex(m));
    ZerosCount(|s| - |Hex(n)|, Hex(n));
    HexValueOfHex(m);
    HexValueOfHex(n);
  }

  /** Zeros in front do not change the value. */
  lemma {:induction false} ZerosCount(k: nat, s: seq<byte>)
    requires AllHex(s)
    ensures AllHex(Zeros(k) + s) && HexValue(Zeros(k) + s) == HexValue(s)
    decreases k
  {
    if k == 0 {
      assert Zeros(0) + s == s;
    } else {
      ZerosCount(k - 1, s);
      HexValueCons(48, Zeros(k - 1) + s);
      assert Zeros(k) + s == [48] + (Zeros(k - 1) + s);
    }
  }

  /** `parse_hex` gives a number for all of its spellings of up to 16 digits, and for nothing else of that length. */
  lemma SizesParse(checked: bool, s: seq<byte>, n: nat)
    requires s != [] && |s| <= 16
    ensures ParseHex(checked, s) == Some(n) <==> Spells(s, n)
  {
    if AllHex(s) {
      SpellsValue(s);
      if Spells(s, n) {
        ValueOfSpelled(s, n);
      }
    } else if Spells(s, n) {
      SpellsDigits(s, n);
    }
  }

  // ---------- bodies ----------

  /** A chunk as it stands on the wire: its size in some spelling, and its data. */
  datatype Sized = Sized(size: seq<byte>, data: seq<byte>)

  predicate Fits(limit: nat, size: seq<byte>) {
    1 <= |size| <= 16 && |size| + 2 <= limit
  }

  predicate ChunkFits(limit: nat, c: Sized) {
    Fits(limit, c.size) && Spells(c.size, |c.data|) && c.data != []
  }

  function OnWire(c: Sized): seq<byte> {
    c.size + (CRNL + (c.data + CRNL))
  }

  function DataOf(c: Sized): seq<byte> {
    c.data
  }

  /** The chunks, a last size of zero, and the empty line. */
  function Spelled(chunks: seq<Sized>, last: seq<byte>): seq<byte> {
    FlatMap(chunks, OnWire) + (last + (CRNL + CRNL))
  }

  predicate AllFit(limit: nat, chunks: seq<Sized>, last: seq<byte>) {
    (forall c :: c in chunks ==> ChunkFits(limit, c)) && Fits(limit, last) && Spells(last, 0)
  }

  lemma ChunkDecodes(limit: nat, c: Sized, u: seq<byte>)
    requires ChunkFits(limit, c)
    ensures R.Decode(true, limit, OnWire(c) + u) == R.Prepend(c.data, R.Decode(true, limit, u))
  {
    ValueOfSpelled(c.size, |c.data|);
    DigitsDecode(true, limit, c.size, c.data + CRNL + u);
    DataReads(true, limit, c.data, u);
    assert OnWire(c) + u == c.size + (CRNL + (c.data + CRNL + u));
  }

  lemma LastDecodes(limit: nat, last: seq<byte>, tail: seq<byte>)
    requires Fits(limit, last) && Spells(last, 0)
    ensures R.Decode(true, limit, last + (CRNL + CRNL) + tail) == R.Body([], tail)
  {
    ValueOfSpelled(last, 0);
    DigitsDecode(true, limit, last, CRNL + tail);
    assert last + (CRNL + CRNL) + tail == last + (CRNL + (CRNL + tail));
    assert (CRNL + tail)[2..] == tail;
  }

  lemma FirstSpelled(chunks: seq<Sized>, last: seq<byte>, tail: seq<byte>)
    requires chunks != []
    ensures Spelled(chunks, last) + tail == OnWire(chunks[0]) + (Spelled(chunks[1..], last) + tail)
  {
    Regroup(OnWire(chunks[0]), FlatMap(chunks[1..], OnWire), last + (CRNL + CRNL));
    Regroup(OnWire(chunks[0]), Spelled(chunks[1..], last), tail);
  }

  /** Every chunked body decodes to its data, whatever the spelling of its sizes, and nothing behind it is touched. */
  lemma {:induction false} SpelledDecodes(limit: nat, chunks: seq<Sized>, last: seq<byte>, tail: seq<byte>)
    requires AllFit(limit, chunks, last)
    ensures R.Decode(true, limit, Spelled(chunks, last) + tail) == R.Body(FlatMap(chunks, DataOf), tail)
    decreases |chunks|
  {
    if chunks == [] {
      LastDecodes(limit, last, tail);
      assert Spelled(chunks, last) == last + (CRNL + CRNL);
    } else {
      assert chunks[0] in chunks;
      SpelledDecodes(limit, chunks[1..], last, tail);
      ChunkDecodes(limit, chunks[0], Spelled(chunks[1..], last) + tail);
      FirstSpelled(chunks, last, tail);
    }
  }

  /** What decodes begins with a size. */
  lemma SizeFirst(limit: nat, u: seq<byte>)
    requires R.Decode(true, limit, u).Body?
    ensures var n := HexRun(u);
            && n + 2 <= |u| && Fits(limit, u[..n]) && AllHex(u[..n]) && u == u[..n] + (CRNL + u[n + 2..])
            && Spells(u[..n], HexValue(u[..n]))
            && R.Decode(true, limit, u) ==
                 if HexValue(u[..n]) == 0 then R.Terminated(u[n + 2..])
                 else R.DecodeData(true, limit, HexValue(u[..n]), u[n + 2..])
  {
    var n := HexRun(u);
    assert u[n..][0] == u[n] && u[n..][1] == u[n + 1];
    assert u == u[..n] + (CRNL + u[n + 2..]);
    SpellsValue(u[..n]);
  }

  /** Behind the size come the data, CR NL, and what decodes next. */
  lemma DataNext(limit: nat, left: nat, v: seq<byte>)
    requires R.DecodeData(true, limit, left, v).Body?
    ensures left + 2 <= |v| && v == v[..left] + (CRNL + v[left + 2..])
    ensures R.DecodeData(true, limit, left, v) == R.Prepend(v[..left], R.Decode(true, limit, v[left + 2..]))
  {
    var w := v[left..];
    assert w == CRNL + w[2..] && w[2..] == v[left + 2..];
    assert v == v[..left] + w;
  }

  /** What decodes is such a body: the chunks it is made of. */
  lemma {:induction false} DecodedIsSpelled(limit: nat, u: seq<byte>) returns (chunks: seq<Sized>, last: seq<byte>)
    requires R.Decode(true, limit, u).Body?
    ensures AllFit(limit, chunks, last)
    ensures var d := R.Decode(true, limit, u); u == Spelled(chunks, last) + d.rest && FlatMap(chunks, DataOf) == d.body
    decreases |u|
  {
    SizeFirst(limit, u);
    var n := HexRun(u);
    var size, v := u[..n], u[n + 2..];
    var left := HexValue(size);
    if left == 0 {
      chunks, last := [], size;
      assert v == CRNL + v[2..];
      LastOnly(size, v[2..]);
    } else {
      DataNext(limit, left, v);
      var w := v[left + 2..];
      chunks, last := DecodedIsSpelled(limit, w);
      var first := Sized(size, v[..left]);
      SpelledFirst(u, first, chunks, last, R.Decode(true, limit, w).rest);
      chunks := [first] + chunks;
    }
  }

  lemma LastOnly(size: seq<byte>, rest: seq<byte>)
    ensures size + (CRNL + (CRNL + rest)) == Spelled([], size) + rest
  {
    assert Spelled([], size) == size + (CRNL + CRNL);
  }

  lemma SpelledFirst(u: seq<byte>, first: Sized, chunks: seq<Sized>, last: seq<byte>, rest: seq<byte>)
    requires u == first.size + (CRNL + (first.data + (CRNL + (Spelled(chunks, last) + rest))))
    ensures u == Spelled([first] + chunks, last) + rest
    ensures FlatMap([first] + chunks, DataOf) == first.data + FlatMap(chunks, DataOf)
  {
    assert ([first] + chunks)[1..] == chunks;
    assert u == OnWire(first) + (Spelled(chunks, last) + rest);
  }

  /** Section 4.1 of RFC 7230, without extensions and trailers: the reference decoder accepts exactly the chunked
      bodies, in every spelling of their sizes of up to 16 digits, and decodes each to its data. */
  lemma DecodesExactly(limit: nat, u: seq<byte>, body: seq<byte>, rest: seq<byte>)
    ensures R.Decode(true, limit, u) == R.Body(body, rest) <==>
              exists chunks, last :: AllFit(limit, chunks, last) && u == Spelled(chunks, last) + rest
                                     && body == FlatMap(chunks, DataOf)
  {
    if R.Decode(true, limit, u) == R.Body(body, rest) {
      var chunks, last := DecodedIsSpelled(limit, u);
      assert u == Spelled(chunks, last) + rest;
    }
    forall chunks, last | AllFit(limit, chunks, last) && u == Spelled(chunks, last) + rest
                          && body == FlatMap(chunks, DataOf)
      ensures R.Decode(true, limit, u) == R.Body(body, rest)
    {
      SpelledDecodes(limit, chunks, last, rest);
    }
  }
}
