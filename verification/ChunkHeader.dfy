/** src/parse.rs, the part for chunk headers (section 4.1 of RFC 7230): the scanner with its extensions, and
    hexadecimal sizes. */
module ChunkHeader {
  import opened Basics
  import opened Parse

  function HexClass(): byte -> bool {
    (b: byte) => IsHex(b)
  }

  /** The number of hexadecimal digits at the start. */
  function HexRun(buf: seq<byte>): nat {
    SkipFrom(buf, 0, HexClass())
  }

  // ---------- extensions ----------

  function QuotedFrom(buf: seq<byte>, idx: nat, ignoreNext: bool): Scan
    decreases |buf| - idx
  {
    if |buf| > idx then
      var b := buf[idx];
      if ignoreNext then QuotedFrom(buf, idx + 1, false)
      else if IsText(b) && b != DQ then QuotedFrom(buf, idx + 1, false)
      else if b == DQ then Found(idx + 1)
      else Bad
    else More
  }

  function QuotedStringEnd(buf: seq<byte>): Scan {
    if buf == [] then More else if buf[0] != DQ then Bad else QuotedFrom(buf, 0, false)
  }

  /** What follows the name that ends at `end`. */
  function AfterName(buf: seq<byte>, end: nat): Scan
    requires end + 1 < |buf|
  {
    if buf[end] != EQUALS then Bad
    else if buf[end + 1] == DQ then QuotedStringEnd(buf[end + 1..])
    else RunEnd(buf[end + 1..], TokenClass())
  }

  /** `find_chunk_header_extension_end`. The '=' is looked for at the end of the name counted without the
      leading ';', one byte too early. */
  function ExtensionEnd(buf: seq<byte>): Scan {
    if buf == [] then More
    else if buf[0] != SEMICOLON then Bad
    else
      var name := RunEnd(buf[1..], TokenClass());
      if !name.Found? then name
      else if name.end + 1 >= |buf| then More
      else AfterName(buf, name.end)
  }

  /** That byte is part of the name or the ';' itself, so the scanner never accepts an extension. */
  lemma ExtensionNeverFound(buf: seq<byte>)
    ensures !ExtensionEnd(buf).Found?
  {
    if buf != [] && buf[0] == SEMICOLON {
      var name := RunEnd(buf[1..], TokenClass());
      if name.Found? && name.end > 0 {
        assert TokenClass()(buf[1..][name.end - 1]);
      }
    }
  }

  /** It asks for more while all is one name, and refuses whatever comes behind the name. */
  lemma ExtensionAnswers(buf: seq<byte>)
    ensures ExtensionEnd(buf).More? <==> buf == [] || (buf[0] == SEMICOLON && SkipFrom(buf, 1, TokenClass()) == |buf|)
  {
    ExtensionNeverFound(buf);
    if buf != [] && buf[0] == SEMICOLON {
      var end := SkipFrom(buf[1..], 0, TokenClass());
      NameShift(buf);
      if end < |buf| - 1 && end > 0 {
        assert TokenClass()(buf[1..][end - 1]);
      }
    }
  }

  lemma NameShift(buf: seq<byte>)
    requires buf != []
    ensures SkipFrom(buf, 1, TokenClass()) == 1 + SkipFrom(buf[1..], 0, TokenClass())
  {
    var a, b := SkipFrom(buf, 1, TokenClass()), SkipFrom(buf[1..], 0, TokenClass());
    assert a < |buf| ==> buf[1..][a - 1] == buf[a];
    assert b + 1 < |buf| ==> buf[1..][b] == buf[b + 1];
  }

  lemma ExtensionOnline(buf: seq<byte>, ext: seq<byte>)
    requires ExtensionEnd(buf).Bad?
    ensures ExtensionEnd(buf + ext).Bad?
  {
    if buf[0] == SEMICOLON {
      assert (buf + ext)[1..] == buf[1..] + ext;
      SkipOnline(buf[1..], 0, TokenClass(), ext);
      var end := SkipFrom(buf[1..], 0, TokenClass());
      if end > 0 {
        assert TokenClass()(buf[1..][end - 1]);
      }
    }
  }

  // ---------- the header line ----------

  /** The loop over extensions and the line end, from the end of the size. An accepted extension would start another
      turn, but there is none (`ExtensionNeverFound`). */
  function HeaderTail(buf: seq<byte>, idx: nat): Scan
    requires idx < |buf|
  {
    if buf[idx] == SEMICOLON then ExtensionEnd(buf[idx..])
    else if buf[idx] == CR then
      if idx + 1 >= |buf| then More
      else if buf[idx + 1] == NL then Found(idx + 2)
      else Bad
    else Bad
  }

  function ChunkHeaderEnd(buf: seq<byte>): Scan {
    if buf == [] then More
    else if !IsHex(buf[0]) then Bad
    else if HexRun(buf) >= |buf| then More
    else HeaderTail(buf, HexRun(buf))
  }

  method FindChunkHeaderEnd(buf: seq<byte>) returns (r: Scan)
    ensures r == ChunkHeaderEnd(buf)
  {
    if buf == [] {
      return More;
    }
    if !IsHex(buf[0]) {
      return Bad;
    }
    var hex := FindRunEnd(buf, HexClass());
    if !hex.Found? {
      return hex;
    }
    var idx := hex.end;
    if buf[idx] == SEMICOLON {
      return ExtensionEnd(buf[idx..]);
    }
    if buf[idx] == CR {
      idx := idx + 1;
      if idx >= |buf| {
        return More;
      }
      if buf[idx] == NL {
        return Found(idx + 1);
      }
    }
    return Bad;
  }

  /** What the scanner accepts: one or more digits, then CR NL. */
  lemma HeaderAccepts(buf: seq<byte>)
    ensures ChunkHeaderEnd(buf).Found? <==>
              HexRun(buf) > 0 && |buf| >= HexRun(buf) + 2 && buf[HexRun(buf)..HexRun(buf) + 2] == CRNL
    ensures ChunkHeaderEnd(buf).Found? ==> ChunkHeaderEnd(buf).end == HexRun(buf) + 2
  {
    var n := HexRun(buf);
    if n < |buf| {
      ExtensionNeverFound(buf[n..]);
    }
  }

  /** Once it answered, more input does not change the answer. */
  lemma HeaderTailOnline(buf: seq<byte>, ext: seq<byte>)
    requires !ChunkHeaderEnd(buf).More?
    ensures ChunkHeaderEnd(buf + ext) == ChunkHeaderEnd(buf)
  {
    var n := HexRun(buf);
    if IsHex(buf[0]) {
      SkipOnline(buf, 0, HexClass(), ext);
      assert (buf + ext)[n..] == buf[n..] + ext;
      ExtensionNeverFound(buf[n..]);
      if buf[n] == SEMICOLON {
        ExtensionOnline(buf[n..], ext);
      }
    }
  }

  /** The scanner asks for more only where more could be accepted, or behind a semicolon. */
  lemma MoreHelps(buf: seq<byte>)
    requires ChunkHeaderEnd(buf).More?
    ensures (exists ext :: ChunkHeaderEnd(buf + ext).Found?)
            || (HexRun(buf) < |buf| && buf[HexRun(buf)] == SEMICOLON)
  {
    var n := HexRun(buf);
    if buf == [] {
      assert ChunkHeaderEnd(buf + [48, CR, NL]).Found? by {
        assert buf + [48, CR, NL] == [48] + CRNL;
        HeaderAccepts([48] + CRNL);
        assert !HexClass()(([48] + CRNL)[1]) && HexClass()(([48] + CRNL)[0]);
        assert HexRun([48] + CRNL) == 1;
        assert ([48] + CRNL)[1..3] == CRNL;
      }
    } else if n == |buf| {
      Completed(buf, n, CRNL);
    } else if buf[n] == CR {
      Completed(buf, n, [NL]);
    }
  }

  lemma Completed(buf: seq<byte>, n: nat, ext: seq<byte>)
    requires 0 < n == HexRun(buf) && (buf + ext)[n..] == CRNL
    ensures ChunkHeaderEnd(buf + ext).Found?
  {
    var u := buf + ext;
    forall i | 0 <= i < n
      ensures HexClass()(u[i])
    {
      assert HexClass()(buf[i]);
    }
    assert u[n] == u[n..][0] && !HexClass()(u[n]) && |u| == n + 2;
    assert HexRun(u) == n && u[n..n + 2] == u[n..];
    HeaderAccepts(u);
  }

  /** The bytes after the end do not matter, so the scanner answers as soon as the end is there. */
  lemma HeaderLocal(buf: seq<byte>, k: nat)
    requires ChunkHeaderEnd(buf).Found? && ChunkHeaderEnd(buf).end <= k <= |buf|
    ensures ChunkHeaderEnd(buf[..k]) == ChunkHeaderEnd(buf)
  {
    HeaderAccepts(buf);
    var n := HexRun(buf);
    SkipShort(buf, 0, k);
    HeaderAccepts(buf[..k]);
    assert buf[..k][n..n + 2] == buf[n..n + 2];
  }

  lemma {:induction false} SkipShort(buf: seq<byte>, idx: nat, end: nat)
    requires idx <= |buf| && SkipFrom(buf, idx, HexClass()) < end <= |buf|
    ensures SkipFrom(buf[..end], idx, HexClass()) == SkipFrom(buf, idx, HexClass())
    decreases |buf| - idx
  {
    if IsHex(buf[idx]) {
      SkipShort(buf, idx + 1, end);
    }
  }

  // ---------- hexadecimal numbers ----------

  /** `parse_hex_byte`. */
  function HexDigit(b: byte): (r: Option<nat>)
    ensures r.Some? <==> IsHex(b)
    ensures r.Some? ==> r.value < 16
  {
    if 48 <= b <= 57 then Some(b - 48)
    else if 97 <= b <= 102 then Some(b - 87)
    else if 65 <= b <= 70 then Some(b - 55)
    else None
  }

  predicate AllHex(s: seq<byte>) {
    forall i :: 0 <= i < |s| ==> IsHex(s[i])
  }

  /** The value of a string of digits, most significant first. */
  function HexValue(s: seq<byte>): nat
    requires AllHex(s)
  {
    if s == [] then 0 else HexValue(s[..|s| - 1]) * 16 + HexDigit(s[|s| - 1]).value
  }

  function Pow16(k: nat): nat {
    if k == 0 then 1 else 16 * Pow16(k - 1)
  }

  lemma {:induction false} HexValueCons(d: byte, s: seq<byte>)
    requires IsHex(d) && AllHex(s)
    ensures AllHex([d] + s)
    ensures HexValue([d] + s) == HexDigit(d).value * Pow16(|s|) + HexValue(s)
  {
    var t := [d] + s;
    var v := HexDigit(d).value;
    if s == [] {
      assert t[..0] == [];
    } else {
      var init := s[..|s| - 1];
      assert t[..|t| - 1] == [d] + init;
      HexValueCons(d, init);
      assert HexValue(t) == (v * Pow16(|init|) + HexValue(init)) * 16 + HexDigit(s[|s| - 1]).value;
      Distribute(v, Pow16(|init|));
    }
  }

  lemma Distribute(v: nat, p: nat)
    ensures v * (16 * p) == v * p * 16
  {
  }

  lemma {:induction false} HexValueBound(s: seq<byte>)
    requires AllHex(s)
    ensures HexValue(s) < Pow16(|s|)
  {
    if s != [] {
      HexValueBound(s[..|s| - 1]);
    }
  }

  /** Addition that wraps around at 64 bits. */
  function Add64(a: nat, b: nat): (n: nat)
    ensures n < U64_LIMIT && (a + b < U64_LIMIT ==> n == a + b)
  {
    (a + b) % U64_LIMIT
  }

  /** What a build without overflow checks computes: blocks of 16 digits, added up in 64 bits. */
  function WrappedValue(s: seq<byte>): nat
    requires AllHex(s)
  {
    if |s| <= 16 then HexValue(s)
    else Add64(HexValue(s[|s| - 16..]), WrappedValue(s[..|s| - 16]))
  }

  /** A digit shifted by so many digits, the shift taken modulo 64 bits. */
  function Shifted(digit: nat, places: nat): nat {
    digit * Pow16(places % 16)
  }

  datatype HexOutcome = Value(value: nat) | BadDigit | Aborted

  /** `parse_hex`. A build with overflow checks aborts at the shift of a 17th digit, if no digit up to it is bad. */
  function ParseHexIn(checked: bool, buf: seq<byte>): HexOutcome {
    if buf == [] || !AllHex(if checked && |buf| > 17 then buf[|buf| - 17..] else buf) then BadDigit
    else if |buf| <= 16 then Value(HexValue(buf))
    else if checked then Aborted
    else Value(WrappedValue(buf))
  }

  /** The number, if there is one. */
  function ParseHex(checked: bool, buf: seq<byte>): (r: Option<nat>)
    ensures r == (match ParseHexIn(checked, buf) case Value(n) => Some(n) case _ => None)
  {
    if buf == [] || !AllHex(buf) || (checked && |buf| > 16) then None else Some(WrappedValue(buf))
  }

  /** From the last digit to the first, each shifted by four bits more. */
  method ParseHexDigits(checked: bool, buf: seq<byte>) returns (r: HexOutcome)
    ensures r == ParseHexIn(checked, buf)
    ensures r.Value? ==> r.value < U64_LIMIT
  {
    if buf == [] {
      return BadDigit;
    }
    var idx := |buf| - 1;
    var i := 0;
    var total := 0;
    while true
      invariant 0 <= idx < |buf| && i == |buf| - 1 - idx && (checked ==> i <= 16)
      invariant AllHex(buf[idx + 1..]) && total == WrappedValue(buf[idx + 1..])
      decreases idx
    {
      var num := HexDigit(buf[idx]);
      if num.None? {
        NotHex(buf, idx);
        return BadDigit;
      }
      WrappedStep(buf, idx);
      if checked && i == 16 {
        assert buf[|buf| - 17..] == buf[idx..];
        return Aborted;
      }
      total := Add64(total, Shifted(num.value, i));
      if idx == 0 {
        break;
      }
      idx := idx - 1;
      i := i + 1;
    }
    assert buf[0..] == buf;
    WrappedBound(buf);
    return Value(total);
  }

  /** A bad digit among those looked at is one in what must be all digits. */
  lemma NotHex(buf: seq<byte>, idx: nat)
    requires idx < |buf| && !IsHex(buf[idx])
    ensures !AllHex(buf)
    ensures 17 < |buf| <= idx + 17 ==> !AllHex(buf[|buf| - 17..])
  {
    if 17 < |buf| <= idx + 17 {
      assert buf[|buf| - 17..][idx - (|buf| - 17)] == buf[idx];
    }
  }

  lemma WrappedBound(s: seq<byte>)
    requires AllHex(s)
    ensures WrappedValue(s) < U64_LIMIT
  {
    if |s| <= 16 {
      HexValueBound(s);
      Pow16Monotone(|s|, 16);
    }
  }

  lemma WrappedStep(buf: seq<byte>, idx: nat)
    requires idx < |buf| && IsHex(buf[idx]) && AllHex(buf[idx + 1..])
    ensures AllHex(buf[idx..])
    ensures WrappedValue(buf[idx..])
         == Add64(WrappedValue(buf[idx + 1..]), Shifted(HexDigit(buf[idx]).value, |buf| - 1 - idx))
  {
    WrappedCons(buf[idx], buf[idx + 1..]);
    assert buf[idx..] == [buf[idx]] + buf[idx + 1..];
  }

  /** One more digit in front, in 64 bits. */
  lemma {:induction false} WrappedCons(d: byte, s: seq<byte>)
    requires IsHex(d) && AllHex(s)
    ensures AllHex([d] + s)
    ensures WrappedValue([d] + s) == Add64(WrappedValue(s), Shifted(HexDigit(d).value, |s|))
    decreases |s|
  {
    if |s| < 16 {
      WrappedShort(d, s);
    } else {
      WrappedCons(d, s[..|s| - 16]);
      assert (|s| - 16) % 16 == |s| % 16;
      WrappedLong(d, s, Shifted(HexDigit(d).value, |s|));
    }
  }

  lemma WrappedShort(d: byte, s: seq<byte>)
    requires IsHex(d) && AllHex(s) && |s| < 16
    ensures AllHex([d] + s)
    ensures WrappedValue([d] + s) == Add64(WrappedValue(s), Shifted(HexDigit(d).value, |s|))
  {
    HexValueCons(d, s);
    ShiftedFew(HexDigit(d).value, |s|);
    WrappedBound([d] + s);
    AddSmall(HexValue(s), Shifted(HexDigit(d).value, |s|), HexValue([d] + s));
  }

  lemma ShiftedFew(digit: nat, places: nat)
    requires places < 16
    ensures Shifted(digit, places) == digit * Pow16(places)
  {
    assert places % 16 == places;
  }

  lemma AddSmall(a: nat, b: nat, sum: nat)
    requires sum == a + b < U64_LIMIT
    ensures Add64(a, b) == sum
  {
  }

  lemma WrappedLong(d: byte, s: seq<byte>, c: nat)
    requires IsHex(d) && AllHex(s) && |s| >= 16
    requires WrappedValue([d] + s[..|s| - 16]) == Add64(WrappedValue(s[..|s| - 16]), c)
    ensures AllHex([d] + s) && WrappedValue([d] + s) == Add64(WrappedValue(s), c)
  {
    var t, front, last := [d] + s, s[..|s| - 16], s[|s| - 16..];
    assert t[|t| - 16..] == last && t[..|t| - 16] == [d] + front;
    WrappedFront(s);
    WrappedFront(t);
    AddInAnyOrder(HexValue(last), WrappedValue(front), c);
  }

  lemma WrappedFront(s: seq<byte>)
    requires AllHex(s) && |s| >= 16
    ensures AllHex(s[|s| - 16..]) && AllHex(s[..|s| - 16])
    ensures WrappedValue(s) == Add64(HexValue(s[|s| - 16..]), WrappedValue(s[..|s| - 16]))
  {
    if |s| == 16 {
      OneBlock(s, s[|s| - 16..], s[..|s| - 16]);
    }
  }

  lemma OneBlock(s: seq<byte>, last: seq<byte>, front: seq<byte>)
    requires AllHex(s) && |s| == 16 && last == s && front == []
    ensures WrappedValue(s) == Add64(HexValue(last), WrappedValue(front))
  {
    WrappedBound(s);
  }

  lemma AddInAnyOrder(a: nat, b: nat, c: nat)
    ensures Add64(a, Add64(b, c)) == Add64(Add64(a, b), c)
  {
  }

  lemma {:induction false} Pow16Monotone(j: nat, k: nat)
    requires j <= k
    ensures Pow16(j) <= Pow16(k)
    ensures k == 16 ==> Pow16(k) == U64_LIMIT
  {
    if j < k {
      Pow16Monotone(j, k - 1);
    }
    if k == 16 {
      assert Pow16(4) == 65_536;
      assert Pow16(8) == 65_536 * Pow16(4);
      assert Pow16(12) == 65_536 * Pow16(8);
      assert Pow16(16) == 65_536 * Pow16(12);
    }
  }

  /** Lower-case hexadecimal printing. */
  function PrintDigit(d: nat): (b: byte)
    requires d < 16
    ensures HexDigit(b) == Some(d)
  {
    if d < 10 then 48 + d else 87 + d
  }

  function Hex(n: nat): (s: seq<byte>)
    ensures s != [] && AllHex(s)
  {
    if n < 16 then [PrintDigit(n)] else Hex(n / 16) + [PrintDigit(n % 16)]
  }

  lemma {:induction false} HexValueOfHex(n: nat)
    ensures HexValue(Hex(n)) == n
  {
    var s := Hex(n);
    if n < 16 {
      assert s[..0] == [];
    } else {
      assert s[..|s| - 1] == Hex(n / 16);
      HexValueOfHex(n / 16);
    }
  }

  lemma {:induction false} HexLength(n: nat, k: nat)
    requires k > 0
    ensures |Hex(n)| <= k <==> n < Pow16(k)
  {
    if n >= 16 {
      if k > 1 {
        HexLength(n / 16, k - 1);
      } else {
        assert Pow16(1) == 16;
      }
    } else {
      Pow16Monotone(1, k);
      assert Pow16(1) == 16;
    }
  }

  /** `parse_hex` undoes printing for every value below 2^64, and for no other: with overflow checks it then gives
      nothing, without them another number. */
  lemma ParsePrinted(checked: bool, n: nat)
    ensures ParseHex(checked, Hex(n)) == Some(n) <==> n < U64_LIMIT
    ensures ParseHex(checked, Hex(n)).None? <==> checked && n >= U64_LIMIT
  {
    HexValueOfHex(n);
    HexLength(n, 16);
    Pow16Monotone(16, 16);
    WrappedBound(Hex(n));
  }

  /** One digit before 16 others is added to their value in a build without overflow checks. */
  lemma SeventeenDigits(d: byte, s: seq<byte>)
    requires IsHex(d) && AllHex(s) && |s| == 16
    ensures AllHex([d] + s)
    ensures WrappedValue([d] + s) == Add64(HexValue(s), HexDigit(d).value)
  {
    WrappedCons(d, s);
    assert Pow16(16 % 16) == 1;
  }

  lemma {:induction false} HexMonotone(m: nat, n: nat)
    requires m <= n
    ensures |Hex(m)| <= |Hex(n)|
  {
    HexLength(n, |Hex(n)|);
    HexLength(m, |Hex(n)|);
  }
}
