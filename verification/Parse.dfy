/** src/parse.rs: byte classes, scanners and hexadecimal numbers. */
module Parse {
  import opened Basics

  const CR: byte := 13
  const NL: byte := 10
  const SP: byte := 32
  const HTAB: byte := 9
  const DQ: byte := 34
  const SEMICOLON: byte := 59
  const EQUALS: byte := 61
  const COLON: byte := 58
  const CRNL: seq<byte> := [CR, NL]

  /** The answer of a scanner: the end it looks for, a need for more bytes, or an error. */
  datatype Scan = Found(end: nat) | More | Bad

  predicate IsHex(b: byte) {
    97 <= b <= 102 || 65 <= b <= 70 || 48 <= b <= 57
  }

  predicate IsLws(b: byte) {
    b == SP || b == HTAB
  }

  predicate IsLwsFull(b: byte) {
    b == CR || b == NL || b == SP || b == HTAB
  }

  predicate IsText(b: byte) {
    (b > 31 && 127 > b) || b > 159
  }

  predicate IsSeparator(b: byte) {
    // ( ) < > @ , ; : \ " / [ ] ? = { } space and tab
    b in [40, 41, 60, 62, 64, 44, 59, 58, 92, 34, 47, 91, 93, 63, 61, 123, 125, 32, 9]
  }

  predicate IsToken(b: byte) {
    b < 128 && !(32 >= b || b == 127) && !IsSeparator(b)
  }

  /** "!#$%&'*+-.^_`|~" */
  const MARKS: seq<byte> := [33, 35, 36, 37, 38, 39, 42, 43, 45, 46, 94, 95, 96, 124, 126]

  /** The classes of section 2.2 of RFC 2616: text is all but the control characters, of which there are two blocks and
      DEL; digits, and spaces; and tokens are made of letters, digits and these marks. */
  lemma ByteClasses(b: byte)
    ensures !IsText(b) <==> 0 <= b <= 31 || 127 <= b <= 159
    ensures IsHex(b) <==> 48 <= b <= 57 || 65 <= b <= 70 || 97 <= b <= 102
    ensures IsLws(b) <==> b in [9, 32]
    ensures IsLwsFull(b) <==> b in [9, 10, 13, 32]
  {
  }

  lemma TokenBytes(b: byte)
    ensures IsToken(b) <==> 48 <= b <= 57 || 65 <= b <= 90 || 97 <= b <= 122 || b in MARKS
  {
  }

  function TokenClass(): byte -> bool {
    (b: byte) => IsToken(b)
  }

  /** CR NL at the start: the end of a line, or an empty one. */
  predicate LineEnd(u: seq<byte>) {
    |u| >= 2 && u[0] == CR && u[1] == NL
  }

  // ---------- runs of one class ----------

  /** The first index from `idx` on whose byte is not in the class. */
  function SkipFrom(buf: seq<byte>, idx: nat, p: byte -> bool): (r: nat)
    requires idx <= |buf|
    ensures idx <= r <= |buf|
    ensures forall i :: idx <= i < r ==> p(buf[i])
    ensures r < |buf| ==> !p(buf[r])
    decreases |buf| - idx
  {
    if idx < |buf| && p(buf[idx]) then SkipFrom(buf, idx + 1, p) else idx
  }

  /** `find_hex_end`, `find_text_end`, `find_token_end`. */
  function RunEnd(buf: seq<byte>, p: byte -> bool): Scan {
    var end := SkipFrom(buf, 0, p);
    if end < |buf| then Found(end) else More
  }

  method FindRunEnd(buf: seq<byte>, p: byte -> bool) returns (r: Scan)
    ensures r == RunEnd(buf, p)
    ensures r.Found? ==> r.end < |buf| && !p(buf[r.end]) && forall i :: 0 <= i < r.end ==> p(buf[i])
    ensures r.More? ==> forall i :: 0 <= i < |buf| ==> p(buf[i])
  {
    if buf == [] {
      return More;
    }
    var idx := 0;
    while |buf| > idx
      invariant 0 <= idx <= |buf|
      invariant SkipFrom(buf, 0, p) == SkipFrom(buf, idx, p)
    {
      if !p(buf[idx]) {
        return Found(idx);
      }
      idx := idx + 1;
    }
    return More;
  }

  lemma {:induction false} SkipOnline(buf: seq<byte>, idx: nat, p: byte -> bool, ext: seq<byte>)
    requires idx <= |buf| && SkipFrom(buf, idx, p) < |buf|
    ensures SkipFrom(buf + ext, idx, p) == SkipFrom(buf, idx, p)
    decreases |buf| - idx
  {
    if p(buf[idx]) {
      SkipOnline(buf, idx + 1, p, ext);
    }
  }

  // ---------- the start line ----------

  function StartLineEndFrom(buf: seq<byte>, idx: nat): Scan
    decreases |buf| - idx
  {
    if |buf| > idx + 1 then
      if buf[idx] == CR then (if buf[idx + 1] == NL then Found(idx + 2) else Bad)
      else StartLineEndFrom(buf, idx + 1)
    else More
  }

  method FindStartLineEnd(buf: seq<byte>) returns (r: Scan)
    ensures r == StartLineEndFrom(buf, 0)
    ensures r.Found? ==> 2 <= r.end <= |buf| && buf[r.end - 2..r.end] == CRNL && CR !in buf[..r.end - 2]
  {
    if buf == [] {
      return More;
    }
    var idx := 0;
    while |buf| > idx + 1
      invariant 0 <= idx && CR !in buf[..Min(idx, |buf|)]
      invariant StartLineEndFrom(buf, idx) == StartLineEndFrom(buf, 0)
      decreases |buf| - idx
    {
      if buf[idx] == CR {
        if buf[idx + 1] == NL {
          return Found(idx + 2);
        } else {
          return Bad;
        }
      }
      idx := idx + 1;
    }
    return More;
  }

  predicate NoCr(s: seq<byte>) {
    CR !in s
  }

  /** The first CR, with another byte than NL behind it. */
  predicate LoneCr(buf: seq<byte>, k: nat) {
    k < |buf| - 1 && buf[k] == CR && buf[k + 1] != NL && NoCr(buf[..k])
  }

  /** The scanner looks for the first CR with a byte behind it: an NL there ends the line, anything else is an error. */
  lemma {:induction false} StartLineFrom(buf: seq<byte>, idx: nat)
    requires NoCr(buf[..Min(idx, |buf|)])
    ensures match StartLineEndFrom(buf, idx)
            case Found(e) => 2 <= e <= |buf| && buf[e - 2] == CR && buf[e - 1] == NL && NoCr(buf[..e - 2])
            case Bad => exists k :: 0 <= k < |buf| && LoneCr(buf, k)
            case More => buf == [] || NoCr(buf[..|buf| - 1])
    decreases |buf| - idx
  {
    if |buf| > idx + 1 {
      if buf[idx] != CR {
        assert buf[..idx + 1] == buf[..idx] + [buf[idx]];
        StartLineFrom(buf, idx + 1);
      } else if buf[idx + 1] != NL {
        assert LoneCr(buf, idx);
      }
    } else if buf != [] {
      assert buf[..Min(idx, |buf|)][..|buf| - 1] == buf[..|buf| - 1];
    }
  }

  lemma {:induction false} StartLineOnline(buf: seq<byte>, idx: nat, ext: seq<byte>)
    requires !StartLineEndFrom(buf, idx).More?
    ensures StartLineEndFrom(buf + ext, idx) == StartLineEndFrom(buf, idx)
    decreases |buf| - idx
  {
    if buf[idx] != CR {
      StartLineOnline(buf, idx + 1, ext);
    }
  }

  // ---------- header lines and folds ----------

  function HeaderEndFrom(buf: seq<byte>, idx: nat): Scan
    decreases |buf| - idx
  {
    if |buf| > idx + 2 then
      if buf[idx] == CR then
        if buf[idx + 1] == NL then
          (if IsLws(buf[idx + 2]) then HeaderEndFrom(buf, idx + 3) else Found(idx + 2))
        else Bad
      else HeaderEndFrom(buf, idx + 1)
    else More
  }

  function HeaderEnd(buf: seq<byte>): Scan {
    if buf == [] then More else if buf[0] == CR then Bad else HeaderEndFrom(buf, 1)
  }

  method FindHeaderEnd(buf: seq<byte>) returns (r: Scan)
    ensures r == HeaderEnd(buf)
  {
    if buf == [] {
      return More;
    }
    if buf[0] == CR {
      return Bad;
    }
    var idx := 1;
    while |buf| > idx + 2
      invariant 0 <= idx
      invariant HeaderEndFrom(buf, idx) == HeaderEnd(buf)
      decreases |buf| - idx
    {
      if buf[idx] == CR {
        if buf[idx + 1] == NL {
          if IsLws(buf[idx + 2]) {
            idx := idx + 3;
            continue;
          } else {
            return Found(idx + 2);
          }
        } else {
          return Bad;
        }
      }
      idx := idx + 1;
    }
    return More;
  }

  lemma {:induction false} HeaderFromOnline(buf: seq<byte>, idx: nat, ext: seq<byte>)
    requires !HeaderEndFrom(buf, idx).More?
    ensures HeaderEndFrom(buf + ext, idx) == HeaderEndFrom(buf, idx)
    decreases |buf| - idx
  {
    if buf[idx] != CR {
      HeaderFromOnline(buf, idx + 1, ext);
    } else if buf[idx + 1] == NL && IsLws(buf[idx + 2]) {
      HeaderFromOnline(buf, idx + 3, ext);
    }
  }

  lemma HeaderOnline(buf: seq<byte>, ext: seq<byte>)
    requires !HeaderEnd(buf).More?
    ensures HeaderEnd(buf + ext) == HeaderEnd(buf)
  {
    if buf[0] != CR {
      HeaderFromOnline(buf, 1, ext);
    }
  }

  function LwsClass(): byte -> bool {
    (b: byte) => IsLws(b)
  }

  /** `find_lws_end`: one optional fold, then spaces and tabs. */
  function LwsEnd(buf: seq<byte>): (r: Scan)
    ensures r.Found? ==> r.end < |buf| && !IsLws(buf[r.end])
  {
    if buf == [] then More
    else if buf[0] == CR then
      if 3 > |buf| then More
      else if buf[1] != NL then Bad
      else if !IsLws(buf[2]) then Found(0)
      else
        var end := SkipFrom(buf, 3, LwsClass());
        if end < |buf| then Found(end) else More
    else
      var end := SkipFrom(buf, 0, LwsClass());
      if end < |buf| then Found(end) else More
  }

  method FindLwsEnd(buf: seq<byte>) returns (r: Scan)
    ensures r == LwsEnd(buf)
  {
    if buf == [] {
      return More;
    }
    var idx := 0;
    if buf[0] == CR {
      if 3 > |buf| {
        return More;
      }
      if buf[1] != NL {
        return Bad;
      }
      if !IsLws(buf[2]) {
        return Found(0);
      }
      idx := 3;
    }
    ghost var start := idx;
    while |buf| > idx
      invariant start <= idx <= |buf|
      invariant SkipFrom(buf, start, LwsClass()) == SkipFrom(buf, idx, LwsClass())
    {
      if !IsLws(buf[idx]) {
        return Found(idx);
      }
      idx := idx + 1;
    }
    return More;
  }

  lemma LwsOnline(buf: seq<byte>, ext: seq<byte>)
    requires !LwsEnd(buf).More?
    ensures LwsEnd(buf + ext) == LwsEnd(buf)
  {
    if buf[0] != CR {
      SkipOnline(buf, 0, LwsClass(), ext);
    } else if LwsEnd(buf).Found? && IsLws(buf[2]) {
      SkipOnline(buf, 3, LwsClass(), ext);
    }
  }

  /** A scanner that is run again behind what it found, until it finds nothing more. */
  function Repeat(one: seq<byte> -> Scan, buf: seq<byte>, idx: nat): (r: Scan)
    ensures r.Found? ==> idx <= r.end
    decreases |buf| - idx
  {
    if idx < |buf| then
      var r := one(buf[idx..]);
      if r.Found? then (if r.end > 0 then Repeat(one, buf, idx + r.end) else Found(idx)) else r
    else Found(idx)
  }

  function Shifted(r: Scan, start: nat): Scan {
    if r.Found? then Found(start + r.end) else r
  }

  lemma {:induction false} RepeatShift(one: seq<byte> -> Scan, buf: seq<byte>, start: nat, k: nat)
    requires start <= |buf|
    ensures Shifted(Repeat(one, buf[start..], k), start) == Repeat(one, buf, start + k)
    decreases |buf| - k
  {
    if start + k < |buf| {
      assert buf[start..][k..] == buf[start + k..];
      var r := one(buf[start + k..]);
      if r.Found? && r.end > 0 {
        RepeatShift(one, buf, start, k + r.end);
      }
    }
  }

  lemma {:induction false} RepeatWithin(one: seq<byte> -> Scan, buf: seq<byte>, idx: nat)
    requires idx <= |buf| && forall s: seq<byte> :: one(s).Found? ==> one(s).end <= |s|
    ensures Repeat(one, buf, idx).Found? ==> Repeat(one, buf, idx).end <= |buf|
    decreases |buf| - idx
  {
    if idx < |buf| {
      var r := one(buf[idx..]);
      if r.Found? && r.end > 0 {
        RepeatWithin(one, buf, idx + r.end);
      }
    }
  }

  /** `find_multi_lws_end` from an index: any number of folds and spaces. */
  function MultiLwsFrom(buf: seq<byte>, idx: nat): (r: Scan)
    requires idx <= |buf|
    ensures r.Found? ==> idx <= r.end <= |buf|
  {
    RepeatWithin(LwsEnd, buf, idx);
    Repeat(LwsEnd, buf, idx)
  }

  function MultiLwsEnd(buf: seq<byte>): Scan {
    if buf == [] then More else MultiLwsFrom(buf, 0)
  }

  method FindMultiLwsEnd(buf: seq<byte>) returns (r: Scan)
    ensures r == MultiLwsEnd(buf)
  {
    if buf == [] {
      return More;
    }
    var idx := 0;
    while |buf| > idx
      invariant 0 <= idx <= |buf|
      invariant MultiLwsFrom(buf, idx) == MultiLwsEnd(buf)
      decreases |buf| - idx
    {
      var one := FindLwsEnd(buf[idx..]);
      match one
      case Found(new_idx) =>
        if new_idx > 0 {
          idx := idx + new_idx;
        } else {
          return Found(idx);
        }
      case _ => return one;
    }
    return Found(idx);
  }

  lemma {:induction false} MultiLwsFromOnline(buf: seq<byte>, idx: nat, ext: seq<byte>)
    requires idx < |buf| && !MultiLwsFrom(buf, idx).More?
    ensures MultiLwsFrom(buf + ext, idx) == MultiLwsFrom(buf, idx)
    decreases |buf| - idx
  {
    LwsOnline(buf[idx..], ext);
    assert (buf + ext)[idx..] == buf[idx..] + ext;
    var r := LwsEnd(buf[idx..]);
    if r.Found? && r.end > 0 {
      MultiLwsFromOnline(buf, idx + r.end, ext);
    }
  }

  lemma MultiLwsOnline(buf: seq<byte>, ext: seq<byte>)
    requires !MultiLwsEnd(buf).More?
    ensures MultiLwsEnd(buf + ext) == MultiLwsEnd(buf)
  {
    MultiLwsFromOnline(buf, 0, ext);
  }
}
