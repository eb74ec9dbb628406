/** src/parse.rs: which header lines the parser accepts, and what it makes of them (section 3.2 of RFC 7230): a name, a
    colon, and texts between spaces, tabs and folds. */
module HeaderContent {
  import opened Basics
  import opened Seqs
  import opened Parse
  import opened HeaderFraming

  // ---------- spaces, tabs and folds ----------

  predicate Lws(s: seq<byte>)
    decreases |s|
  {
    || s == []
    || (IsLws(s[0]) && Lws(s[1..]))
    || (|s| >= 3 && s[0] == CR && s[1] == NL && IsLws(s[2]) && Lws(s[3..]))
  }

  /** Something that neither a space nor a fold begins. */
  predicate NoLws(t: seq<byte>) {
    t != [] && !IsLws(t[0]) && (t[0] == CR ==> |t| >= 3 && t[1] == NL && !IsLws(t[2]))
  }

  /** CR NL before a byte that is no space; the parser also takes an NL without a CR. */
  predicate LineOver(t: seq<byte>) {
    t != [] && (t[0] == NL || (|t| >= 3 && t[0] == CR && t[1] == NL && !IsLws(t[2])))
  }

  lemma NoLwsFound(t: seq<byte>)
    ensures LwsEnd(t) == Found(0) <==> NoLws(t)
  {
  }

  lemma {:induction false} SpacesAreLws(buf: seq<byte>, idx: nat, e: nat)
    requires idx <= e <= |buf| && forall i :: idx <= i < e ==> IsLws(buf[i])
    ensures Lws(buf[idx..e])
    decreases e - idx
  {
    if idx < e {
      SpacesAreLws(buf, idx + 1, e);
      assert buf[idx..e][1..] == buf[idx + 1..e];
    }
  }

  lemma {:induction false} LwsAppend(s: seq<byte>, t: seq<byte>)
    requires Lws(s) && Lws(t)
    ensures Lws(s + t)
    decreases |s|
  {
    if s == [] {
      assert s + t == t;
    } else if IsLws(s[0]) && Lws(s[1..]) {
      LwsAppend(s[1..], t);
      assert (s + t)[1..] == s[1..] + t;
    } else {
      LwsAppend(s[3..], t);
      assert (s + t)[3..] == s[3..] + t;
    }
  }

  /** One find takes spaces, or a fold and spaces. */
  lemma OneIsLws(s: seq<byte>)
    requires LwsEnd(s).Found?
    ensures LwsEnd(s).end <= |s| && Lws(s[..LwsEnd(s).end])
  {
    var e := LwsEnd(s).end;
    if s[0] == CR && e > 0 {
      SpacesAreLws(s, 3, e);
      assert s[..e][3..] == s[3..e];
    } else if s[0] != CR {
      SpacesAreLws(s, 0, e);
      assert s[0..e] == s[..e];
    }
  }

  /** What is skipped is spaces, tabs and folds, and what follows is neither. */
  lemma {:induction false} SkippedIsLws(buf: seq<byte>, idx: nat)
    requires idx <= |buf| && MultiLwsFrom(buf, idx).Found?
    ensures var e := MultiLwsFrom(buf, idx).end; Lws(buf[idx..e]) && (e < |buf| ==> NoLws(buf[e..]))
    decreases |buf| - idx
  {
    if idx < |buf| {
      var one := LwsEnd(buf[idx..]);
      OneIsLws(buf[idx..]);
      NoLwsFound(buf[idx..]);
      if one.end > 0 {
        SkippedIsLws(buf, idx + one.end);
        var e := MultiLwsFrom(buf, idx).end;
        LwsAppend(buf[idx..][..one.end], buf[idx + one.end..e]);
        assert buf[idx..e] == buf[idx..][..one.end] + buf[idx + one.end..e];
      }
    }
  }

  /** One find takes the first of it. */
  lemma OneTaken(s: seq<byte>, k: nat)
    requires 0 < k < |s| && Lws(s[..k]) && NoLws(s[k..])
    ensures var r := LwsEnd(s); r.Found? && 0 < r.end <= k && Lws(s[r.end..k])
  {
    var p := s[..k];
    assert s[k] == s[k..][0] && p[0] == s[0];
    if s[0] == CR {
      assert p[1] == NL && IsLws(p[2]) && p[3..] == s[3..k];
      RunWithin(s, 3, k);
      RestTaken(s, 3, k);
    } else {
      RunWithin(s, 0, k);
      assert p == s[0..k];
      assert LwsClass()(s[0]);
      RestTaken(s, 0, k);
    }
  }

  lemma RestTaken(s: seq<byte>, from: nat, k: nat)
    requires from <= k <= |s| && SkipFrom(s, from, LwsClass()) <= k && Lws(s[from..k])
    ensures Lws(s[SkipFrom(s, from, LwsClass())..k])
  {
    SpacesRest(s, from, SkipFrom(s, from, LwsClass()), k);
  }

  /** Behind leading spaces, the rest of such a string is one too. */
  lemma {:induction false} SpacesRest(s: seq<byte>, from: nat, e: nat, k: nat)
    requires from <= e <= k <= |s| && Lws(s[from..k]) && forall i :: from <= i < e ==> IsLws(s[i])
    ensures Lws(s[e..k])
    decreases e - from
  {
    if from < e {
      assert s[from..k][0] == s[from] && s[from..k][1..] == s[from + 1..k];
      SpacesRest(s, from + 1, e, k);
    }
  }

  /** The other way round: all of it is skipped, up to something that is neither. */
  lemma {:induction false} LwsIsSkipped(buf: seq<byte>, idx: nat, e: nat)
    requires idx <= e < |buf| && Lws(buf[idx..e]) && NoLws(buf[e..])
    ensures MultiLwsFrom(buf, idx) == Found(e)
    decreases e - idx
  {
    NoLwsFound(buf[idx..]);
    if idx < e {
      var s := buf[idx..];
      assert s[..e - idx] == buf[idx..e] && s[e - idx..] == buf[e..];
      OneTaken(s, e - idx);
      var one := LwsEnd(s).end;
      assert s[one..e - idx] == buf[idx + one..e];
      LwsIsSkipped(buf, idx + one, e);
    }
  }

  lemma RunWithin(s: seq<byte>, from: nat, e: nat)
    requires from <= e < |s| && !IsLws(s[e])
    ensures from <= SkipFrom(s, from, LwsClass()) <= e
  {
    assert !LwsClass()(s[e]);
  }

  // ---------- lines ----------

  /** A text, and what separates it from the next one or from the end of the line. */
  datatype Part = Part(text: seq<byte>, gap: seq<byte>)

  function PartBytes(p: Part): seq<byte> {
    p.text + p.gap
  }

  function TextIn(p: Part): seq<seq<byte>> {
    [p.text]
  }

  /** The values of a line. */
  function Texts(parts: seq<Part>): seq<seq<byte>> {
    FlatMap(parts, TextIn)
  }

  /** An accepted value: text that begins with no space. Spaces within it and behind it belong to it. */
  predicate TextOk(a: Accept, text: seq<byte>) {
    text != [] && text[0] != SP && a.value(text) && forall i :: 0 <= i < |text| ==> IsText(text[i])
  }

  /** A gap begins with a tab or a fold, for spaces still belong to the text before; only the last may be empty. */
  predicate GapOk(gap: seq<byte>, last: bool) {
    Lws(gap) && (gap == [] ==> last) && (gap != [] ==> !IsText(gap[0]))
  }

  predicate PartsOk(a: Accept, parts: seq<Part>)
    decreases |parts|
  {
    parts != [] ==> TextOk(a, parts[0].text) && GapOk(parts[0].gap, |parts| == 1) && PartsOk(a, parts[1..])
  }

  predicate NameOk(a: Accept, name: seq<byte>) {
    name != [] && a.name(name) && forall i :: 0 <= i < |name| ==> IsToken(name[i])
  }

  /** The bytes of a line before its end. */
  function LineBytes(name: seq<byte>, lead: seq<byte>, parts: seq<Part>): seq<byte> {
    name + [COLON] + lead + FlatMap(parts, PartBytes)
  }

  // ---------- what the parser accepts is a line ----------

  /** Behind a text: a gap, or the end of the line. */
  lemma AfterText(a: Accept, buf: seq<byte>, idx: nat)
    requires idx < |buf| && !IsText(buf[idx])
    ensures match Next(a, buf, idx)
            case Text(_) => false
            case Folds(next) => Lws(buf[idx..next]) && buf[idx..next] != [] && (next < |buf| ==> NoLws(buf[next..]))
            case LineStop => LineOver(buf[idx..])
            case Wrong => true
  {
    if IsLwsFull(buf[idx]) && MultiLwsEnd(buf[idx..]).Found? {
      var e := MultiLwsEnd(buf[idx..]).end;
      SkippedIsLws(buf[idx..], 0);
      assert buf[idx..][0..e] == buf[idx..idx + e];
      assert e < |buf| - idx ==> buf[idx..][e..] == buf[idx + e..];
    }
  }

  /** A text, where one begins. */
  lemma AtText(a: Accept, buf: seq<byte>, idx: nat)
    requires idx < |buf| && IsText(buf[idx]) && NoLws(buf[idx..]) && Next(a, buf, idx).Text?
    ensures var next := Next(a, buf, idx).next;
            TextOk(a, buf[idx..next]) && next < |buf| && !IsText(buf[next])
  {
    var end := SkipFrom(buf[idx..], 0, TextClass());
    var text := buf[idx..idx + end];
    forall i | 0 <= i < |text|
      ensures IsText(text[i])
    {
      assert TextClass()(buf[idx..][i]);
    }
    assert !TextClass()(buf[idx..][end]);
    assert buf[idx..][0] == buf[idx];
  }

  lemma {:induction false} ValuesAreParts(a: Accept, buf: seq<byte>, idx: nat, name: seq<byte>,
                                          values: seq<seq<byte>>) returns (parts: seq<Part>)
    requires idx <= |buf| && (idx < |buf| ==> NoLws(buf[idx..])) && ParseValues(a, buf, idx, name, values).Some?
    ensures var r := ParseValues(a, buf, idx, name, values).value;
            && PartsOk(a, parts) && r.header == Header(name, values + Texts(parts))
            && idx <= r.stop <= |buf| && buf[idx..r.stop] == FlatMap(parts, PartBytes) && LineOver(buf[r.stop..])
    decreases |buf| - idx
  {
    if !IsText(buf[idx]) {
      parts := [];
      StopsHere(a, buf, idx, name, values);
    } else {
      AtText(a, buf, idx);
      var next := Next(a, buf, idx).next;
      var text := buf[idx..next];
      AfterText(a, buf, next);
      if Next(a, buf, next).Folds? {
        var on := Next(a, buf, next).next;
        var later := ValuesAreParts(a, buf, on, name, values + [text]);
        parts := [Part(text, buf[next..on])] + later;
        PartFirst(a, buf, idx, next, on, ParseValues(a, buf, on, name, values + [text]).value.stop, later, values);
      } else {
        parts := [Part(text, [])];
        assert values + [text] == values + Texts(parts) by {
          FlatMapOne(Part(text, []), TextIn);
        }
        FlatMapOne(Part(text, []), PartBytes);
      }
    }
  }

  lemma StopsHere(a: Accept, buf: seq<byte>, idx: nat, name: seq<byte>, values: seq<seq<byte>>)
    requires idx < |buf| && !IsText(buf[idx]) && NoLws(buf[idx..]) && ParseValues(a, buf, idx, name, values).Some?
    ensures ParseValues(a, buf, idx, name, values) == Some(Parsed(Header(name, values + []), idx))
    ensures LineOver(buf[idx..])
  {
    AfterText(a, buf, idx);
    assert values + [] == values;
    if Next(a, buf, idx).Folds? {
      NoLwsStays(buf, idx, Next(a, buf, idx).next);
    }
  }

  /** Where nothing can be skipped, nothing is. */
  lemma NoLwsStays(buf: seq<byte>, idx: nat, e: nat)
    requires idx <= e <= |buf| && NoLws(buf[idx..]) && Lws(buf[idx..e])
    ensures e == idx
  {
  }

  lemma PartFirst(a: Accept, buf: seq<byte>, idx: nat, next: nat, on: nat, stop: nat, later: seq<Part>,
                  values: seq<seq<byte>>)
    requires idx < next < on <= stop <= |buf| && PartsOk(a, later) && buf[on..stop] == FlatMap(later, PartBytes)
    requires TextOk(a, buf[idx..next]) && Lws(buf[next..on]) && !IsText(buf[next])
    ensures var parts := [Part(buf[idx..next], buf[next..on])] + later;
            && PartsOk(a, parts) && buf[idx..stop] == FlatMap(parts, PartBytes)
            && values + [buf[idx..next]] + Texts(later) == values + Texts(parts)
  {
    var part := Part(buf[idx..next], buf[next..on]);
    assert ([part] + later)[1..] == later;
    assert buf[idx..stop] == (buf[idx..next] + buf[next..on]) + buf[on..stop];
    Regroup(values, [part.text], Texts(later));
  }

  // ---------- lines are accepted ----------

  /** A text that ends before something else is found whole. */
  lemma TextFound(a: Accept, buf: seq<byte>, idx: nat, next: nat)
    requires idx < next < |buf| && TextOk(a, buf[idx..next]) && !IsText(buf[next])
    ensures Next(a, buf, idx) == Text(next)
  {
    var s := buf[idx..];
    forall i | 0 <= i < next - idx
      ensures TextClass()(s[i])
    {
      assert s[i] == buf[idx..next][i];
    }
    assert !TextClass()(s[next - idx]);
    assert SkipFrom(s, 0, TextClass()) == next - idx;
    assert buf[idx..next][0] == buf[idx];
  }

  /** A gap is found whole. */
  lemma GapFound(a: Accept, buf: seq<byte>, idx: nat, next: nat)
    requires idx < next < |buf| && GapOk(buf[idx..next], false) && NoLws(buf[next..])
    ensures Next(a, buf, idx) == Folds(next)
  {
    var s := buf[idx..];
    assert buf[idx..next][0] == buf[idx];
    assert s[0..next - idx] == buf[idx..next] && s[next - idx..] == buf[next..];
    LwsIsSkipped(s, 0, next - idx);
  }

  lemma EndFound(a: Accept, buf: seq<byte>, idx: nat)
    requires idx < |buf| && LineOver(buf[idx..])
    ensures Next(a, buf, idx) == LineStop
  {
    var s := buf[idx..];
    assert s[0] == buf[idx];
    assert s[0..0] == [];
    LwsIsSkipped(s, 0, 0);
  }

  lemma {:induction false} PartsParse(a: Accept, buf: seq<byte>, idx: nat, stop: nat, name: seq<byte>,
                                      values: seq<seq<byte>>, parts: seq<Part>)
    requires idx <= stop < |buf| && PartsOk(a, parts) && LineOver(buf[stop..])
    requires buf[idx..stop] == FlatMap(parts, PartBytes)
    ensures ParseValues(a, buf, idx, name, values) == Some(Parsed(Header(name, values + Texts(parts)), stop))
    ensures NoLws(buf[idx..])
    decreases |parts|
  {
    if parts == [] {
      EndFound(a, buf, idx);
      assert values + [] == values;
    } else {
      var text, gap := parts[0].text, parts[0].gap;
      var next, on := idx + |text|, idx + |text| + |gap|;
      PartPlaces(buf, idx, stop, parts);
      BehindText(buf, next, on, stop, parts);
      PartsParse(a, buf, on, stop, name, values + [text], parts[1..]);
      PartParses(a, buf, idx, next, on, name, values);
      Regroup(values, [text], Texts(parts[1..]));
    }
  }

  /** Two turns of the loop take a part. */
  lemma PartParses(a: Accept, buf: seq<byte>, idx: nat, next: nat, on: nat, name: seq<byte>, values: seq<seq<byte>>)
    requires idx < next <= on < |buf| && TextOk(a, buf[idx..next]) && !IsText(buf[next])
    requires next == on || (GapOk(buf[next..on], false) && NoLws(buf[on..]))
    ensures ParseValues(a, buf, idx, name, values) == ParseValues(a, buf, on, name, values + [buf[idx..next]])
    ensures NoLws(buf[idx..])
  {
    TextFound(a, buf, idx, next);
    assert buf[idx..][0] == buf[idx..next][0];
    if next < on {
      GapFound(a, buf, next, on);
    }
  }

  /** Where the first part stands. */
  lemma PartPlaces(buf: seq<byte>, idx: nat, stop: nat, parts: seq<Part>)
    requires idx <= stop <= |buf| && parts != [] && buf[idx..stop] == FlatMap(parts, PartBytes)
    ensures var next := idx + |parts[0].text|;
            var on := next + |parts[0].gap|;
            && on <= stop && buf[idx..next] == parts[0].text && buf[next..on] == parts[0].gap
            && buf[on..stop] == FlatMap(parts[1..], PartBytes)
  {
    var text, gap, rest := parts[0].text, parts[0].gap, FlatMap(parts[1..], PartBytes);
    SlicesOf(buf, idx, stop, text, gap, rest);
  }

  lemma SlicesOf(buf: seq<byte>, idx: nat, stop: nat, s: seq<byte>, t: seq<byte>, u: seq<byte>)
    requires idx <= stop <= |buf| && buf[idx..stop] == (s + t) + u
    ensures var a := idx + |s|;
            var b := a + |t|;
            b <= stop && buf[idx..a] == s && buf[a..b] == t && buf[b..stop] == u
  {
    var all := buf[idx..stop];
    var a := idx + |s|;
    var b := a + |t|;
    assert |all| == stop - idx && all == s + (t + u);
    assert all[..|s|] == s && all[|s|..][..|t|] == t && all[|s|..][|t|..] == u;
    assert buf[idx..a] == all[..|s|] && buf[a..b] == all[|s|..][..|t|] && buf[b..stop] == all[|s|..][|t|..];
  }

  lemma BehindText(buf: seq<byte>, next: nat, on: nat, stop: nat, parts: seq<Part>)
    requires next <= on <= stop < |buf| && parts != [] && LineOver(buf[stop..])
    requires buf[next..on] == parts[0].gap && GapOk(parts[0].gap, |parts| == 1)
    requires buf[on..stop] == FlatMap(parts[1..], PartBytes)
    ensures !IsText(buf[next])
  {
    if parts[0].gap == [] {
      assert parts[1..] == [];
      assert next == on == stop && buf[stop..][0] == buf[next];
    } else {
      assert buf[next..on][0] == buf[next];
    }
  }

  // ---------- the parser ----------

  /** The line that a header stands for, and that the buffer begins with it and goes on with its end. */
  predicate IsLine(a: Accept, buf: seq<byte>, h: Header, stop: nat, lead: seq<byte>, parts: seq<Part>) {
    && NameOk(a, h.name) && Lws(lead) && PartsOk(a, parts) && h.values == Texts(parts)
    && stop == |LineBytes(h.name, lead, parts)| && stop < |buf| && buf[..stop] == LineBytes(h.name, lead, parts)
    && LineOver(buf[stop..])
  }

  /** The name and what is skipped behind the colon. */
  lemma HeadIsLine(a: Accept, buf: seq<byte>)
    requires ParseName(a, buf).Some?
    ensures var (name, idx) := ParseName(a, buf).value;
            var n := |name|;
            && NameOk(a, name) && n < idx <= |buf| && buf[..n] == name && buf[n] == COLON && Lws(buf[n + 1..idx])
            && (idx < |buf| ==> NoLws(buf[idx..]))
  {
    var n := NameEnd(buf);
    var idx := ParseName(a, buf).value.1;
    var t := buf[n + 1..];
    SkippedIsLws(t, 0);
    assert t[0..idx - n - 1] == buf[n + 1..idx];
    assert idx < |buf| ==> t[idx - n - 1..] == buf[idx..];
    NameTokens(a, buf, n);
  }

  /** What is accepted is such a line. */
  lemma ParsedIsLine(a: Accept, buf: seq<byte>) returns (lead: seq<byte>, parts: seq<Part>)
    requires ParseHeader(a, buf).Some?
    ensures var r := ParseHeader(a, buf).value; IsLine(a, buf, r.header, r.stop, lead, parts)
  {
    HeadIsLine(a, buf);
    var (name, idx) := ParseName(a, buf).value;
    lead := buf[|name| + 1..idx];
    parts := ValuesAreParts(a, buf, idx, name, []);
    var stop := ParseHeader(a, buf).value.stop;
    assert [] + Texts(parts) == Texts(parts);
    LineJoined(buf, name, idx, stop, parts);
  }

  lemma LineJoined(buf: seq<byte>, name: seq<byte>, idx: nat, stop: nat, parts: seq<Part>)
    requires |name| < idx <= stop <= |buf| && buf[..|name|] == name && buf[|name|] == COLON
    requires buf[idx..stop] == FlatMap(parts, PartBytes)
    ensures buf[..stop] == LineBytes(name, buf[|name| + 1..idx], parts)
    ensures stop == |LineBytes(name, buf[|name| + 1..idx], parts)|
  {
    var n := |name|;
    assert buf[..stop] == buf[..n] + [buf[n]] + buf[n + 1..idx] + buf[idx..stop];
  }

  lemma NameTokens(a: Accept, buf: seq<byte>, n: nat)
    requires buf != [] && IsToken(buf[0]) && n == NameEnd(buf) && n <= |buf| && a.name(buf[..n])
    ensures NameOk(a, buf[..n])
  {
    forall i | 0 <= i < n
      ensures IsToken(buf[..n][i])
    {
      assert TokenClass()(buf[i]);
    }
    assert n > 0 by {
      assert TokenClass()(buf[0]);
    }
  }

  /** Every such line is accepted. */
  lemma LineParses(a: Accept, buf: seq<byte>, h: Header, stop: nat, lead: seq<byte>, parts: seq<Part>)
    requires IsLine(a, buf, h, stop, lead, parts)
    ensures ParseHeader(a, buf) == Some(Parsed(h, stop))
  {
    var idx := |h.name| + 1 + |lead|;
    LinePlaces(buf, h.name, lead, parts, stop);
    PartsParse(a, buf, idx, stop, h.name, [], parts);
    HeadParses(a, buf, h.name, idx);
    assert [] + Texts(parts) == Texts(parts);
  }

  lemma HeadParses(a: Accept, buf: seq<byte>, name: seq<byte>, idx: nat)
    requires NameOk(a, name) && |name| < idx < |buf| && buf[..|name|] == name && buf[|name|] == COLON
    requires Lws(buf[|name| + 1..idx]) && NoLws(buf[idx..])
    ensures ParseName(a, buf) == Some((name, idx))
  {
    var n := |name|;
    NameFound(a, buf, name);
    var t := buf[n + 1..];
    assert t[0..idx - n - 1] == buf[n + 1..idx] && t[idx - n - 1..] == buf[idx..];
    LwsIsSkipped(t, 0, idx - n - 1);
  }

  lemma LinePlaces(buf: seq<byte>, name: seq<byte>, lead: seq<byte>, parts: seq<Part>, stop: nat)
    requires stop == |LineBytes(name, lead, parts)| < |buf| && buf[..stop] == LineBytes(name, lead, parts)
    ensures var idx := |name| + 1 + |lead|;
            && idx <= stop && buf[..|name|] == name && buf[|name|] == COLON && buf[|name| + 1..idx] == lead
            && buf[idx..stop] == FlatMap(parts, PartBytes)
  {
    var line := buf[..stop];
    var n, idx := |name|, |name| + 1 + |lead|;
    assert line[..n] == name && line[n] == COLON && line[n + 1..idx] == lead;
    assert line[idx..] == FlatMap(parts, PartBytes);
  }

  lemma NameFound(a: Accept, buf: seq<byte>, name: seq<byte>)
    requires NameOk(a, name) && |name| < |buf| && buf[..|name|] == name && buf[|name|] == COLON
    ensures NameEnd(buf) == |name| && IsToken(buf[0])
  {
    forall i | 0 <= i < |name|
      ensures TokenClass()(buf[i])
    {
      assert buf[i] == name[i];
    }
    assert !TokenClass()(buf[|name|]);
  }

  /** The parser accepts exactly the lines of an accepted name, a colon, and accepted texts between spaces, tabs and
      folds, each with exactly this name and these texts, and stops where their bytes end. */
  lemma ParsesExactly(a: Accept, buf: seq<byte>, h: Header, stop: nat)
    ensures ParseHeader(a, buf) == Some(Parsed(h, stop)) <==> exists lead, parts :: IsLine(a, buf, h, stop, lead, parts)
  {
    if ParseHeader(a, buf) == Some(Parsed(h, stop)) {
      var lead, parts := ParsedIsLine(a, buf);
    }
    if lead, parts :| IsLine(a, buf, h, stop, lead, parts) {
      LineParses(a, buf, h, stop, lead, parts);
    }
  }
}
