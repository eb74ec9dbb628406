/** src/parse.rs and src/lib.rs: the end of a header line is determined twice, once by the scanner and once by the
    parser; where they agree, and that reading headers does not depend on how the bytes arrive. */
module HeaderFraming {
  import opened Basics
  import opened Parse

  function TextClass(): byte -> bool {
    (b: byte) => IsText(b)
  }

  // ---------- the parser ----------

  /** What the `http` crate accepts as the name and as a value of a header. */
  datatype Accept = Accept(name: seq<byte> -> bool, value: seq<byte> -> bool)

  datatype Header = Header(name: seq<byte>, values: seq<seq<byte>>)

  /** A parsed header line and where the parser stopped. */
  datatype Parsed = Parsed(header: Header, stop: nat)

  /** What one turn of the loop finds: a text or folds up to an index, the line end, or an error. */
  datatype Piece = Text(next: nat) | Folds(next: nat) | LineStop | Wrong

  function Next(a: Accept, buf: seq<byte>, idx: nat): (p: Piece)
    requires idx < |buf|
    ensures p.Text? || p.Folds? ==> idx < p.next <= |buf|
  {
    if IsText(buf[idx]) then
      var end := RunEnd(buf[idx..], TextClass());
      if end.Found? && end.end > 0 && a.value(buf[idx..idx + end.end]) then Text(idx + end.end) else Wrong
    else if IsLwsFull(buf[idx]) then
      var end := MultiLwsEnd(buf[idx..]);
      if !end.Found? then Wrong else if end.end > 0 then Folds(idx + end.end) else LineStop
    else Wrong
  }

  /** The loop over texts and folds. */
  function ParseValues(a: Accept, buf: seq<byte>, idx: nat, name: seq<byte>, values: seq<seq<byte>>): Option<Parsed>
    decreases |buf| - idx
  {
    if |buf| > idx then
      match Next(a, buf, idx)
      case Text(next) => ParseValues(a, buf, next, name, values + [buf[idx..next]])
      case Folds(next) => ParseValues(a, buf, next, name, values)
      case LineStop => Some(Parsed(Header(name, values), idx))
      case Wrong => None
    else None
  }

  function NameEnd(buf: seq<byte>): nat {
    SkipFrom(buf, 0, TokenClass())
  }

  /** The name, and where the first value begins. */
  function ParseName(a: Accept, buf: seq<byte>): Option<(seq<byte>, nat)> {
    var n := NameEnd(buf);
    if buf == [] || !IsToken(buf[0]) || n + 1 >= |buf| || !a.name(buf[..n]) || buf[n] != COLON then None
    else
      var lws := MultiLwsEnd(buf[n + 1..]);
      if lws.Found? then Some((buf[..n], n + 1 + lws.end)) else None
  }

  function ParseHeader(a: Accept, buf: seq<byte>): Option<Parsed> {
    var name := ParseName(a, buf);
    if name.Some? then ParseValues(a, buf, name.value.1, name.value.0, []) else None
  }

  /** The head of `parse_request_header_new`. */
  method ParseHead(a: Accept, buf: seq<byte>) returns (r: Option<(seq<byte>, nat)>)
    ensures r == ParseName(a, buf)
  {
    if buf == [] || !IsToken(buf[0]) {
      return None;
    }
    var end := FindRunEnd(buf, TokenClass());
    if !end.Found? || !a.name(buf[..end.end]) || end.end + 1 >= |buf| || buf[end.end] != COLON {
      return None;
    }
    var lws := FindMultiLwsEnd(buf[end.end + 1..]);
    return if lws.Found? then Some((buf[..end.end], end.end + lws.end + 1)) else None;
  }

  /** One turn of the loop. */
  method ParsePiece(a: Accept, buf: seq<byte>, idx: nat) returns (p: Piece)
    requires idx < |buf|
    ensures p == Next(a, buf, idx)
  {
    if IsText(buf[idx]) {
      var text := FindRunEnd(buf[idx..], TextClass());
      assert buf[idx..][0] == buf[idx];
      if !text.Found? || !a.value(buf[idx..idx + text.end]) {
        return Wrong;
      }
      return Text(idx + text.end);
    }
    if IsLwsFull(buf[idx]) {
      var folds := FindMultiLwsEnd(buf[idx..]);
      if !folds.Found? {
        return Wrong;
      }
      return if folds.end > 0 then Folds(idx + folds.end) else LineStop;
    }
    return Wrong;
  }

  /** `parse_request_header_new`. */
  method ParseRequestHeader(a: Accept, buf: seq<byte>) returns (r: Option<Parsed>)
    ensures r == ParseHeader(a, buf)
  {
    var head := ParseHead(a, buf);
    if head.None? {
      return None;
    }
    var (name, idx) := head.value;
    var values := [];
    while |buf| > idx
      invariant ParseValues(a, buf, idx, name, values) == ParseHeader(a, buf)
      decreases |buf| - idx
    {
      var piece := ParsePiece(a, buf, idx);
      match piece {
        case Text(next) => idx, values := next, values + [buf[idx..next]];
        case Folds(next) => idx := next;
        case LineStop => return Some(Parsed(Header(name, values), idx));
        case Wrong => return None;
      }
    }
    return None;
  }

  // ---------- where the scanner stops ----------

  /** A CR at `i` begins a fold that ends before `e`. */
  predicate Folded(buf: seq<byte>, e: int, i: nat)
    requires e <= |buf|
  {
    i < |buf| && buf[i] == CR ==> i + 2 < e && buf[i + 1] == NL && IsLws(buf[i + 2])
  }

  predicate AllFolded(buf: seq<byte>, e: nat)
    requires e <= |buf|
  {
    forall i :: 0 <= i < e ==> Folded(buf, e, i)
  }

  /** Every CR before the end begins a fold; the end is CR NL before something that is no fold. */
  predicate Line(buf: seq<byte>, e: nat) {
    && 3 <= e < |buf| && buf[0] != CR && buf[e - 2] == CR && buf[e - 1] == NL && !IsLws(buf[e])
    && AllFolded(buf, e - 2)
  }

  lemma FoldedOn(buf: seq<byte>, e: nat, f: nat)
    requires e <= f <= |buf| && AllFolded(buf, e)
    requires forall i :: e <= i < f ==> Folded(buf, f, i)
    ensures AllFolded(buf, f)
  {
    forall i | 0 <= i < f ensures Folded(buf, f, i) {
      assert i < e ==> Folded(buf, e, i);
    }
  }

  lemma {:induction false} LineFrom(buf: seq<byte>, idx: nat)
    requires 1 <= idx && HeaderEndFrom(buf, idx).Found?
    requires buf[0] != CR
    requires idx <= |buf| && AllFolded(buf, idx)
    ensures Line(buf, HeaderEndFrom(buf, idx).end)
    decreases |buf| - idx
  {
    if buf[idx] != CR {
      FoldedOn(buf, idx, idx + 1);
      LineFrom(buf, idx + 1);
    } else if IsLws(buf[idx + 2]) {
      FoldedOn(buf, idx, idx + 3);
      LineFrom(buf, idx + 3);
    }
  }

  lemma FoundLine(buf: seq<byte>)
    requires HeaderEnd(buf).Found?
    ensures Line(buf, HeaderEnd(buf).end)
  {
    LineFrom(buf, 1);
  }

  /** Every such line is found. */
  lemma {:induction false} LineIsFound(buf: seq<byte>, idx: nat, e: nat)
    requires Line(buf, e) && 1 <= idx <= e - 2
    ensures HeaderEndFrom(buf, idx) == Found(e)
    decreases e - idx
  {
    if buf[idx] != CR {
      LineIsFound(buf, idx + 1, e);
    } else if idx < e - 2 {
      assert Folded(buf, e - 2, idx);
      LineIsFound(buf, idx + 3, e);
    }
  }

  /** Section 3.2 of RFC 7230: the scanner finds exactly the lines that end with a CR NL before something that is no
      fold, and in which every other CR begins a fold. */
  lemma LinesFound(buf: seq<byte>, e: nat)
    ensures HeaderEnd(buf) == Found(e) <==> Line(buf, e)
  {
    if HeaderEnd(buf) == Found(e) {
      FoundLine(buf);
    } else if Line(buf, e) {
      LineIsFound(buf, 1, e);
    }
  }

  /** A CR at the start, or one behind complete folds that no NL follows, with a byte more to see it. */
  predicate BadCr(buf: seq<byte>, i: nat)
    requires i < |buf|
  {
    buf[i] == CR && (i == 0 || (i + 2 < |buf| && buf[0] != CR && buf[i + 1] != NL && AllFolded(buf, i)))
  }

  lemma {:induction false} BadFrom(buf: seq<byte>, idx: nat)
    requires 1 <= idx <= |buf| && buf[0] != CR && AllFolded(buf, idx)
    ensures HeaderEndFrom(buf, idx).Bad? ==> exists i :: 0 <= i < |buf| && BadCr(buf, i)
    decreases |buf| - idx
  {
    if idx + 2 < |buf| {
      if buf[idx] != CR {
        FoldedOn(buf, idx, idx + 1);
        BadFrom(buf, idx + 1);
      } else if buf[idx + 1] != NL {
        assert BadCr(buf, idx);
      } else if IsLws(buf[idx + 2]) {
        FoldedOn(buf, idx, idx + 3);
        BadFrom(buf, idx + 3);
      }
    }
  }

  lemma {:induction false} BadIsFound(buf: seq<byte>, idx: nat, i: nat)
    requires 1 <= idx <= i < |buf| && BadCr(buf, i)
    ensures HeaderEndFrom(buf, idx).Bad?
    decreases i - idx
  {
    if buf[idx] != CR {
      BadIsFound(buf, idx + 1, i);
    } else if idx < i {
      assert Folded(buf, i, idx);
      BadIsFound(buf, idx + 3, i);
    }
  }

  /** The scanner refuses exactly the lines with such a CR. */
  lemma LinesRefused(buf: seq<byte>)
    ensures HeaderEnd(buf).Bad? <==> exists i :: 0 <= i < |buf| && BadCr(buf, i)
  {
    if i :| 0 <= i < |buf| && BadCr(buf, i) {
      if i > 0 {
        BadIsFound(buf, 1, i);
      }
    }
    if buf != [] && buf[0] != CR {
      BadFrom(buf, 1);
    } else if buf != [] {
      assert BadCr(buf, 0);
    }
  }

  // ---------- where the parser stops ----------

  predicate LoneNl(buf: seq<byte>, i: nat) {
    i < |buf| && buf[i] == NL && (i == 0 || buf[i - 1] != CR)
  }

  /** No NL without a CR before it. */
  predicate NoLoneNl(buf: seq<byte>, e: nat) {
    forall i :: 0 <= i < e ==> !LoneNl(buf, i)
  }

  /** The parser's position: not beyond the end, not within a line end, and no lone NL passed. */
  predicate At(buf: seq<byte>, e: nat, idx: nat)
    requires Line(buf, e)
  {
    0 < idx <= e - 2 && buf[idx - 1] != CR && NoLoneNl(buf, idx)
  }

  /** A run of a class without CR and NL keeps the position. */
  lemma RunStays(buf: seq<byte>, e: nat, idx: nat, p: byte -> bool)
    requires Line(buf, e) && At(buf, e, idx) && !p(CR) && !p(NL)
    ensures var end := SkipFrom(buf[idx..], 0, p);
            At(buf, e, idx + end) && RunEnd(buf[idx..], p) == Found(end)
  {
    var end := SkipFrom(buf[idx..], 0, p);
    assert buf[idx..][e - 2 - idx] == CR;
    forall i | idx <= i < idx + end ensures !LoneNl(buf, i) && buf[i] != CR {
      assert p(buf[idx..][i - idx]);
    }
  }

  lemma OneFoldStays(buf: seq<byte>, e: nat, idx: nat)
    requires Line(buf, e) && At(buf, e, idx)
    ensures var r := LwsEnd(buf[idx..]);
            && r.Found? && At(buf, e, idx + r.end)
            && (r.end == 0 ==> idx == e - 2 || (buf[idx] != CR && !IsLws(buf[idx])))
  {
    var s := buf[idx..];
    if buf[idx] == CR {
      if idx < e - 2 {
        assert Folded(buf, e - 2, idx);
        assert s[1] == NL && IsLws(s[2]);
        assert At(buf, e, idx + 3);
        RunStays(buf, e, idx + 3, LwsClass());
        SkipShift(s, 3, LwsClass());
        assert s[3..] == buf[idx + 3..];
      }
    } else {
      RunStays(buf, e, idx, LwsClass());
    }
  }

  lemma {:induction false} SkipShift(s: seq<byte>, k: nat, p: byte -> bool)
    requires k <= |s|
    ensures SkipFrom(s, k, p) == k + SkipFrom(s[k..], 0, p)
    decreases |s| - k
  {
    var a, b := SkipFrom(s, k, p), SkipFrom(s[k..], 0, p);
    assert a < |s| ==> s[k..][a - k] == s[a];
    assert k + b < |s| ==> s[k..][b] == s[k + b];
  }

  /** Where folds may end: at the line end or at something that is neither space nor fold. */
  predicate AfterFolds(buf: seq<byte>, e: nat, idx: nat)
    requires Line(buf, e)
  {
    At(buf, e, idx) && (idx == e - 2 || (buf[idx] != CR && !IsLws(buf[idx])))
  }

  lemma {:induction false} FoldsFrom(buf: seq<byte>, e: nat, idx: nat)
    requires Line(buf, e) && At(buf, e, idx)
    ensures var r := MultiLwsFrom(buf, idx); r.Found? && AfterFolds(buf, e, r.end)
    decreases e - idx
  {
    OneFoldStays(buf, e, idx);
    var end := LwsEnd(buf[idx..]).end;
    if end > 0 {
      FoldsFrom(buf, e, idx + end);
    }
  }

  lemma FoldsStay(buf: seq<byte>, e: nat, idx: nat)
    requires Line(buf, e) && At(buf, e, idx)
    ensures var r := MultiLwsEnd(buf[idx..]); r.Found? && AfterFolds(buf, e, idx + r.end)
  {
    FoldsFrom(buf, e, idx);
    RepeatShift(LwsEnd, buf, idx, 0);
  }

  /** One turn keeps the position, and stops only at the end or at a lone NL. */
  lemma NextStays(a: Accept, buf: seq<byte>, e: nat, idx: nat)
    requires Line(buf, e) && At(buf, e, idx)
    ensures match Next(a, buf, idx)
            case Text(next) => At(buf, e, next)
            case Folds(next) => At(buf, e, next)
            case LineStop => idx == e - 2 || LoneNl(buf, idx)
            case Wrong => true
  {
    if IsText(buf[idx]) {
      RunStays(buf, e, idx, TextClass());
    } else if IsLwsFull(buf[idx]) {
      FoldsStay(buf, e, idx);
    }
  }

  lemma {:induction false} ValuesStop(a: Accept, buf: seq<byte>, e: nat, idx: nat, name: seq<byte>,
                                      values: seq<seq<byte>>)
    requires Line(buf, e) && At(buf, e, idx)
    ensures var r := ParseValues(a, buf, idx, name, values);
            r.Some? ==> r.value.stop <= e - 2 && (r.value.stop == e - 2 <==> NoLoneNl(buf, e))
    decreases |buf| - idx
  {
    NextStays(a, buf, e, idx);
    match Next(a, buf, idx)
    case Text(next) => ValuesStop(a, buf, e, next, name, values + [buf[idx..next]]);
    case Folds(next) => ValuesStop(a, buf, e, next, name, values);
    case _ =>
  }

  lemma NameStays(buf: seq<byte>, e: nat)
    requires Line(buf, e) && IsToken(buf[0])
    ensures NameEnd(buf) <= e - 2 && (buf[NameEnd(buf)] == COLON ==> At(buf, e, NameEnd(buf) + 1))
  {
    var n := NameEnd(buf);
    assert n <= e - 2;
    forall i | 0 <= i < n ensures !LoneNl(buf, i) {
      assert TokenClass()(buf[i]);
    }
  }

  lemma LwsLocal(buf: seq<byte>, e: nat, idx: nat, ext: seq<byte>)
    requires Line(buf, e) && At(buf, e, idx)
    ensures var r := MultiLwsEnd(buf[idx..]);
            r.Found? && At(buf, e, idx + r.end) && MultiLwsEnd((buf + ext)[idx..]) == r
  {
    FoldsStay(buf, e, idx);
    assert (buf + ext)[idx..] == buf[idx..] + ext;
    MultiLwsOnline(buf[idx..], ext);
  }

  lemma HeadLocal(a: Accept, buf: seq<byte>, e: nat, ext: seq<byte>)
    requires Line(buf, e)
    ensures ParseName(a, buf + ext) == ParseName(a, buf)
  {
    if IsToken(buf[0]) {
      NameStays(buf, e);
      var n := NameEnd(buf);
      SkipOnline(buf, 0, TokenClass(), ext);
      assert (buf + ext)[..n] == buf[..n];
      if buf[n] == COLON {
        LwsLocal(buf, e, n + 1, ext);
      }
    }
  }

  lemma HeadStays(a: Accept, buf: seq<byte>, e: nat)
    requires Line(buf, e) && ParseName(a, buf).Some?
    ensures At(buf, e, ParseName(a, buf).value.1)
  {
    NameStays(buf, e);
    FoldsStay(buf, e, NameEnd(buf) + 1);
  }

  /** A line the scanner finds and the parser accepts: the parser stopped right before the line end the scanner saw,
      over any number of folds, exactly when the line holds no NL without a CR; otherwise it stopped earlier. */
  lemma StopsAtLineEnd(a: Accept, buf: seq<byte>)
    requires HeaderEnd(buf).Found? && ParseHeader(a, buf).Some?
    ensures var e, stop := HeaderEnd(buf).end, ParseHeader(a, buf).value.stop;
            3 <= e < |buf| && stop <= e - 2 && (stop == e - 2 <==> NoLoneNl(buf, e))
  {
    var e := HeaderEnd(buf).end;
    FoundLine(buf);
    HeadStays(a, buf, e);
    var (name, idx) := ParseName(a, buf).value;
    ValuesStop(a, buf, e, idx, name, []);
  }

  // ---------- the parser looks at this line only ----------

  lemma NextLocal(a: Accept, buf: seq<byte>, e: nat, idx: nat, ext: seq<byte>)
    requires Line(buf, e) && At(buf, e, idx)
    ensures Next(a, buf + ext, idx) == Next(a, buf, idx)
  {
    assert (buf + ext)[idx..] == buf[idx..] + ext;
    if IsText(buf[idx]) {
      RunStays(buf, e, idx, TextClass());
      SkipOnline(buf[idx..], 0, TextClass(), ext);
      var end := SkipFrom(buf[idx..], 0, TextClass());
      assert (buf + ext)[idx..idx + end] == buf[idx..idx + end];
    } else if IsLwsFull(buf[idx]) {
      FoldsStay(buf, e, idx);
      MultiLwsOnline(buf[idx..], ext);
    }
  }

  lemma {:induction false} ValuesLocal(a: Accept, buf: seq<byte>, e: nat, idx: nat, name: seq<byte>,
                                       values: seq<seq<byte>>, ext: seq<byte>)
    requires Line(buf, e) && At(buf, e, idx)
    ensures ParseValues(a, buf + ext, idx, name, values) == ParseValues(a, buf, idx, name, values)
    decreases |buf| - idx
  {
    NextLocal(a, buf, e, idx, ext);
    NextStays(a, buf, e, idx);
    match Next(a, buf, idx)
    case Text(next) =>
      assert (buf + ext)[idx..next] == buf[idx..next];
      ValuesLocal(a, buf, e, next, name, values + [buf[idx..next]], ext);
    case Folds(next) => ValuesLocal(a, buf, e, next, name, values, ext);
    case _ =>
  }

  /** Once the scanner has its answer, what follows the line changes nothing for the parser either. */
  lemma ParseLocal(a: Accept, buf: seq<byte>, ext: seq<byte>)
    requires HeaderEnd(buf).Found?
    ensures ParseHeader(a, buf + ext) == ParseHeader(a, buf)
  {
    var e := HeaderEnd(buf).end;
    FoundLine(buf);
    HeadLocal(a, buf, e, ext);
    if ParseName(a, buf).Some? {
      HeadStays(a, buf, e);
      var (name, idx) := ParseName(a, buf).value;
      ValuesLocal(a, buf, e, idx, name, [], ext);
    }
  }
}
