/** src/util/path.rs: path templates such as "/home/{user}/folder{id}". Values stay strings. */
module PathParser {
  import opened Basics
  import opened Seqs

  datatype Element = Fixed(text: string) | Variable(name: string)

  datatype Parser = Parser(elements: seq<Element>, slashes: int)

  datatype Error =
    | Internal | EmptyPath | NoSlashAtTheBeginning | InvalidSlash | UnexpectedEndOfPath | InvalidNumberOfSlashes

  function Text(e: Element): string {
    match e
    case Fixed(text) => text
    case Variable(name) => name
  }

  // ---------- normalizing ----------

  function IsSlash(c: char): int {
    if c == '/' then 1 else 0
  }

  function Slashes(s: string): int {
    Sum(s, IsSlash)
  }

  lemma SlashesAppend(s: string, t: string)
    ensures Slashes(s + t) == Slashes(s) + Slashes(t)
  {
    SumAppend(s, t, IsSlash);
  }

  /** The path without one slash at its end. */
  function Stripped(path: string): string {
    if path != [] && path[|path| - 1] == '/' then path[..|path| - 1] else path
  }

  function Normalize(path: string): Result<(string, int), Error> {
    if path == [] then Err(EmptyPath)
    else if path[0] != '/' then Err(NoSlashAtTheBeginning)
    else Ok((Stripped(path), Slashes(Stripped(path))))
  }

  method NormalizeAndCountSlashes(path: string) returns (r: Result<(string, int), Error>)
    ensures r == Normalize(path)
  {
    if path == [] {
      return Err(EmptyPath);
    }
    if path[0] != '/' {
      return Err(NoSlashAtTheBeginning);
    }
    var stripped := if path[|path| - 1] == '/' then path[..|path| - 1] else path;
    var slashes := 0;
    for i := 0 to |stripped|
      invariant slashes == Slashes(stripped[..i])
    {
      assert stripped[..i + 1] == stripped[..i] + [stripped[i]];
      SumPush(stripped[..i], stripped[i], IsSlash);
      if stripped[i] == '/' {
        slashes := slashes + 1;
      }
    }
    assert stripped[..|stripped|] == stripped;
    return Ok((stripped, slashes));
  }

  // ---------- templates ----------

  predicate Taken(elements: seq<Element>, name: string) {
    exists i :: 0 <= i < |elements| && Text(elements[i]) == name
  }

  /** The variables of the loop: `element` is the text or name being collected. */
  datatype Scanner = Scanner(elements: seq<Element>, element: string, fixed: bool)

  function Turn(v: Scanner, ch: char): Option<Scanner> {
    if v.fixed then
      if ch == '}' then None
      else if ch == '{' then
        if v.element == [] then None else Some(Scanner(v.elements + [Fixed(v.element)], [], false))
      else Some(v.(element := v.element + [ch]))
    else
      if ch == '{' || ch == '/' then None
      else if ch == '}' then
        if v.element == [] || Taken(v.elements, v.element) then None
        else Some(Scanner(v.elements + [Variable(v.element)], [], true))
      else Some(v.(element := v.element + [ch]))
  }

  function Scan(s: string, v: Scanner): Option<seq<Element>>
    decreases |s|
  {
    if s == [] then
      if !v.fixed then None else Some(if v.element == [] then v.elements else v.elements + [Fixed(v.element)])
    else
      var w := Turn(v, s[0]);
      if w.None? then None else Scan(s[1..], w.value)
  }

  const START: Scanner := Scanner([], [], true)

  function FromString(s: string): Option<Parser> {
    var n := Normalize(s);
    if n.Err? then None
    else
      var elements := Scan(n.value.0, START);
      if elements.Some? then Some(Parser(elements.value, n.value.1)) else None
  }

  lemma Parsed(s: string)
    requires FromString(s).Some?
    ensures Scan(Stripped(s), START) == Some(FromString(s).value.elements)
    ensures FromString(s).value.slashes == Slashes(Stripped(s)) && s != [] && s[0] == '/'
  {
  }

  method IsTaken(elements: seq<Element>, name: string) returns (taken: bool)
    ensures taken <==> Taken(elements, name)
  {
    for i := 0 to |elements|
      invariant forall j :: 0 <= j < i ==> Text(elements[j]) != name
    {
      if Text(elements[i]) == name {
        return true;
      }
    }
    return false;
  }

  /** `PathParser::from_str`. */
  method ParseTemplate(s: string) returns (r: Option<Parser>)
    ensures r == FromString(s)
  {
    var n := NormalizeAndCountSlashes(s);
    if n.Err? {
      return None;
    }
    var (path, slashes) := n.value;
    var elements, element, fixed := [], [], true;
    for i := 0 to |path|
      invariant Scan(path[i..], Scanner(elements, element, fixed)) == Scan(path, START)
    {
      var ch := path[i];
      assert path[i..][1..] == path[i + 1..];
      if fixed {
        if ch == '}' {
          return None;
        }
        if ch == '{' {
          if element == [] {
            return None;
          }
          elements, element, fixed := elements + [Fixed(element)], [], false;
          continue;
        }
      } else {
        if ch == '{' || ch == '/' {
          return None;
        }
        if ch == '}' {
          var taken := IsTaken(elements, element);
          if element == [] || taken {
            return None;
          }
          elements, element, fixed := elements + [Variable(element)], [], true;
          continue;
        }
      }
      element := element + [ch];
    }
    if !fixed {
      return None;
    }
    if element != [] {
      elements := elements + [Fixed(element)];
    }
    return Some(Parser(elements, slashes));
  }

  // ---------- what a template is ----------

  function Shown(e: Element): string {
    match e
    case Fixed(text) => text
    case Variable(name) => "{" + name + "}"
  }

  /** The template of the elements. */
  function Render(elements: seq<Element>): string {
    if elements == [] then [] else Render(elements[..|elements| - 1]) + Shown(elements[|elements| - 1])
  }

  predicate PlainText(s: string) {
    s != [] && '{' !in s && '}' !in s
  }

  /** Fixed and variable elements alternate; a name has no slash and differs from all texts and names before it. */
  predicate GoodAt(elements: seq<Element>, i: nat)
    requires i < |elements|
  {
    && PlainText(Text(elements[i])) && (elements[i].Fixed? <==> i % 2 == 0)
    && (elements[i].Variable? ==> '/' !in elements[i].name && !Taken(elements[..i], elements[i].name))
  }

  predicate Good(elements: seq<Element>) {
    forall i :: 0 <= i < |elements| ==> GoodAt(elements, i)
  }

  lemma GoodPush(elements: seq<Element>, e: Element)
    requires Good(elements) && PlainText(Text(e)) && (e.Fixed? <==> |elements| % 2 == 0)
    requires e.Variable? ==> '/' !in e.name && !Taken(elements, e.name)
    ensures Good(elements + [e])
  {
    var all := elements + [e];
    assert all[..|elements|] == elements;
    forall i | 0 <= i < |all| ensures GoodAt(all, i) {
      if i < |elements| {
        assert GoodAt(elements, i) && all[..i] == elements[..i];
      }
    }
  }

  lemma RenderPush(elements: seq<Element>, e: Element)
    ensures Render(elements + [e]) == Render(elements) + Shown(e)
  {
    var all := elements + [e];
    assert all[..|all| - 1] == elements;
  }

  /** What the scanner has seen, as it stood in the template. */
  function Seen(v: Scanner): string {
    Render(v.elements) + (if v.fixed then v.element else "{" + v.element)
  }

  predicate Sound(v: Scanner) {
    && Good(v.elements) && (v.fixed <==> |v.elements| % 2 == 0)
    && '{' !in v.element && '}' !in v.element && (!v.fixed ==> '/' !in v.element)
  }

  lemma TurnSound(v: Scanner, ch: char)
    requires Sound(v) && Turn(v, ch).Some?
    ensures Sound(Turn(v, ch).value)
  {
    if v.fixed && ch == '{' {
      GoodPush(v.elements, Fixed(v.element));
    } else if !v.fixed && ch == '}' {
      GoodPush(v.elements, Variable(v.element));
    }
  }

  lemma TurnSeen(v: Scanner, ch: char)
    requires Turn(v, ch).Some?
    ensures Seen(Turn(v, ch).value) == Seen(v) + [ch]
  {
    var w := Turn(v, ch).value;
    if v.fixed && ch == '{' {
      RenderPush(v.elements, Fixed(v.element));
      assert Seen(w) == Render(w.elements) + "{";
    } else if !v.fixed && ch == '}' {
      RenderPush(v.elements, Variable(v.element));
      Regroup(Render(v.elements), "{" + v.element, "}");
      assert Seen(w) == Render(w.elements);
    } else if v.fixed {
      Regroup(Render(v.elements), v.element, [ch]);
    } else {
      Regroup(Render(v.elements), "{" + v.element, [ch]);
      assert "{" + v.element + [ch] == "{" + (v.element + [ch]);
    }
  }

  lemma {:induction false} ScanGood(s: string, v: Scanner)
    requires Sound(v)
    ensures Scan(s, v).Some? ==> Good(Scan(s, v).value)
    decreases |s|
  {
    if s == [] {
      if v.fixed && v.element != [] {
        GoodPush(v.elements, Fixed(v.element));
      }
    } else if Turn(v, s[0]).Some? {
      TurnSound(v, s[0]);
      ScanGood(s[1..], Turn(v, s[0]).value);
    }
  }

  /** What is scanned shows what was scanned, character by character. */
  lemma {:induction false} ScanSeen(s: string, v: Scanner)
    ensures Scan(s, v).Some? ==> Render(Scan(s, v).value) == Seen(v) + s
    decreases |s|
  {
    if s == [] {
      if v.fixed {
        RenderPush(v.elements, Fixed(v.element));
        assert Seen(v) + s == Render(v.elements) + v.element;
      }
    } else if Turn(v, s[0]).Some? {
      var w := Turn(v, s[0]).value;
      TurnSeen(v, s[0]);
      ScanSeen(s[1..], w);
      Regroup(Seen(v), [s[0]], s[1..]);
      assert s == [s[0]] + s[1..];
    }
  }

  lemma ScannedShows(t: string, elements: seq<Element>)
    requires Scan(t, START) == Some(elements)
    ensures Good(elements) && Render(elements) == t
  {
    ScanGood(t, START);
    ScanSeen(t, START);
    assert Seen(START) == [] && [] + t == t;
  }

  /** The elements of a parsed template are good, and show the template without its last slash. */
  lemma ParsedShows(s: string)
    requires FromString(s).Some?
    ensures Good(FromString(s).value.elements)
    ensures Render(FromString(s).value.elements) == Stripped(s)
    ensures FromString(s).value.slashes == Slashes(Stripped(s))
  {
    Parsed(s);
    ScannedShows(Stripped(s), FromString(s).value.elements);
  }

  /** Rendering the elements of a parser and parsing again gives an equal parser. */
  lemma RenderReparses(s: string)
    requires FromString(s).Some?
    ensures FromString(Render(FromString(s).value.elements) + "/") == FromString(s)
  {
    ParsedShows(s);
    var shown := Stripped(s) + "/";
    assert shown[0] == '/';
    assert Stripped(shown) == Stripped(s);
  }

  // ---------- every good template is parsed ----------

  /** Plain characters are collected. */
  lemma {:induction false} ScanPlain(text: string, rest: string, v: Scanner)
    requires '{' !in text && '}' !in text && (v.fixed || '/' !in text)
    ensures Scan(text + rest, v) == Scan(rest, v.(element := v.element + text))
    decreases |text|
  {
    if text == [] {
      assert text + rest == rest && v.element + text == v.element;
    } else {
      assert text[0] in text;
      var w := v.(element := v.element + [text[0]]);
      assert (text + rest)[0] == text[0] && (text + rest)[1..] == text[1..] + rest;
      assert Turn(v, text[0]) == Some(w);
      ScanPlain(text[1..], rest, w);
      assert v.element + [text[0]] + text[1..] == v.element + text;
    }
  }

  lemma ScanVariable(name: string, rest: string, done: seq<Element>)
    requires PlainText(name) && '/' !in name && !Taken(done, name)
    ensures Scan(name + "}" + rest, Scanner(done, [], false)) == Scan(rest, Scanner(done + [Variable(name)], [], true))
  {
    var s := name + "}" + rest;
    assert s == name + ("}" + rest);
    ScanPlain(name, "}" + rest, Scanner(done, [], false));
    var v := Scanner(done, name, false);
    assert [] + name == name;
    assert ("}" + rest)[0] == '}' && ("}" + rest)[1..] == rest;
  }

  lemma ScanFixed(text: string, rest: string, done: seq<Element>)
    requires PlainText(text)
    ensures Scan(text + ("{" + rest), Scanner(done, [], true)) == Scan(rest, Scanner(done + [Fixed(text)], [], false))
    ensures Scan(text, Scanner(done, [], true)) == Some(done + [Fixed(text)])
  {
    assert [] + text == text;
    ScanPlain(text, "{" + rest, Scanner(done, [], true));
    assert ("{" + rest)[0] == '{' && ("{" + rest)[1..] == rest;
    ScanPlain(text, [], Scanner(done, [], true));
    assert text + [] == text;
  }

  /** What `Render` shows of the elements from `i` on. */
  function RenderFrom(elements: seq<Element>, i: nat): string
    requires i <= |elements|
    decreases |elements| - i
  {
    if i == |elements| then [] else Shown(elements[i]) + RenderFrom(elements, i + 1)
  }

  lemma RenderNext(elements: seq<Element>, i: nat)
    requires i < |elements|
    ensures Render(elements[..i + 1]) == Render(elements[..i]) + Shown(elements[i])
  {
    assert elements[..i + 1] == elements[..i] + [elements[i]];
    RenderPush(elements[..i], elements[i]);
  }

  lemma {:induction false} RenderRest(elements: seq<Element>, i: nat, shown: string)
    requires i <= |elements| && shown == Render(elements[..i])
    ensures Render(elements) == shown + RenderFrom(elements, i)
    decreases |elements| - i
  {
    if i == |elements| {
      assert elements[..i] == elements && shown + [] == shown;
    } else {
      RenderNext(elements, i);
      RenderRest(elements, i + 1, shown + Shown(elements[i]));
      Regroup(shown, Shown(elements[i]), RenderFrom(elements, i + 1));
    }
  }

  lemma RenderPair(elements: seq<Element>, i: nat)
    requires i + 1 < |elements| && elements[i].Fixed? && elements[i + 1].Variable?
    ensures RenderFrom(elements, i)
         == elements[i].text + ("{" + (elements[i + 1].name + "}" + RenderFrom(elements, i + 2)))
  {
    var text, name, rest := elements[i].text, elements[i + 1].name, RenderFrom(elements, i + 2);
    assert RenderFrom(elements, i + 1) == "{" + name + "}" + rest == "{" + (name + "}" + rest);
  }

  /** One text and one variable. */
  lemma ScanPair(elements: seq<Element>, i: nat)
    requires Good(elements) && i + 1 < |elements| && i % 2 == 0
    ensures Scan(RenderFrom(elements, i), Scanner(elements[..i], [], true))
         == Scan(RenderFrom(elements, i + 2), Scanner(elements[..i + 2], [], true))
  {
    assert GoodAt(elements, i) && GoodAt(elements, i + 1);
    var text, name, rest := elements[i].text, elements[i + 1].name, RenderFrom(elements, i + 2);
    assert elements[..i + 1] == elements[..i] + [Fixed(text)];
    assert elements[..i + 2] == elements[..i + 1] + [Variable(name)];
    ScanFixed(text, name + "}" + rest, elements[..i]);
    ScanVariable(name, rest, elements[..i + 1]);
    RenderPair(elements, i);
  }

  lemma ScanLast(elements: seq<Element>, i: nat)
    requires Good(elements) && i + 1 == |elements| && i % 2 == 0
    ensures Scan(RenderFrom(elements, i), Scanner(elements[..i], [], true)) == Some(elements)
  {
    assert GoodAt(elements, i);
    var text := elements[i].text;
    assert elements == elements[..i] + [Fixed(text)];
    assert RenderFrom(elements, i + 1) == [];
    assert RenderFrom(elements, i) == text;
    ScanFixed(text, [], elements[..i]);
  }

  lemma {:induction false} ScanRendered(elements: seq<Element>, i: nat)
    requires Good(elements) && i <= |elements| && i % 2 == 0
    ensures Scan(RenderFrom(elements, i), Scanner(elements[..i], [], true)) == Some(elements)
    decreases |elements| - i
  {
    if i == |elements| {
      assert elements[..i] == elements;
    } else if i + 1 == |elements| {
      ScanLast(elements, i);
    } else {
      assert (i + 2) % 2 == 0;
      ScanRendered(elements, i + 2);
      ScanPair(elements, i);
    }
  }

  /** The templates are exactly the renderings of good elements, with or without a slash behind, that begin with a
      slash; and each stands for just these elements. */
  lemma TemplatesAreRenderings(s: string)
    ensures FromString(s).Some? <==>
              s != [] && s[0] == '/' && exists elements :: Good(elements) && Render(elements) == Stripped(s)
    ensures forall elements :: s != [] && s[0] == '/' && Good(elements) && Render(elements) == Stripped(s)
              ==> FromString(s) == Some(Parser(elements, Slashes(Stripped(s))))
  {
    if FromString(s).Some? {
      ParsedShows(s);
    }
    forall elements | s != [] && s[0] == '/' && Good(elements) && Render(elements) == Stripped(s)
      ensures FromString(s) == Some(Parser(elements, Slashes(Stripped(s))))
    {
      assert elements[..0] == [] && [] + RenderFrom(elements, 0) == RenderFrom(elements, 0);
      RenderRest(elements, 0, []);
      ScanRendered(elements, 0);
    }
  }

  // ---------- matching a path ----------

  /** The value of a variable up to the first character of the next element. */
  function Until(path: string, search: char): Result<string, Error> {
    if path == [] then Err(UnexpectedEndOfPath)
    else if path[0] == search then Ok([])
    else if path[0] == '/' then Err(InvalidSlash)
    else
      var r := Until(path[1..], search);
      if r.Ok? then Ok([path[0]] + r.value) else r
  }

  /** The value of the last variable. */
  function UntilSlash(path: string): string {
    if path == [] || path[0] == '/' then [] else [path[0]] + UntilSlash(path[1..])
  }

  datatype Binding = Binding(name: string, value: string)

  function Value(elements: seq<Element>, i: nat, path: string): Result<string, Error>
    requires i < |elements|
  {
    if i + 1 < |elements| then
      var next := Text(elements[i + 1]);
      if next == [] then Err(Internal) else Until(path, next[0])
    else Ok(UntilSlash(path))
  }

  /** The loop over the elements from `i` on: what it binds, in order. */
  function Match(elements: seq<Element>, i: nat, path: string): Result<seq<Binding>, Error>
    requires i <= |elements|
    decreases |elements| - i
  {
    if i == |elements| || path == [] then Ok([])
    else
      match elements[i]
      case Fixed(prefix) => if prefix <= path then Match(elements, i + 1, path[|prefix|..]) else Err(Internal)
      case Variable(name) =>
        var value := Value(elements, i, path);
        if value.Err? then Err(value.error)
        else if !(value.value <= path) then Err(Internal)
        else
          var rest := Match(elements, i + 1, path[|value.value|..]);
          if rest.Ok? then Ok([Binding(name, value.value)] + rest.value) else rest
  }

  /** The value before a text ends with the first of two characters: that of the text, or a slash, which is an error. */
  lemma {:induction false} UntilFirst(path: string, search: char)
    ensures match Until(path, search)
            case Ok(v) => v + [search] <= path && search !in v && '/' !in v
            case Err(InvalidSlash) => search != '/' && exists v :: v + ['/'] <= path && search !in v && '/' !in v
            case Err(UnexpectedEndOfPath) => search !in path && '/' !in path
            case Err(_) => false
  {
    if path != [] && path[0] != search && path[0] != '/' {
      UntilFirst(path[1..], search);
      match Until(path[1..], search)
      case Ok(v) => assert path[..|v| + 2] == [path[0]] + path[1..][..|v| + 1];
      case Err(InvalidSlash) =>
        var v :| v + ['/'] <= path[1..] && search !in v && '/' !in v;
        assert ([path[0]] + v) + ['/'] <= path;
      case _ =>
    } else if path != [] && path[0] != search {
      assert [] + ['/'] <= path;
    }
  }

  /** The last value goes to the next slash or to the end. */
  lemma {:induction false} UntilSlashFirst(path: string)
    ensures var v := UntilSlash(path); '/' !in v && v <= path && (v == path || v + ['/'] <= path)
  {
    if path != [] && path[0] != '/' {
      UntilSlashFirst(path[1..]);
    }
  }

  /** No value has a slash in it. */
  lemma {:induction false} ValuesHaveNoSlash(elements: seq<Element>, i: nat, path: string)
    requires i <= |elements|
    ensures Match(elements, i, path).Ok? ==> forall b :: b in Match(elements, i, path).value ==> '/' !in b.value
    decreases |elements| - i
  {
    if i < |elements| && path != [] {
      match elements[i]
      case Fixed(prefix) =>
        if prefix <= path {
          ValuesHaveNoSlash(elements, i + 1, path[|prefix|..]);
        }
      case Variable(name) =>
        var value := Value(elements, i, path);
        if i + 1 < |elements| && Text(elements[i + 1]) != [] {
          UntilFirst(path, Text(elements[i + 1])[0]);
        }
        UntilSlashFirst(path);
        if value.Ok? && value.value <= path {
          ValuesHaveNoSlash(elements, i + 1, path[|value.value|..]);
        }
    }
  }

  /** `map.insert` for each. */
  function Insert(m: map<string, string>, bindings: seq<Binding>): map<string, string>
    decreases |bindings|
  {
    if bindings == [] then m else Insert(m[bindings[0].name := bindings[0].value], bindings[1..])
  }

  function Parse(p: Parser, path: string): Result<map<string, string>, Error> {
    var n := Normalize(path);
    if n.Err? then Err(n.error)
    else if p.slashes > n.value.1 then Err(InvalidNumberOfSlashes)
    else
      var bindings := Match(p.elements, 0, n.value.0);
      if bindings.Ok? then Ok(Insert(map[], bindings.value)) else Err(bindings.error)
  }

  function Behind(prefix: string, r: Result<string, Error>): Result<string, Error> {
    if r.Ok? then Ok(prefix + r.value) else r
  }

  /** The two loops over the characters of the path. */
  method FindValue(elements: seq<Element>, i: nat, path: string) returns (r: Result<string, Error>)
    requires i < |elements|
    ensures r == Value(elements, i, path)
  {
    var prefix := [];
    if i + 1 < |elements| {
      var next := Text(elements[i + 1]);
      if next == [] {
        return Err(Internal);
      }
      var search := next[0];
      assert path[0..] == path;
      assert Until(path, search).Ok? ==> [] + Until(path, search).value == Until(path, search).value;
      for k := 0 to |path|
        invariant Until(path, search) == Behind(prefix, Until(path[k..], search))
      {
        assert path[k..][1..] == path[k + 1..] && prefix + [] == prefix;
        ghost var u := Until(path[k + 1..], search);
        assert u.Ok? ==> prefix + ([path[k]] + u.value) == prefix + [path[k]] + u.value;
        if path[k] == search {
          return Ok(prefix);
        }
        if path[k] == '/' {
          return Err(InvalidSlash);
        }
        prefix := prefix + [path[k]];
      }
      return Err(UnexpectedEndOfPath);
    }
    for k := 0 to |path|
      invariant UntilSlash(path) == prefix + UntilSlash(path[k..])
    {
      assert path[k..][1..] == path[k + 1..] && prefix + [] == prefix;
      if path[k] == '/' {
        return Ok(prefix);
      }
      prefix := prefix + [path[k]];
    }
    return Ok(prefix);
  }

  /** `PathParser::parse`, up to the deserialization of the map. */
  method ParsePath(p: Parser, path: string) returns (r: Result<map<string, string>, Error>)
    ensures r == Parse(p, path)
  {
    var n := NormalizeAndCountSlashes(path);
    if n.Err? {
      return Err(n.error);
    }
    var (rest, slashes) := n.value;
    if p.slashes > slashes {
      return Err(InvalidNumberOfSlashes);
    }
    var m := map[];
    ghost var all := Match(p.elements, 0, rest);
    for i := 0 to |p.elements|
      invariant var b := Match(p.elements, i, rest);
                if b.Ok? then all.Ok? && Insert(map[], all.value) == Insert(m, b.value) else all == b
    {
      if rest == [] {
        break;
      }
      match p.elements[i] {
        case Fixed(prefix) =>
          if !(prefix <= rest) {
            return Err(Internal);
          }
          rest := rest[|prefix|..];
        case Variable(name) =>
          var value := FindValue(p.elements, i, rest);
          if value.Err? {
            return Err(value.error);
          }
          if !(value.value <= rest) {
            return Err(Internal);
          }
          rest := rest[|value.value|..];
          m := m[name := value.value];
      }
    }
    return Ok(m);
  }

  // ---------- what is refused ----------

  lemma {:induction false} SlashesCounted(s: string)
    ensures Slashes(s) == multiset(s)['/']
  {
    if s != [] {
      assert s == [s[0]] + s[1..];
      SlashesCounted(s[1..]);
    }
  }

  /** A path is refused before it is looked at if it is empty, does not begin with a slash, or has fewer slashes than
      the template, a slash at the end of either not counted. */
  lemma RefusedPaths(template: string, path: string)
    requires FromString(template).Some?
    ensures var r := Parse(FromString(template).value, path);
            if path == [] then r == Err(EmptyPath)
            else if path[0] != '/' then r == Err(NoSlashAtTheBeginning)
            else multiset(Stripped(path))['/'] < multiset(Stripped(template))['/'] ==> r == Err(InvalidNumberOfSlashes)
    ensures Parse(FromString(template).value, path).Ok? ==>
              multiset(Stripped(path))['/'] >= multiset(Stripped(template))['/']
  {
    Parsed(template);
    SlashesCounted(Stripped(template));
    SlashesCounted(Stripped(path));
  }

  lemma {:induction false} InsertedValues(m: map<string, string>, bindings: seq<Binding>)
    requires forall name :: name in m ==> '/' !in m[name]
    requires forall b :: b in bindings ==> '/' !in b.value
    ensures var r := Insert(m, bindings); forall name :: name in r ==> '/' !in r[name]
    decreases |bindings|
  {
    if bindings != [] {
      assert bindings[0] in bindings;
      var n := m[bindings[0].name := bindings[0].value];
      InsertedValues(n, bindings[1..]);
      assert Insert(m, bindings) == Insert(n, bindings[1..]);
    }
  }

  /** A value never goes beyond a slash. */
  lemma BoundValues(p: Parser, path: string)
    requires Parse(p, path).Ok?
    ensures var m := Parse(p, path).value; forall name :: name in m ==> '/' !in m[name]
  {
    var rest := Normalize(path).value.0;
    var bindings := Match(p.elements, 0, rest).value;
    ValuesHaveNoSlash(p.elements, 0, rest);
    InsertedValues(map[], bindings);
    assert Parse(p, path).value == Insert(map[], bindings);
  }

  // ---------- parsing an instantiated template ----------

  /** A value for each variable, which are the elements at odd places. */
  predicate Fits(elements: seq<Element>, values: seq<string>) {
    Good(elements) && |values| == |elements| / 2
  }

  function Piece(elements: seq<Element>, values: seq<string>, i: nat): string
    requires |values| == |elements| / 2 && i < |elements|
  {
    if i % 2 == 0 then Text(elements[i]) else values[i / 2]
  }

  /** The template with the values in place of the variables, from `i` on. */
  function Instance(elements: seq<Element>, values: seq<string>, i: nat): string
    requires |values| == |elements| / 2 && i <= |elements|
    decreases |elements| - i
  {
    if i == |elements| then [] else Piece(elements, values, i) + Instance(elements, values, i + 1)
  }

  /** A value has no slash and not the first character of the text behind its variable. */
  predicate Avoids(elements: seq<Element>, i: nat, value: string) {
    '/' !in value && (i + 1 < |elements| && Text(elements[i + 1]) != [] ==> Text(elements[i + 1])[0] !in value)
  }

  predicate AllAvoid(elements: seq<Element>, values: seq<string>) {
    forall k :: 0 <= k < |values| ==> Avoids(elements, 2 * k + 1, values[k])
  }

  /** The bindings of the variables from `i` to before `n`. */
  function Bindings(elements: seq<Element>, values: seq<string>, i: nat, n: nat): seq<Binding>
    requires Fits(elements, values) && i <= n <= |elements|
    decreases n - i
  {
    if i == n then []
    else
      (if i % 2 == 0 then [] else [Binding(Text(elements[i]), values[i / 2])]) + Bindings(elements, values, i + 1, n)
  }

  /** What one turn makes of what the later turns bind. */
  function With(b: Option<Binding>, later: Result<seq<Binding>, Error>): Result<seq<Binding>, Error> {
    if later.Ok? && b.Some? then Ok([b.value] + later.value) else later
  }

  function BindingAt(elements: seq<Element>, values: seq<string>, i: nat): Option<Binding>
    requires |values| == |elements| / 2 && i < |elements|
  {
    if i % 2 == 0 then None else Some(Binding(Text(elements[i]), values[i / 2]))
  }

  lemma BindingsStep(elements: seq<Element>, values: seq<string>, i: nat, n: nat)
    requires Fits(elements, values) && i < n <= |elements|
    ensures Ok(Bindings(elements, values, i, n))
         == With(BindingAt(elements, values, i), Ok(Bindings(elements, values, i + 1, n)))
  {
    assert [] + Bindings(elements, values, i + 1, n) == Bindings(elements, values, i + 1, n);
  }

  /** The template ends with a variable, which gets an empty value, and nothing follows. */
  predicate EmptyEnd(elements: seq<Element>, values: seq<string>, suffix: string)
    requires Fits(elements, values)
  {
    elements != [] && |elements| % 2 == 0 && values[|values| - 1] == [] && suffix == []
  }

  lemma {:induction false} UntilValue(value: string, rest: string, search: char)
    requires search !in value && '/' !in value && rest != [] && rest[0] == search
    ensures Until(value + rest, search) == Ok(value)
  {
    if value == [] {
      assert value + rest == rest;
    } else {
      assert value[0] in value;
      assert (value + rest)[1..] == value[1..] + rest;
      UntilValue(value[1..], rest, search);
      assert value == [value[0]] + value[1..];
    }
  }

  lemma {:induction false} LastValue(value: string, rest: string)
    requires '/' !in value && (rest == [] || rest[0] == '/')
    ensures UntilSlash(value + rest) == value
  {
    if value == [] {
      assert value + rest == rest;
    } else {
      assert value[0] in value;
      assert (value + rest)[1..] == value[1..] + rest;
      LastValue(value[1..], rest);
      assert value == [value[0]] + value[1..];
    }
  }

  /** A text begins with its own first character. */
  lemma TextFirst(elements: seq<Element>, values: seq<string>, i: nat, suffix: string)
    requires |values| == |elements| / 2 && i < |elements| && i % 2 == 0 && Text(elements[i]) != []
    ensures var rest := Instance(elements, values, i) + suffix; rest != [] && rest[0] == Text(elements[i])[0]
  {
    assert Instance(elements, values, i) == Text(elements[i]) + Instance(elements, values, i + 1);
  }

  /** The value of the variable at `i` is found. */
  lemma FindsValue(elements: seq<Element>, values: seq<string>, i: nat, suffix: string)
    requires |values| == |elements| / 2 && i < |elements| && i % 2 == 1
    requires Avoids(elements, i, values[i / 2]) && (i + 1 < |elements| ==> Text(elements[i + 1]) != [])
    requires suffix == [] || suffix[0] == '/'
    ensures var rest := Instance(elements, values, i + 1) + suffix;
            Value(elements, i, values[i / 2] + rest) == Ok(values[i / 2])
  {
    var rest := Instance(elements, values, i + 1) + suffix;
    if i + 1 < |elements| {
      TextFirst(elements, values, i + 1, suffix);
      UntilValue(values[i / 2], rest, Text(elements[i + 1])[0]);
    } else {
      assert rest == suffix;
      LastValue(values[i / 2], rest);
    }
  }

  /** How far the loop gets: a last variable with an empty value at the end of the path is skipped. */
  function Reach(elements: seq<Element>, values: seq<string>, suffix: string): nat
    requires Fits(elements, values)
  {
    if EmptyEnd(elements, values, suffix) then |elements| - 1 else |elements|
  }

  lemma NotAtEnd(elements: seq<Element>, values: seq<string>, i: nat, suffix: string)
    requires Fits(elements, values) && i < Reach(elements, values, suffix)
    ensures Instance(elements, values, i) + suffix != []
  {
    assert GoodAt(elements, i);
    if i % 2 == 0 {
      TextFirst(elements, values, i, suffix);
    } else if i + 1 < |elements| {
      assert GoodAt(elements, i + 1);
      TextFirst(elements, values, i + 1, suffix);
    }
  }

  lemma MatchesText(elements: seq<Element>, i: nat, rest: string)
    requires i < |elements| && elements[i].Fixed? && elements[i].text != []
    ensures Match(elements, i, elements[i].text + rest) == Match(elements, i + 1, rest)
  {
    var path := elements[i].text + rest;
    assert path[|elements[i].text|..] == rest;
  }

  lemma MatchesVariable(elements: seq<Element>, i: nat, value: string, rest: string)
    requires i < |elements| && elements[i].Variable? && value + rest != []
    requires Value(elements, i, value + rest) == Ok(value)
    ensures Match(elements, i, value + rest)
         == With(Some(Binding(Text(elements[i]), value)), Match(elements, i + 1, rest))
  {
    assert (value + rest)[|value|..] == rest;
  }

  /** One turn of the loop takes the piece of its element. */
  lemma MatchesPiece(elements: seq<Element>, values: seq<string>, i: nat, suffix: string)
    requires Fits(elements, values) && AllAvoid(elements, values) && i < Reach(elements, values, suffix)
    requires suffix == [] || suffix[0] == '/'
    ensures var rest := Match(elements, i + 1, Instance(elements, values, i + 1) + suffix);
            Match(elements, i, Instance(elements, values, i) + suffix) == With(BindingAt(elements, values, i), rest)
  {
    assert GoodAt(elements, i);
    NotAtEnd(elements, values, i, suffix);
    var rest := Instance(elements, values, i + 1) + suffix;
    Regroup(Piece(elements, values, i), Instance(elements, values, i + 1), suffix);
    if i % 2 == 0 {
      MatchesText(elements, i, rest);
    } else {
      assert Avoids(elements, 2 * (i / 2) + 1, values[i / 2]);
      assert i + 1 < |elements| ==> GoodAt(elements, i + 1);
      FindsValue(elements, values, i, suffix);
      MatchesVariable(elements, i, values[i / 2], rest);
    }
  }

  lemma MatchesStep(elements: seq<Element>, values: seq<string>, i: nat, n: nat, suffix: string)
    requires Fits(elements, values) && AllAvoid(elements, values) && i < n == Reach(elements, values, suffix)
    requires suffix == [] || suffix[0] == '/'
    requires Match(elements, i + 1, Instance(elements, values, i + 1) + suffix)
          == Ok(Bindings(elements, values, i + 1, n))
    ensures Match(elements, i, Instance(elements, values, i) + suffix) == Ok(Bindings(elements, values, i, n))
  {
    MatchesPiece(elements, values, i, suffix);
    BindingsStep(elements, values, i, n);
  }

  /** The loop binds each variable to its value. */
  lemma {:induction false} MatchesInstance(elements: seq<Element>, values: seq<string>, i: nat, suffix: string)
    requires Fits(elements, values) && AllAvoid(elements, values)
    requires suffix == [] || suffix[0] == '/'
    requires i <= Reach(elements, values, suffix)
    ensures Match(elements, i, Instance(elements, values, i) + suffix)
         == Ok(Bindings(elements, values, i, Reach(elements, values, suffix)))
    decreases |elements| - i
  {
    var n := Reach(elements, values, suffix);
    if i < n {
      MatchesInstance(elements, values, i + 1, suffix);
      MatchesStep(elements, values, i, n, suffix);
    } else {
      MatchesEnd(elements, values, suffix);
    }
  }

  lemma MatchesEnd(elements: seq<Element>, values: seq<string>, suffix: string)
    requires Fits(elements, values)
    ensures var n := Reach(elements, values, suffix);
            Match(elements, n, Instance(elements, values, n) + suffix) == Ok([])
  {
    var n := Reach(elements, values, suffix);
    if n < |elements| {
      assert Instance(elements, values, |elements|) == [];
      assert Instance(elements, values, n) + suffix == [];
    }
  }

  // ---------- the map ----------

  predicate IsName(elements: seq<Element>, n: nat, name: string)
    requires n <= |elements|
  {
    exists j :: 0 <= j < n && elements[j] == Variable(name)
  }

  /** The map holds exactly the variables before `n`, each with its value. */
  ghost predicate Bound(elements: seq<Element>, values: seq<string>, n: nat, m: map<string, string>)
    requires Fits(elements, values) && n <= |elements|
  {
    && (forall name :: name in m <==> IsName(elements, n, name))
    && (forall j :: 0 <= j < n && elements[j].Variable? ==>
          Text(elements[j]) in m && j / 2 < |values| && m[Text(elements[j])] == values[j / 2])
  }

  lemma BindOne(elements: seq<Element>, values: seq<string>, i: nat, m: map<string, string>)
    requires Fits(elements, values) && i < |elements| && Bound(elements, values, i, m)
    ensures Bound(elements, values, i + 1,
                  if i % 2 == 0 then m else m[Text(elements[i]) := values[i / 2]])
  {
    assert GoodAt(elements, i);
    var name := Text(elements[i]);
    var m' := if i % 2 == 0 then m else m[name := values[i / 2]];
    forall other ensures other in m' <==> IsName(elements, i + 1, other) {
      assert other in m <==> IsName(elements, i, other);
      if i % 2 == 1 && other == name {
        assert elements[i] == Variable(name);
      }
    }
    forall j | 0 <= j < i && elements[j].Variable?
      ensures Text(elements[j]) in m' && m'[Text(elements[j])] == values[j / 2]
    {
      if i % 2 == 1 {
        assert Text(elements[..i][j]) != name;
      }
    }
  }

  lemma InsertFirst(m: map<string, string>, b: Binding, rest: seq<Binding>)
    ensures Insert(m, [b] + rest) == Insert(m[b.name := b.value], rest)
  {
    assert ([b] + rest)[1..] == rest;
  }

  lemma {:induction false} InsertsBindings(elements: seq<Element>, values: seq<string>, i: nat, n: nat,
                                           m: map<string, string>)
    requires Fits(elements, values) && i <= n <= |elements| && Bound(elements, values, i, m)
    ensures Bound(elements, values, n, Insert(m, Bindings(elements, values, i, n)))
    decreases n - i
  {
    if i < n {
      BindOne(elements, values, i, m);
      BindingsStep(elements, values, i, n);
      if i % 2 == 0 {
        InsertsBindings(elements, values, i + 1, n, m);
      } else {
        var name, value := Text(elements[i]), values[i / 2];
        InsertFirst(m, Binding(name, value), Bindings(elements, values, i + 1, n));
        InsertsBindings(elements, values, i + 1, n, m[name := value]);
      }
    }
  }

  /** Without its last variable the map is not the whole binding. */
  lemma LastMissing(elements: seq<Element>, values: seq<string>, m: map<string, string>)
    requires Fits(elements, values) && elements != [] && |elements| % 2 == 0
    requires Bound(elements, values, |elements| - 1, m)
    ensures !Bound(elements, values, |elements|, m)
  {
    var n := |elements| - 1;
    assert GoodAt(elements, n);
    var name := Text(elements[n]);
    forall j | 0 <= j < n ensures elements[j] != Variable(name) {
      assert elements[..n][j] == elements[j];
    }
    assert elements[n] == Variable(name);
    assert IsName(elements, |elements|, name);
  }

  // ---------- slashes and the ends of the path ----------

  lemma NoSlashes(s: string)
    requires '/' !in s
    ensures Slashes(s) == 0
  {
    SumZero(s, IsSlash);
  }

  lemma SlashesOfPiece(elements: seq<Element>, values: seq<string>, i: nat)
    requires Fits(elements, values) && AllAvoid(elements, values) && i < |elements|
    ensures Slashes(Piece(elements, values, i)) == Slashes(Shown(elements[i]))
  {
    assert GoodAt(elements, i);
    if i % 2 == 1 {
      assert Avoids(elements, 2 * (i / 2) + 1, values[i / 2]);
      NoSlashes(values[i / 2]);
      NoSlashes(Shown(elements[i]));
    }
  }

  predicate SameSlashes(elements: seq<Element>, values: seq<string>, i: nat) {
    |values| == |elements| / 2 && i <= |elements| ==>
      Slashes(Instance(elements, values, i)) == Slashes(RenderFrom(elements, i))
  }

  /** Values without slashes leave the number of slashes as it is in the template. */
  lemma SlashesStep(elements: seq<Element>, values: seq<string>, i: nat)
    requires Fits(elements, values) && AllAvoid(elements, values) && i < |elements|
    requires SameSlashes(elements, values, i + 1)
    ensures SameSlashes(elements, values, i)
  {
    SlashesOfPiece(elements, values, i);
    SlashesAppend(Piece(elements, values, i), Instance(elements, values, i + 1));
    SlashesAppend(Shown(elements[i]), RenderFrom(elements, i + 1));
  }

  lemma {:induction false} Downwards(p: nat -> bool, n: nat)
    requires p(n) && forall j :: 0 <= j < n && p(j + 1) ==> p(j)
    ensures p(0)
  {
    if n > 0 {
      assert p(n - 1);
      Downwards(p, n - 1);
    }
  }

  /** What is left of the end of the path. */
  function Suffix(rest: string): string {
    if rest == [] then [] else "/" + Stripped(rest)
  }

  lemma StrippedPath(front: string, rest: string)
    ensures Stripped(front + "/" + rest) == front + Suffix(rest)
  {
    if rest == [] {
      assert front + "/" + rest == front + "/" && front + [] == front;
    } else {
      assert front + "/" + rest == front + ("/" + rest);
      StrippedEnd(front, "/" + rest);
      StrippedEnd("/", rest);
    }
  }

  lemma StrippedEnd(front: string, rest: string)
    requires rest != []
    ensures Stripped(front + rest) == front + Stripped(rest)
  {
    var path := front + rest;
    assert path[|path| - 1] == rest[|rest| - 1];
    assert path[..|path| - 1] == front + rest[..|rest| - 1];
  }

  lemma BeginsWithSlash(s: string, values: seq<string>)
    requires FromString(s).Some? && Fits(FromString(s).value.elements, values)
    ensures var front := Instance(FromString(s).value.elements, values, 0); front == [] || front[0] == '/'
  {
    ParsedShows(s);
    var elements := FromString(s).value.elements;
    if elements != [] {
      assert GoodAt(elements, 0);
      RenderAll(elements);
      assert Stripped(s) == Shown(elements[0]) + RenderFrom(elements, 1);
      assert Stripped(s)[0] == Text(elements[0])[0];
    }
  }

  lemma RenderAll(elements: seq<Element>)
    ensures Render(elements) == RenderFrom(elements, 0)
  {
    assert elements[..0] == [];
    RenderRest(elements, 0, []);
    assert [] + RenderFrom(elements, 0) == RenderFrom(elements, 0);
  }

  lemma SlashesCovered(elements: seq<Element>, values: seq<string>, suffix: string)
    requires Fits(elements, values) && AllAvoid(elements, values)
    ensures Slashes(Render(elements)) <= Slashes(Instance(elements, values, 0) + suffix)
  {
    forall j | 0 <= j < |elements| && SameSlashes(elements, values, j + 1) ensures SameSlashes(elements, values, j) {
      SlashesStep(elements, values, j);
    }
    Downwards((j: nat) => SameSlashes(elements, values, j), |elements|);
    SlashesAppend(Instance(elements, values, 0), suffix);
    SumNonNegative(suffix, IsSlash);
    RenderAll(elements);
  }

  /** What the loop binds, as a map. */
  lemma InstanceBound(elements: seq<Element>, values: seq<string>, suffix: string)
    requires Fits(elements, values) && AllAvoid(elements, values)
    requires suffix == [] || suffix[0] == '/'
    ensures var bindings := Match(elements, 0, Instance(elements, values, 0) + suffix);
            && bindings.Ok?
            && (Bound(elements, values, |elements|, Insert(map[], bindings.value))
                <==> !EmptyEnd(elements, values, suffix))
  {
    var n := Reach(elements, values, suffix);
    MatchesInstance(elements, values, 0, suffix);
    InsertsBindings(elements, values, 0, n, map[]);
    if n < |elements| {
      LastMissing(elements, values, Insert(map[], Bindings(elements, values, 0, n)));
    }
  }

  /** A template, its variables replaced by values, then a slash and anything: the parser binds exactly these values,
      unless the template ends with a variable, its value is empty and nothing follows; then that one is not bound. */
  lemma ParsesInstance(s: string, values: seq<string>, rest: string)
    requires FromString(s).Some? && Fits(FromString(s).value.elements, values)
    requires AllAvoid(FromString(s).value.elements, values)
    ensures var p := FromString(s).value;
            var r := Parse(p, Instance(p.elements, values, 0) + "/" + rest);
            r.Ok? && (Bound(p.elements, values, |p.elements|, r.value) <==> !EmptyEnd(p.elements, values, rest))
  {
    var elements := FromString(s).value.elements;
    var front, suffix := Instance(elements, values, 0), Suffix(rest);
    ParsedShows(s);
    SlashesCovered(elements, values, suffix);
    InstanceBound(elements, values, suffix);
    PathNormalized(s, values, rest);
  }

  lemma PathNormalized(s: string, values: seq<string>, rest: string)
    requires FromString(s).Some? && Fits(FromString(s).value.elements, values)
    ensures var front := Instance(FromString(s).value.elements, values, 0);
            Normalize(front + "/" + rest) == Ok((front + Suffix(rest), Slashes(front + Suffix(rest))))
  {
    BeginsWithSlash(s, values);
    StrippedPath(Instance(FromString(s).value.elements, values, 0), rest);
  }

  // ---------- putting back what was bound ----------

  /** The elements with the bindings in place of the variables, as far as they reach. */
  function Replay(elements: seq<Element>, i: nat, bindings: seq<Binding>): string
    requires i <= |elements|
    decreases |elements| - i
  {
    if i == |elements| then []
    else
      match elements[i]
      case Fixed(text) => text + Replay(elements, i + 1, bindings)
      case Variable(_) =>
        if bindings == [] then [] else bindings[0].value + Replay(elements, i + 1, bindings[1..])
  }

  predicate Comparable(s: string, t: string) {
    s <= t || t <= s
  }

  lemma ComparableBehind(front: string, s: string, t: string)
    requires Comparable(s, t)
    ensures Comparable(front + s, front + t)
  {
  }

  /** What the loop over the elements binds, put back in order, is what it was given. */
  lemma {:induction false} ReplaysPath(elements: seq<Element>, i: nat, path: string)
    requires i <= |elements| && Match(elements, i, path).Ok?
    ensures Comparable(Replay(elements, i, Match(elements, i, path).value), path)
    decreases |elements| - i
  {
    if i < |elements| && path != [] {
      match elements[i]
      case Fixed(text) =>
        var rest := path[|text|..];
        ReplaysPath(elements, i + 1, rest);
        ComparableBehind(text, Replay(elements, i + 1, Match(elements, i + 1, rest).value), rest);
        assert path == text + rest;
      case Variable(name) =>
        var value := Value(elements, i, path).value;
        var rest := path[|value|..];
        ReplaysPath(elements, i + 1, rest);
        var later := Match(elements, i + 1, rest).value;
        ComparableBehind(value, Replay(elements, i + 1, later), rest);
        ReplayFirst(elements, i, Binding(name, value), later);
        assert path == value + rest;
    }
  }

  lemma ReplayFirst(elements: seq<Element>, i: nat, b: Binding, later: seq<Binding>)
    requires i < |elements| && elements[i].Variable?
    ensures Replay(elements, i, [b] + later) == b.value + Replay(elements, i + 1, later)
  {
    assert ([b] + later)[1..] == later;
  }

  /** The elements with the values of a map in place of the variables, up to the first that has none. */
  function Filled(elements: seq<Element>, i: nat, m: map<string, string>): string
    requires i <= |elements|
    decreases |elements| - i
  {
    if i == |elements| then []
    else
      match elements[i]
      case Fixed(text) => text + Filled(elements, i + 1, m)
      case Variable(name) => if name in m then m[name] + Filled(elements, i + 1, m) else []
  }

  /** The map holds nothing for the variables from `i` on. */
  predicate Unbound(elements: seq<Element>, i: nat, m: map<string, string>) {
    forall j :: i <= j < |elements| && elements[j].Variable? ==> elements[j].name !in m
  }

  predicate Foreign(bindings: seq<Binding>, name: string) {
    forall b :: b in bindings ==> b.name != name
  }

  lemma {:induction false} InsertOthers(m: map<string, string>, bindings: seq<Binding>, name: string)
    requires Foreign(bindings, name)
    ensures name in Insert(m, bindings) <==> name in m
    ensures name in m ==> Insert(m, bindings)[name] == m[name]
    decreases |bindings|
  {
    if bindings != [] {
      assert bindings[0] in bindings;
      InsertOthers(m[bindings[0].name := bindings[0].value], bindings[1..], name);
    }
  }

  /** The loop binds only variables from `i` on. */
  lemma {:induction false} BindsLater(elements: seq<Element>, i: nat, path: string, name: string)
    requires i <= |elements| && Match(elements, i, path).Ok?
    requires forall j :: i <= j < |elements| ==> elements[j] != Variable(name)
    ensures Foreign(Match(elements, i, path).value, name)
    decreases |elements| - i
  {
    if i < |elements| && path != [] {
      match elements[i]
      case Fixed(text) => BindsLater(elements, i + 1, path[|text|..], name);
      case Variable(_) => BindsLater(elements, i + 1, path[|Value(elements, i, path).value|..], name);
    }
  }

  lemma DistinctName(elements: seq<Element>, i: nat, j: nat)
    requires Good(elements) && i < j < |elements| && elements[i].Variable? && elements[j].Variable?
    ensures elements[j].name != elements[i].name
  {
    assert GoodAt(elements, j);
    assert Text(elements[..j][i]) == elements[i].name;
  }

  lemma {:induction false} NothingFilled(elements: seq<Element>, i: nat, m: map<string, string>)
    requires i <= |elements| && Unbound(elements, i, m)
    ensures Filled(elements, i, m) == Replay(elements, i, [])
    decreases |elements| - i
  {
    if i < |elements| && elements[i].Fixed? {
      NothingFilled(elements, i + 1, m);
    }
  }

  /** The map that the bindings make fills the elements as the bindings do one after the other. */
  lemma {:induction false} FilledReplays(elements: seq<Element>, i: nat, path: string, m: map<string, string>)
    requires Good(elements) && i <= |elements| && Match(elements, i, path).Ok? && Unbound(elements, i, m)
    ensures var b := Match(elements, i, path).value; Filled(elements, i, Insert(m, b)) == Replay(elements, i, b)
    decreases |elements| - i
  {
    if i == |elements| {
    } else if path == [] {
      NothingFilled(elements, i, m);
    } else if elements[i].Fixed? {
      FilledReplays(elements, i + 1, path[|elements[i].text|..], m);
    } else {
      VariableReplays(elements, i, path, m);
    }
  }

  lemma {:induction false} VariableReplays(elements: seq<Element>, i: nat, path: string, m: map<string, string>)
    requires Good(elements) && i < |elements| && path != [] && Match(elements, i, path).Ok? && Unbound(elements, i, m)
    requires elements[i].Variable?
    ensures var b := Match(elements, i, path).value; Filled(elements, i, Insert(m, b)) == Replay(elements, i, b)
    decreases |elements| - i, 0
  {
    var name, value := elements[i].name, Value(elements, i, path).value;
    var rest := path[|value|..];
    var later := Match(elements, i + 1, rest).value;
    forall j | i < j < |elements| && elements[j].Variable?
      ensures elements[j].name != name
    {
      DistinctName(elements, i, j);
    }
    InsertFirst(m, Binding(name, value), later);
    ReplayFirst(elements, i, Binding(name, value), later);
    BindsLater(elements, i + 1, rest, name);
    InsertOthers(m[name := value], later, name);
    FilledReplays(elements, i + 1, rest, m[name := value]);
  }

  /** Whatever path is accepted, the values that `parse` returns, put back into the template, give that path without
      its last slash, as far as the shorter of the two reaches. */
  lemma PutBack(s: string, path: string)
    requires FromString(s).Some? && Parse(FromString(s).value, path).Ok?
    ensures var p := FromString(s).value;
            Comparable(Filled(p.elements, 0, Parse(p, path).value), Stripped(path))
  {
    var elements := FromString(s).value.elements;
    ParsedShows(s);
    ReplaysPath(elements, 0, Stripped(path));
    FilledReplays(elements, 0, Stripped(path), map[]);
  }
}
