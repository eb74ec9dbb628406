/** src/http2/frame.rs: the payload of a SETTINGS frame (section 6.5.1 of RFC 7540). */
module SettingsCodec {
  import opened Basics
  import opened Seqs
  import opened H2Errors
  import opened BigEndian
  import opened Settings

  type ident = k: nat | 1 <= k <= 6 witness 1

  datatype Entry = Entry(id: nat, value: u32)

  const EMPTY: SettingsFrame := SettingsFrame(false, None, None, None, None, None, None)

  /** The field of an identifier as the number on the wire. */
  function Field(f: SettingsFrame, k: ident): Option<u32> {
    match k
    case 1 => f.headerTableSize
    case 2 => if f.enablePush.Some? then Some(if f.enablePush.value then 1 else 0) else None
    case 3 => f.maxConcurrentStreams
    case 4 => f.initialWindowSize
    case 5 => f.maxFrameSize
    case 6 => f.maxHeaderListSize
  }

  /** Section 6.5.2 of RFC 7540: the identifiers 0x1 to 0x6, in this order; the push flag is 0 or 1. */
  lemma FieldNumbers(f: SettingsFrame, v: u32)
    ensures Field(f.(headerTableSize := Some(v)), 0x1) == Some(v)
    ensures Field(f.(enablePush := Some(false)), 0x2) == Some(0) && Field(f.(enablePush := Some(true)), 0x2) == Some(1)
    ensures Field(f.(maxConcurrentStreams := Some(v)), 0x3) == Some(v)
    ensures Field(f.(initialWindowSize := Some(v)), 0x4) == Some(v)
    ensures Field(f.(maxFrameSize := Some(v)), 0x5) == Some(v)
    ensures Field(f.(maxHeaderListSize := Some(v)), 0x6) == Some(v)
  {
  }

  lemma SameFields(f: SettingsFrame, g: SettingsFrame)
    requires f.ack == g.ack && forall k: ident :: Field(f, k) == Field(g, k)
    ensures f == g
  {
    assert Field(f, 1) == Field(g, 1) && Field(f, 2) == Field(g, 2) && Field(f, 3) == Field(g, 3);
    assert Field(f, 4) == Field(g, 4) && Field(f, 5) == Field(g, 5) && Field(f, 6) == Field(g, 6);
  }

  // ---------- encoding ----------

  function EntryBytes(e: Entry): (s: seq<byte>)
    ensures |s| == 6
  {
    ToBytes(e.id, 2) + ToBytes(e.value, 4)
  }

  /** Section 6.5.1 of RFC 7540: two bytes of identifier, four bytes of value, most significant first. */
  lemma EntryLayout(e: Entry)
    requires e.id < 0x1_0000
    ensures var s := EntryBytes(e);
            && s[0] as int * 0x100 + s[1] == e.id
            && s[2] as int * 0x100_0000 + s[3] as int * 0x1_0000 + s[4] as int * 0x100 + s[5] == e.value
  {
    var s := EntryBytes(e);
    Powers();
    ReadWritten(e.id, 2);
    ReadWritten(e.value, 4);
    assert s[..2] == ToBytes(e.id, 2) && s[2..] == ToBytes(e.value, 4);
    FirstWeighsMost(s[..2]);
    FirstWeighsMost(s[..2][1..]);
    FourBytes(s[2..]);
  }

  function Given(f: SettingsFrame, k: ident): seq<Entry> {
    if Field(f, k).Some? then [Entry(k, Field(f, k).value)] else []
  }

  /** The fields that are set, in the order of their identifiers, from `k` on. */
  function EntriesFrom(f: SettingsFrame, k: nat): seq<Entry>
    requires 1 <= k <= 7
    decreases 7 - k
  {
    if k == 7 then [] else Given(f, k) + EntriesFrom(f, k + 1)
  }

  function Encode(f: SettingsFrame): seq<byte> {
    FlatMap(EntriesFrom(f, 1), EntryBytes)
  }

  function Rest(f: SettingsFrame, k: nat): seq<byte>
    requires 1 <= k <= 7
  {
    FlatMap(EntriesFrom(f, k), EntryBytes)
  }

  lemma RestStep(f: SettingsFrame, k: ident)
    ensures Rest(f, k) == (if Field(f, k).Some? then EntryBytes(Entry(k, Field(f, k).value)) else []) + Rest(f, k + 1)
  {
    FlatMapAppend(Given(f, k), EntriesFrom(f, k + 1), EntryBytes);
    if Field(f, k).Some? {
      FlatMapOne(Entry(k, Field(f, k).value), EntryBytes);
    }
  }

  /** One field: its identifier and its value, if it is set. */
  method Put(payload: seq<byte>, f: SettingsFrame, k: ident) returns (r: seq<byte>)
    ensures r + Rest(f, k + 1) == payload + Rest(f, k)
  {
    RestStep(f, k);
    r := payload;
    if Field(f, k).Some? {
      r := r + ToBytes(k, 2);
      r := r + ToBytes(Field(f, k).value, 4);
      Regroup(payload, ToBytes(k, 2), ToBytes(Field(f, k).value, 4));
      Regroup(payload, EntryBytes(Entry(k, Field(f, k).value)), Rest(f, k + 1));
    }
  }

  /** `Frame::from(SettingsFrame)`, the payload. */
  method EncodeSettings(f: SettingsFrame) returns (payload: seq<byte>)
    ensures payload == Encode(f)
  {
    payload := Put([], f, 1);
    payload := Put(payload, f, 2);
    payload := Put(payload, f, 3);
    payload := Put(payload, f, 4);
    payload := Put(payload, f, 5);
    payload := Put(payload, f, 6);
    assert Rest(f, 7) == [] && payload + [] == payload;
  }

  // ---------- decoding ----------

  const REFUSED: Result<SettingsFrame, H2Error> := Err(ConnectionError(ProtocolError))

  /** One entry: refused if the identifier is unknown, was there before, or the push flag is no flag. */
  function Add(f: SettingsFrame, e: Entry): (r: Result<SettingsFrame, H2Error>)
    ensures r.Ok? <==> 1 <= e.id <= 6 && Field(f, e.id).None? && (e.id == 2 ==> e.value <= 1)
    ensures r.Ok? ==> r.value.ack == f.ack
                      && forall k: ident :: Field(r.value, k) == if k == e.id then Some(e.value) else Field(f, k)
    ensures r.Err? ==> r == REFUSED
  {
    match e.id
    case 1 => if f.headerTableSize.Some? then REFUSED else Ok(f.(headerTableSize := Some(e.value)))
    case 2 =>
      if f.enablePush.Some? then REFUSED
      else if e.value == 1 then Ok(f.(enablePush := Some(true)))
      else if e.value == 0 then Ok(f.(enablePush := Some(false)))
      else REFUSED
    case 3 => if f.maxConcurrentStreams.Some? then REFUSED else Ok(f.(maxConcurrentStreams := Some(e.value)))
    case 4 => if f.initialWindowSize.Some? then REFUSED else Ok(f.(initialWindowSize := Some(e.value)))
    case 5 => if f.maxFrameSize.Some? then REFUSED else Ok(f.(maxFrameSize := Some(e.value)))
    case 6 => if f.maxHeaderListSize.Some? then REFUSED else Ok(f.(maxHeaderListSize := Some(e.value)))
    case _ => REFUSED
  }

  function EntryOf(chunk: seq<byte>): Entry
    requires |chunk| == 6
  {
    Bounded(chunk[2..6]);
    Powers();
    Entry(FromBytes(chunk[..2]), FromBytes(chunk[2..6]))
  }

  /** The complete entries of a payload. */
  function Entries(payload: seq<byte>): seq<Entry>
    decreases |payload|
  {
    if |payload| < 6 then [] else [EntryOf(payload[..6])] + Entries(payload[6..])
  }

  function AddAll(f: SettingsFrame, entries: seq<Entry>): Result<SettingsFrame, H2Error>
    decreases |entries|
  {
    if entries == [] then Ok(f)
    else
      var r := Add(f, entries[0]);
      if r.Err? then r else AddAll(r.value, entries[1..])
  }

  /** `SettingsFrame::try_from`, for a frame of type SETTINGS. */
  function Decode(ack: bool, payload: seq<byte>): Result<SettingsFrame, H2Error> {
    if ack then
      if payload != [] then Err(ConnectionError(FrameSizeError)) else Ok(EMPTY.(ack := true))
    else AddAll(EMPTY, Entries(payload))
  }

  method DecodeSettings(ack: bool, payload: seq<byte>) returns (r: Result<SettingsFrame, H2Error>)
    ensures r == Decode(ack, payload)
  {
    var frame := EMPTY.(ack := ack);
    if ack {
      if payload != [] {
        return Err(ConnectionError(FrameSizeError));
      }
      return Ok(frame);
    }
    var i := 0;
    while i + 6 <= |payload|
      invariant 0 <= i <= |payload|
      invariant AddAll(frame, Entries(payload[i..])) == Decode(ack, payload)
    {
      assert payload[i..][..6] == payload[i..i + 6] && payload[i..][6..] == payload[i + 6..];
      var added := Add(frame, EntryOf(payload[i..i + 6]));
      assert Entries(payload[i..]) == [EntryOf(payload[i..i + 6])] + Entries(payload[i + 6..]);
      assert Entries(payload[i..])[1..] == Entries(payload[i + 6..]);
      if added.Err? {
        return added;
      }
      frame := added.value;
      i := i + 6;
    }
    return Ok(frame);
  }

  // ---------- what is decoded ----------

  predicate Known(e: Entry) {
    1 <= e.id <= 6 && (e.id == 2 ==> e.value <= 1)
  }

  predicate Distinct(entries: seq<Entry>) {
    forall i, j :: 0 <= i < j < |entries| ==> entries[i].id != entries[j].id
  }

  predicate Fresh(f: SettingsFrame, entries: seq<Entry>) {
    forall e :: e in entries ==> Known(e) && Field(f, e.id).None?
  }

  /** Entries are taken if and only if each is known, none repeats, and none was there before; then each field is that
      of its entry, or as before. */
  lemma {:induction false} AddAllMeaning(f: SettingsFrame, entries: seq<Entry>)
    ensures AddAll(f, entries).Ok? <==> Distinct(entries) && Fresh(f, entries)
    ensures AddAll(f, entries).Err? ==> AddAll(f, entries) == REFUSED
    ensures AddAll(f, entries).Ok? ==>
              && AddAll(f, entries).value.ack == f.ack
              && forall k: ident, v: u32 ::
                   Field(AddAll(f, entries).value, k) == Some(v) <==> Field(f, k) == Some(v) || Entry(k, v) in entries
    decreases |entries|
  {
    if entries != [] {
      var e, rest := entries[0], entries[1..];
      var r := Add(f, e);
      assert entries == [e] + rest;
      assert e in entries;
      if r.Ok? {
        AddAllMeaning(r.value, rest);
        FreshStep(f, r.value, e, rest);
        if AddAll(f, entries).Ok? {
          forall k: ident, v: u32
            ensures Field(AddAll(f, entries).value, k) == Some(v)
                    <==> Field(f, k) == Some(v) || Entry(k, v) in entries
          {
            assert Entry(k, v) in entries <==> Entry(k, v) == e || Entry(k, v) in rest;
          }
        }
      }
    }
  }

  lemma FreshStep(f: SettingsFrame, g: SettingsFrame, e: Entry, rest: seq<Entry>)
    requires Add(f, e) == Ok(g)
    ensures Distinct([e] + rest) && Fresh(f, [e] + rest) <==> Distinct(rest) && Fresh(g, rest)
  {
    var all := [e] + rest;
    if Distinct(all) && Fresh(f, all) {
      forall x | x in rest ensures Known(x) && Field(g, x.id).None? {
        var j :| 0 <= j < |rest| && rest[j] == x;
        assert all[j + 1] == x && x in all && all[0].id != all[j + 1].id;
      }
      forall i, j | 0 <= i < j < |rest| ensures rest[i].id != rest[j].id {
        assert all[i + 1].id != all[j + 1].id;
      }
    }
    if Distinct(rest) && Fresh(g, rest) {
      forall i, j | 0 <= i < j < |all| ensures all[i].id != all[j].id {
        if i == 0 {
          assert rest[j - 1] in rest;
        } else {
          assert rest[i - 1].id != rest[j - 1].id;
        }
      }
      forall x | x in all ensures Known(x) && Field(f, x.id).None? {
        assert x == e || x in rest;
      }
    }
  }

  /** A payload is accepted if and only if its identifiers are known, none repeats, and the push flag is 0 or 1. */
  lemma DecodeAccepts(payload: seq<byte>)
    ensures Decode(false, payload).Ok? <==>
              Distinct(Entries(payload)) && forall e :: e in Entries(payload) ==> Known(e)
    ensures Decode(false, payload).Err? ==> Decode(false, payload) == Err(ConnectionError(ProtocolError))
  {
    AddAllMeaning(EMPTY, Entries(payload));
    forall e | e in Entries(payload) && Known(e) ensures Field(EMPTY, e.id).None? {
      FieldOfEmpty(e.id);
    }
  }

  /** An acknowledgement is empty, and sets nothing. */
  lemma AckAccepts(payload: seq<byte>)
    ensures Decode(true, payload) == if |payload| > 0 then Err(ConnectionError(FrameSizeError))
                                     else Ok(SettingsFrame(true, None, None, None, None, None, None))
  {
  }

  lemma FieldOfEmpty(k: ident)
    ensures Field(EMPTY, k).None?
  {
  }

  // ---------- the round trip ----------

  lemma {:induction false} EntriesEncoded(entries: seq<Entry>)
    requires forall e :: e in entries ==> e.id <= 6
    ensures Entries(FlatMap(entries, EntryBytes)) == entries
  {
    if entries != [] {
      var e, rest := entries[0], entries[1..];
      var s := FlatMap(rest, EntryBytes);
      var all := EntryBytes(e) + s;
      assert e in entries;
      assert FlatMap(entries, EntryBytes) == all;
      assert all[..6] == EntryBytes(e) && all[6..] == s;
      assert EntryBytes(e)[..2] == ToBytes(e.id, 2) && EntryBytes(e)[2..6] == ToBytes(e.value, 4);
      Powers();
      ReadWritten(e.id, 2);
      ReadWritten(e.value, 4);
      EntriesEncoded(rest);
    }
  }

  /** The encoded entries are those of the fields. */
  lemma {:induction false} EntriesOfFields(f: SettingsFrame, k: nat)
    requires 1 <= k <= 7
    ensures forall e :: e in EntriesFrom(f, k) <==> k <= e.id <= 6 && Field(f, e.id) == Some(e.value)
    decreases 7 - k
  {
    if k < 7 {
      EntriesOfFields(f, k + 1);
    }
  }

  lemma DistinctFirst(e: Entry, rest: seq<Entry>)
    requires Distinct(rest) && forall x :: x in rest ==> x.id != e.id
    ensures Distinct([e] + rest)
  {
    var all := [e] + rest;
    forall i, j | 0 <= i < j < |all| ensures all[i].id != all[j].id {
      assert rest[j - 1] in rest;
      assert i > 0 ==> rest[i - 1].id != rest[j - 1].id;
    }
  }

  lemma {:induction false} EntriesDistinct(f: SettingsFrame, k: nat)
    requires 1 <= k <= 7
    ensures Distinct(EntriesFrom(f, k))
    decreases 7 - k
  {
    if k < 7 {
      var rest := EntriesFrom(f, k + 1);
      EntriesDistinct(f, k + 1);
      EntriesOfFields(f, k + 1);
      if Field(f, k).Some? {
        DistinctFirst(Entry(k, Field(f, k).value), rest);
      } else {
        assert EntriesFrom(f, k) == [] + rest == rest;
      }
    }
  }

  lemma PushIsFlag(f: SettingsFrame)
    ensures Field(f, 2).Some? ==> Field(f, 2).value <= 1
  {
  }

  lemma SameOption(a: Option<u32>, b: Option<u32>)
    requires forall v: u32 :: a == Some(v) <==> b == Some(v)
    ensures a == b
  {
    if a.Some? {
      assert b == Some(a.value);
    }
    if b.Some? {
      assert a == Some(b.value);
    }
  }

  /** Every settings frame that is no acknowledgement survives encoding and decoding. */
  lemma SettingsRoundTrip(f: SettingsFrame)
    requires !f.ack
    ensures Decode(false, Encode(f)) == Ok(f)
  {
    var entries := EntriesFrom(f, 1);
    EntriesOfFields(f, 1);
    EntriesDistinct(f, 1);
    EntriesEncoded(entries);
    PushIsFlag(f);
    DecodeAccepts(Encode(f));
    AddAllMeaning(EMPTY, entries);
    var g := AddAll(EMPTY, entries).value;
    forall k: ident ensures Field(g, k) == Field(f, k) {
      FieldOfEmpty(k);
      forall v: u32 ensures Field(g, k) == Some(v) <==> Field(f, k) == Some(v) {
        assert Entry(k, v) in entries <==> Field(f, k) == Some(v);
      }
      SameOption(Field(g, k), Field(f, k));
    }
    SameFields(g, f);
  }
}
