/** A reader of JSON text (RFC 8259), and what it says of the canonical text of an approval payload: read
    back, it is the payload, with the keys of every object in the order of their code units. */
module JsonReader {
  import opened Options
  import opened Utf16
  import opened JsonValues
  import opened CanonicalJson

  /** What was read, and the text behind it. */
  datatype Found<T> = Found(value: T, rest: Text) | Bad

  // ---------- strings, section 7 of RFC 8259 ----------

  function HexValue(u: Unit): (d: int)
    ensures -1 <= d < 16
  {
    if 48 <= u <= 57 then u - 48 else if 97 <= u <= 102 then u - 87 else if 65 <= u <= 70 then u - 55 else -1
  }

  function ReadHex4(t: Text): (r: Found<Unit>)
    ensures r.Found? ==> |r.rest| < |t|
  {
    if |t| < 4 || HexValue(t[0]) < 0 || HexValue(t[1]) < 0 || HexValue(t[2]) < 0 || HexValue(t[3]) < 0 then Bad
    else Found(HexValue(t[0]) * 4096 + HexValue(t[1]) * 256 + HexValue(t[2]) * 16 + HexValue(t[3]), t[4..])
  }

  function ReadEscape(t: Text): (r: Found<Unit>)
    ensures r.Found? ==> |r.rest| < |t|
  {
    if t == [] then Bad
    else if t[0] == 34 || t[0] == 92 || t[0] == 47 then Found(t[0], t[1..])
    else if t[0] == 98 then Found(8, t[1..])
    else if t[0] == 102 then Found(12, t[1..])
    else if t[0] == 110 then Found(10, t[1..])
    else if t[0] == 114 then Found(13, t[1..])
    else if t[0] == 116 then Found(9, t[1..])
    else if t[0] == 117 then ReadHex4(t[1..])
    else Bad
  }

  /** The characters of a string up to and including its closing quote. */
  function ReadString(t: Text): (r: Found<Text>)
    ensures r.Found? ==> |r.rest| < |t|
    decreases |t|
  {
    if t == [] || t[0] < 32 then Bad
    else if t[0] == 34 then Found([], t[1..])
    else
      var unit := if t[0] == 92 then ReadEscape(t[1..]) else Found(t[0], t[1..]);
      if unit.Bad? then Bad
      else
        var more := ReadString(unit.rest);
        if more.Bad? then Bad else Found([unit.value] + more.value, more.rest)
  }

  // ---------- values ----------

  function DigitsOf(t: Text): (d: Text)
    ensures |d| <= |t| && d == t[..|d|]
  {
    if t == [] || !IsNumberUnit(t[0]) then [] else [t[0]] + DigitsOf(t[1..])
  }

  function ReadWord(t: Text, word: Text, v: Json): (r: Found<Json>)
    requires word != []
    ensures r.Found? ==> |r.rest| < |t|
  {
    if word <= t then Found(v, t[|word|..]) else Bad
  }

  function ReadValue(t: Text): (r: Found<Json>)
    ensures r.Found? ==> |r.rest| < |t|
    decreases |t|, 0
  {
    if t == [] then Bad
    else if t[0] == 110 then ReadWord(t, [110, 117, 108, 108], Null)
    else if t[0] == 116 then ReadWord(t, [116, 114, 117, 101], Bool(true))
    else if t[0] == 102 then ReadWord(t, [102, 97, 108, 115, 101], Bool(false))
    else if t[0] == 34 then
      var s := ReadString(t[1..]);
      if s.Bad? then Bad else Found(Str(s.value), s.rest)
    else if t[0] == 91 then
      if |t| > 1 && t[1] == 93 then Found(Arr([]), t[2..])
      else
        var items := ReadItems(t[1..]);
        if items.Bad? then Bad else Found(Arr(items.value), items.rest)
    else if t[0] == 123 then
      if |t| > 1 && t[1] == 125 then Found(Obj([], map[]), t[2..])
      else
        var entries := ReadEntries(t[1..]);
        if entries.Bad? then Bad else Found(Obj(entries.value.0, entries.value.1), entries.rest)
    else
      var d := DigitsOf(t);
      if d == [] then Bad else Found(Num(d), t[|d|..])
  }

  /** At least one item, up to and including the closing bracket. */
  function ReadItems(t: Text): (r: Found<seq<Json>>)
    ensures r.Found? ==> |r.rest| < |t|
    decreases |t|, 1
  {
    var first := ReadValue(t);
    if first.Bad? || first.rest == [] then Bad
    else if first.rest[0] == 93 then Found([first.value], first.rest[1..])
    else if first.rest[0] != 44 then Bad
    else
      var more := ReadItems(first.rest[1..]);
      if more.Bad? then Bad else Found([first.value] + more.value, more.rest)
  }

  /** At least one key and value, up to and including the closing brace; keys may not repeat. */
  function ReadEntries(t: Text): (r: Found<(seq<Text>, map<Text, Json>)>)
    ensures r.Found? ==> |r.rest| < |t|
    decreases |t|, 1
  {
    if t == [] || t[0] != 34 then Bad
    else
      var key := ReadString(t[1..]);
      if key.Bad? || key.rest == [] || key.rest[0] != 58 then Bad
      else
        var first := ReadValue(key.rest[1..]);
        if first.Bad? || first.rest == [] then Bad
        else if first.rest[0] == 125 then Found(([key.value], map[key.value := first.value]), first.rest[1..])
        else if first.rest[0] != 44 then Bad
        else
          var more := ReadEntries(first.rest[1..]);
          if more.Bad? then Bad
          else
            var (keys, fields) := more.value;
            if key.value in fields then Bad
            else Found(([key.value] + keys, fields[key.value := first.value]), more.rest)
  }

  // ---------- a quoted string reads back ----------

  lemma HexReads(d: nat)
    requires d < 16
    ensures HexValue(Hex(d)) == d
  {
  }

  lemma Hex4Reads(u: Unit, x: Text)
    ensures ReadHex4(Hex4(u) + x) == Found(u, x)
  {
    HexReads(u / 4096);
    HexReads(u / 256 % 16);
    HexReads(u / 16 % 16);
    HexReads(u % 16);
    HexDigits(u);
    var t := Hex4(u) + x;
    assert t[0] == Hex(u / 4096) && t[1] == Hex(u / 256 % 16) && t[2] == Hex(u / 16 % 16) && t[3] == Hex(u % 16);
    assert t[4..] == x;
  }

  /** An escaped unit reads as that unit. */
  lemma UnitReads(u: Unit, x: Text)
    ensures var t := EscapeUnit(u) + x;
            t[0] >= 32 && t[0] != 34 &&
            (if t[0] == 92 then ReadEscape(t[1..]) else Found(t[0], t[1..])) == Found(u, x)
  {
    var t := EscapeUnit(u) + x;
    if EscapeUnit(u)[0] != 92 {
      assert t[1..] == x;
    } else if |EscapeUnit(u)| == 2 {
      assert t[1..] == [EscapeUnit(u)[1]] + x && t[1..][1..] == x;
    } else {
      assert t[1..] == [117] + (Hex4(u) + x);
      assert t[1..][1..] == Hex4(u) + x;
      Hex4Reads(u, x);
    }
  }

  lemma EmptyReads(x: Text)
    ensures ReadString(QuoteBody([]) + ([34] + x)) == Found([], x)
  {
    assert QuoteBody([]) + ([34] + x) == [34] + x;
    assert ([34] + x)[1..] == x;
  }

  lemma OneReads(u: Unit, more: Text)
    requires ReadString(more).Found?
    ensures ReadString(EscapeUnit(u) + more) == Found([u] + ReadString(more).value, ReadString(more).rest)
  {
    UnitReads(u, more);
  }

  /** A surrogate pair is printed as it is. */
  lemma PairReads(s: Text, more: Text)
    requires |s| >= 2 && IsHigh(s[0]) && IsLow(s[1]) && ReadString(more).Found?
    ensures ReadString(s[..2] + more) == Found([s[0]] + ([s[1]] + ReadString(more).value), ReadString(more).rest)
  {
    var t := s[..2] + more;
    assert t[1..] == [s[1]] + more && ([s[1]] + more)[1..] == more;
    assert ReadString(t[1..]) == Found([s[1]] + ReadString(more).value, ReadString(more).rest);
  }

  /** The first code point of a text, and what is behind it. */
  lemma HeadReads(s: Text, more: Text, rest: Text, x: Text)
    requires s != [] && s[Width(s)..] == rest && ReadString(more) == Found(rest, x)
    ensures ReadString(Escape(s) + more) == Found(s, x)
  {
    if Width(s) == 2 {
      PairReads(s, more);
      assert s == [s[0]] + ([s[1]] + rest);
    } else {
      OneReads(s[0], more);
      assert s == [s[0]] + rest;
    }
  }

  lemma {:induction false} BodyReads(s: Text, x: Text)
    ensures ReadString(QuoteBody(s) + ([34] + x)) == Found(s, x)
  {
    if s == [] {
      EmptyReads(x);
    } else {
      var rest := s[Width(s)..];
      BodyReads(rest, x);
      Assoc(Escape(s), QuoteBody(rest), [34] + x);
      HeadReads(s, QuoteBody(rest) + ([34] + x), rest, x);
    }
  }

  /** What `JSON.stringify` prints for a string reads back as that string. */
  lemma QuoteReads(s: Text, x: Text)
    ensures ReadValue(Quote(s) + x) == Found(Str(s), x)
    ensures Quote(s) + x == [34] + (QuoteBody(s) + ([34] + x))
  {
    assert Quote(s) + x == [34] + (QuoteBody(s) + ([34] + x));
    assert (Quote(s) + x)[1..] == QuoteBody(s) + ([34] + x);
    BodyReads(s, x);
  }

  // ---------- a printed value reads back ----------

  /** The keys of every object, at every depth, are in the order of their code units. */
  ghost predicate KeysSorted(v: Json) {
    match v
    case Arr(items) => forall x <- items :: KeysSorted(x)
    case Obj(keys, fields) => Ascending(keys) && forall k <- fields :: KeysSorted(fields[k])
    case _ => true
  }

  ghost predicate Reads(v: Json, w: Json) { Eqv(v, w) && KeysSorted(w) && WellFormed(w) }

  lemma {:induction false} DigitsRead(d: Text, x: Text)
    requires (forall u <- d :: IsNumberUnit(u)) && Ends(x)
    ensures DigitsOf(d + x) == d
  {
    if d == [] {
      assert d + x == x;
    } else {
      assert d[0] in d;
      DigitsRead(d[1..], x);
      assert (d + x)[1..] == d[1..] + x;
    }
  }

  lemma NumberReads(d: Text, x: Text)
    requires WellFormed(Num(d)) && Ends(x)
    ensures ReadValue(d + x) == Found(Num(d), x)
  {
    DigitsRead(d, x);
    assert d[0] in d && (d + x)[0] == d[0] && (d + x)[|d|..] == x;
  }

  lemma WordReads(word: Text, v: Json, x: Text)
    requires word != []
    ensures ReadWord(word + x, word, v) == Found(v, x)
  {
    assert (word + x)[|word|..] == x;
  }

  /** The canonical text of a value reads as that value, with its keys sorted, and leaves what follows. */
  lemma {:induction false} ValueReads(v: Json, x: Text)
    requires WellFormed(v) && Ends(x)
    ensures var r := ReadValue(Print(v) + x); r.Found? && r.rest == x && Reads(v, r.value)
    decreases v, 2
  {
    Lead(v);
    assert (Print(v) + x)[0] == Print(v)[0];
    match v
    case Num(d) => NumberReads(d, x);
    case Str(s) => QuoteReads(s, x);
    case Arr(_) => ArrayReads(v, x);
    case Obj(_, _) => ObjectReads(v, x);
    case _ => WordReads(Print(v), v, x);
  }

  /** An array that is not empty. */
  lemma BracketReads(body: Text)
    requires body != [] && body[0] != 93 && ReadItems(body).Found?
    ensures ReadValue([91] + body) == Found(Arr(ReadItems(body).value), ReadItems(body).rest)
  {
    assert ([91] + body)[1..] == body && ([91] + body)[1] == body[0];
  }

  lemma {:induction false} ArrayReads(v: Json, x: Text)
    requires WellFormed(v) && v.Arr? && Ends(x)
    ensures var r := ReadValue(Print(v) + x); r.Found? && r.rest == x && Reads(v, r.value)
    decreases v, 1
  {
    PrintArray(v, x);
    var body := ArrayBody(v.items, x);
    if v.items == [] {
      assert ([91] + body)[2..] == x;
      ArrayIs(v, []);
    } else {
      Lead(v.items[0]);
      assert body[0] == Print(v.items[0])[0];
      ItemsRead(v.items, x);
      BracketReads(body);
      ArrayIs(v, ReadItems(body).value);
    }
  }

  ghost predicate ReadAll(items: seq<Json>, read: seq<Json>) {
    |read| == |items| && forall i :: 0 <= i < |items| ==> Reads(items[i], read[i])
  }

  lemma ArrayIs(v: Json, items: seq<Json>)
    requires v.Arr? && ReadAll(v.items, items)
    ensures Reads(v, Arr(items))
  {
  }

  /** An item, and then the closing bracket or another one. */
  lemma ItemStep(t: Text, w: Json, rest: Text)
    requires ReadValue(t) == Found(w, rest) && rest != []
    ensures rest[0] == 93 ==> ReadItems(t) == Found([w], rest[1..])
    ensures rest[0] == 44 && ReadItems(rest[1..]).Found? ==>
            ReadItems(t) == Found([w] + ReadItems(rest[1..]).value, ReadItems(rest[1..]).rest)
  {
  }

  lemma ReadAllCons(items: seq<Json>, w: Json, more: seq<Json>)
    requires items != [] && Reads(items[0], w) && ReadAll(items[1..], more)
    ensures ReadAll(items, [w] + more)
  {
    assert items == [items[0]] + items[1..];
  }

  lemma {:induction false} ItemsRead(items: seq<Json>, x: Text)
    requires (forall i <- items :: WellFormed(i)) && items != [] && Ends(x)
    ensures var r := ReadItems(ArrayBody(items, x)); r.Found? && r.rest == x && ReadAll(items, r.value)
    decreases items, 0
  {
    var rest := PrintItems(items[1..]) + ([93] + x);
    EndsItems(items[1..], x);
    ValueReads(items[0], rest);
    var w := ReadValue(Print(items[0]) + rest).value;
    ItemStep(ArrayBody(items, x), w, rest);
    if items[1..] == [] {
      LastItem(items, x);
      ReadAllCons(items, w, []);
    } else {
      assert rest[1..] == ArrayBody(items[1..], x);
      ItemsRead(items[1..], x);
      ReadAllCons(items, w, ReadItems(ArrayBody(items[1..], x)).value);
    }
  }

  lemma LastItem(items: seq<Json>, x: Text)
    requires items != [] && items[1..] == []
    ensures (PrintItems(items[1..]) + ([93] + x))[1..] == x
  {
    assert PrintItems(items[1..]) + ([93] + x) == [93] + x;
  }

  /** An object that is not empty. */
  lemma BraceReads(body: Text)
    requires body != [] && body[0] != 125 && ReadEntries(body).Found?
    ensures var r := ReadEntries(body); ReadValue([123] + body) == Found(Obj(r.value.0, r.value.1), r.rest)
  {
    assert ([123] + body)[1..] == body && ([123] + body)[1] == body[0];
  }

  lemma {:induction false} ObjectReads(v: Json, x: Text)
    requires WellFormed(v) && v.Obj? && Ends(x)
    ensures var r := ReadValue(Print(v) + x); r.Found? && r.rest == x && Reads(v, r.value)
    decreases v, 1
  {
    SortKeysSorts(v.keys);
    var ks := SortKeys(v.keys);
    PrintObject(v, ks, x);
    var body := ObjectBody(v, ks, x);
    BodyLead(v, ks, x);
    if ks == [] {
      assert ([123] + body)[2..] == x;
      ObjectIs(v, ks, map[]);
    } else {
      EntriesRead(v, ks, x);
      BraceReads(body);
      ObjectIs(v, ks, ReadEntries(body).value.1);
    }
  }

  lemma ObjectIs(v: Json, ks: seq<Text>, fields: map<Text, Json>)
    requires WellFormed(v) && v.Obj? && Ascending(ks) && (forall k :: k in ks <==> k in v.keys)
    requires (forall k :: k in fields <==> k in ks) && forall k <- ks :: k in v.fields && Reads(v.fields[k], fields[k])
    ensures Reads(v, Obj(ks, fields))
  {
    assert forall k :: k in fields <==> k in v.fields;
    assert fields.Keys == v.fields.Keys;
    AscendingDistinct(ks);
  }

  lemma AscendingDistinct(ks: seq<Text>)
    requires Ascending(ks)
    ensures Distinct(ks)
  {
    forall i, j | 0 <= i < j < |ks| ensures ks[i] != ks[j] {
      LessTotal(ks[i], ks[j]);
      LessTotal(ks[i], ks[i]);
    }
  }

  /** A key and its value, and then the closing brace or another entry. */
  lemma EntryStep(t: Text, k: Text, y: Text, w: Json, rest: Text)
    requires t != [] && t[0] == 34 && ReadString(t[1..]) == Found(k, [58] + y)
    requires ReadValue(y) == Found(w, rest) && rest != []
    ensures rest[0] == 125 ==> ReadEntries(t) == Found(([k], map[k := w]), rest[1..])
    ensures rest[0] == 44 && ReadEntries(rest[1..]).Found? && k !in ReadEntries(rest[1..]).value.1 ==>
            var more := ReadEntries(rest[1..]);
            ReadEntries(t) == Found(([k] + more.value.0, more.value.1[k := w]), more.rest)
  {
    assert ([58] + y)[1..] == y && ([58] + y)[0] == 58;
  }

  /** These entries of an object were read, and this is behind them. */
  ghost predicate AreEntries(r: Found<(seq<Text>, map<Text, Json>)>, v: Json, ks: seq<Text>, x: Text)
    requires v.Obj? && forall k <- ks :: k in v.fields
  {
    r.Found? && r.rest == x && r.value.0 == ks && (forall k :: k in r.value.1 <==> k in ks) &&
    forall k <- ks :: Reads(v.fields[k], r.value.1[k])
  }

  lemma EntriesCons(v: Json, ks: seq<Text>, w: Json, more: Found<(seq<Text>, map<Text, Json>)>, x: Text)
    requires v.Obj? && ks != [] && Ascending(ks) && (forall k <- ks :: k in v.fields) && Reads(v.fields[ks[0]], w)
    requires (forall k <- ks[1..] :: k in v.fields) && AreEntries(more, v, ks[1..], x)
    ensures ks[0] !in more.value.1
    ensures AreEntries(Found(([ks[0]] + more.value.0, more.value.1[ks[0] := w]), x), v, ks, x)
  {
    AscendingHead(ks);
    assert ks == [ks[0]] + ks[1..];
  }

  lemma {:induction false} EntriesRead(v: Json, ks: seq<Text>, x: Text)
    requires WellFormed(v) && v.Obj? && Ends(x) && ks != [] && Ascending(ks) && forall k <- ks :: k in v.fields
    ensures AreEntries(ReadEntries(ObjectBody(v, ks, x)), v, ks, x)
    decreases v, 0, |ks|
  {
    var k, rest := ks[0], PrintEntries(v, ks[1..]) + ([125] + x);
    AscendingHead(ks);
    EndsEntries(v, ks[1..], x);
    var w := EntryReads(v, k, rest);
    EntryStep(ObjectBody(v, ks, x), k, Print(v.fields[k]) + rest, w, rest);
    if ks[1..] == [] {
      assert rest[1..] == x && ks == [k];
    } else {
      assert rest[1..] == ObjectBody(v, ks[1..], x);
      EntriesRead(v, ks[1..], x);
      EntriesCons(v, ks, w, ReadEntries(ObjectBody(v, ks[1..], x)), x);
    }
  }

  /** One key and its value. */
  lemma {:induction false} EntryReads(v: Json, k: Text, rest: Text) returns (w: Json)
    requires WellFormed(v) && v.Obj? && k in v.fields && Ends(rest)
    ensures var t, y := PrintEntry(v, k) + rest, Print(v.fields[k]) + rest;
            && t != [] && t[0] == 34 && ReadString(t[1..]) == Found(k, [58] + y)
            && ReadValue(y) == Found(w, rest) && Reads(v.fields[k], w)
    decreases v, 0, 0
  {
    var y := Print(v.fields[k]) + rest;
    Entry(Quote(k), Print(v.fields[k]), rest);
    QuoteReads(k, [58] + y);
    BodyReads(k, [58] + y);
    var t := PrintEntry(v, k) + rest;
    assert t == [34] + (QuoteBody(k) + ([34] + ([58] + y)));
    assert t[1..] == QuoteBody(k) + ([34] + ([58] + y));
    ValueReads(v.fields[k], rest);
    w := ReadValue(y).value;
  }

  /** The whole text: `JSON.parse` of a canonical text is the payload up to the order of keys. */
  lemma CanonicalReadsBack(v: Json)
    requires WellFormed(v)
    ensures var r := ReadValue(Print(v));
            r.Found? && r.rest == [] && Eqv(v, r.value) && KeysSorted(r.value) && WellFormed(r.value)
  {
    ValueReads(v, []);
    assert Print(v) + [] == Print(v);
  }

  /** So the canonical text is a fixed point: a payload that is read back has the same text and hash. */
  lemma PrintReadPrint(v: Json)
    requires WellFormed(v)
    ensures ReadValue(Print(v)).Found? && WellFormed(ReadValue(Print(v)).value) &&
            Print(ReadValue(Print(v)).value) == Print(v)
  {
    CanonicalReadsBack(v);
    EqvPrint(v, ReadValue(Print(v)).value);
  }
}
