/** The canonical text of an approval payload (`stableJson` in src/agents/service.ts): object keys
    sorted, scalars as JSON.stringify prints them. Approvals are looked up by the hash of this
    text, so the text must tell two payloads apart exactly when they are different values. */
module CanonicalJson {
  import opened JsonValues
  import opened Utf16

  // ---------- strings, quoted as in section 7 of RFC 8259 ----------

  function Hex(d: nat): Unit
    requires d < 16
  {
    if d < 10 then 48 + d else 87 + d
  }

  function Hex4(u: Unit): Text {
    [Hex(u / 4096), Hex(u / 256 % 16), Hex(u / 16 % 16), Hex(u % 16)]
  }

  /** One unit that is not half of a surrogate pair. */
  function EscapeUnit(u: Unit): Text {
    if u == 34 then [92, 34]
    else if u == 92 then [92, 92]
    else if u == 8 then [92, 98]
    else if u == 12 then [92, 102]
    else if u == 10 then [92, 110]
    else if u == 13 then [92, 114]
    else if u == 9 then [92, 116]
    else if u < 32 || IsHigh(u) || IsLow(u) then [92, 117] + Hex4(u)
    else [u]
  }

  /** The first code point of a text as it is printed between the quotes. */
  function Escape(s: Text): Text
    requires s != []
  {
    if Width(s) == 2 then s[..2] else EscapeUnit(s[0])
  }

  function QuoteBody(s: Text): Text {
    if s == [] then [] else Escape(s) + QuoteBody(s[Width(s)..])
  }

  function Quote(s: Text): Text { [34] + QuoteBody(s) + [34] }

  // ---------- the printer ----------

  function InsertKey(k: Text, ks: seq<Text>): seq<Text> {
    if ks == [] || Less(k, ks[0]) then [k] + ks else [ks[0]] + InsertKey(k, ks[1..])
  }

  function SortKeys(ks: seq<Text>): seq<Text> {
    if ks == [] then [] else InsertKey(ks[0], SortKeys(ks[1..]))
  }

  function Print(v: Json): Text
    requires WellFormed(v)
    decreases v, 1
  {
    match v
    case Null => [110, 117, 108, 108]
    case Bool(true) => [116, 114, 117, 101]
    case Bool(false) => [102, 97, 108, 115, 101]
    case Num(d) => d
    case Str(s) => Quote(s)
    case Arr(items) => [91] + (if items == [] then [] else Print(items[0]) + PrintItems(items[1..])) + [93]
    case Obj(keys, _) =>
      SortKeysSorts(keys);
      var ks := SortKeys(keys);
      [123] + (if ks == [] then [] else PrintEntry(v, ks[0]) + PrintEntries(v, ks[1..])) + [125]
  }

  /** The items after the first, each behind its comma. */
  function PrintItems(items: seq<Json>): Text
    requires forall x <- items :: WellFormed(x)
    decreases items, 0
  {
    if items == [] then [] else [44] + Print(items[0]) + PrintItems(items[1..])
  }

  function PrintEntry(v: Json, k: Text): Text
    requires WellFormed(v) && v.Obj? && k in v.fields
    decreases v, 0, 0
  {
    Quote(k) + [58] + Print(v.fields[k])
  }

  function PrintEntries(v: Json, ks: seq<Text>): Text
    requires WellFormed(v) && v.Obj? && forall k <- ks :: k in v.fields
    decreases v, 0, |ks| + 1
  {
    if ks == [] then [] else [44] + PrintEntry(v, ks[0]) + PrintEntries(v, ks[1..])
  }

  // ---------- sorting ----------

  lemma {:induction false} InsertKeySorts(k: Text, ks: seq<Text>)
    requires Ascending(ks) && k !in ks
    ensures Ascending(InsertKey(k, ks))
    ensures forall x :: x in InsertKey(k, ks) <==> x == k || x in ks
  {
    if ks == [] {
    } else if Less(k, ks[0]) {
      forall i | 0 <= i < |ks| ensures Less(k, ks[i]) {
        if i > 0 {
          LessTrans(k, ks[0], ks[i]);
        }
      }
    } else {
      var rest := InsertKey(k, ks[1..]);
      InsertKeySorts(k, ks[1..]);
      LessTotal(k, ks[0]);
      forall i | 0 <= i < |rest| ensures Less(ks[0], rest[i]) {
        assert rest[i] in rest;
      }
      assert ks == [ks[0]] + ks[1..];
    }
  }

  lemma {:induction false} SortKeysSorts(ks: seq<Text>)
    requires Distinct(ks)
    ensures Ascending(SortKeys(ks))
    ensures forall x :: x in SortKeys(ks) <==> x in ks
  {
    if ks != [] {
      SortKeysSorts(ks[1..]);
      assert ks[0] !in ks[1..];
      InsertKeySorts(ks[0], SortKeys(ks[1..]));
      assert ks == [ks[0]] + ks[1..];
    }
  }

  // ---------- quoting is unambiguous ----------

  lemma HexInjective(d: nat, e: nat)
    requires d < 16 && e < 16 && Hex(d) == Hex(e)
    ensures d == e
  {
  }

  lemma HexDigits(u: Unit)
    ensures u == u / 4096 * 4096 + u / 256 % 16 * 256 + u / 16 % 16 * 16 + u % 16
  {
    var a, b := u / 16, u / 256;
    assert a / 16 == b && b / 16 == u / 4096;
    assert u == a * 16 + u % 16 && a == b * 16 + a % 16 && b == u / 4096 * 16 + b % 16;
  }

  lemma Hex4Injective(u: Unit, w: Unit)
    requires Hex4(u) == Hex4(w)
    ensures u == w
  {
    assert Hex4(u)[0] == Hex4(w)[0] && Hex4(u)[1] == Hex4(w)[1] && Hex4(u)[2] == Hex4(w)[2] && Hex4(u)[3] == Hex4(w)[3];
    HexInjective(u / 4096, w / 4096);
    HexInjective(u / 256 % 16, w / 256 % 16);
    HexInjective(u / 16 % 16, w / 16 % 16);
    HexInjective(u % 16, w % 16);
    HexDigits(u);
    HexDigits(w);
  }

  /** No escaped unit is a prefix of another's. */
  lemma EscapeUnitUnique(u: Unit, w: Unit, p: Text, q: Text)
    requires EscapeUnit(u) + p == EscapeUnit(w) + q
    ensures u == w && p == q
  {
    var x, y := EscapeUnit(u) + p, EscapeUnit(w) + q;
    assert x[0] == y[0] && x[0] == EscapeUnit(u)[0] && y[0] == EscapeUnit(w)[0];
    if x[0] == 92 {
      assert x[1] == y[1] && x[1] == EscapeUnit(u)[1] && y[1] == EscapeUnit(w)[1];
      if x[1] == 117 {
        assert Hex4(u) == x[2..6] == y[2..6] == Hex4(w);
        Hex4Injective(u, w);
      }
    }
    assert u == w;
    assert p == x[|EscapeUnit(u)|..] && q == y[|EscapeUnit(w)|..];
  }

  lemma EscapeUnique(s: Text, t: Text, p: Text, q: Text)
    requires s != [] && t != [] && Escape(s) + p == Escape(t) + q
    ensures Width(s) == Width(t) && s[..Width(s)] == t[..Width(t)] && p == q
  {
    var x, y := Escape(s) + p, Escape(t) + q;
    assert x[0] == Escape(s)[0] && y[0] == Escape(t)[0];
    assert IsHigh(x[0]) <==> Width(s) == 2;
    assert IsHigh(y[0]) <==> Width(t) == 2;
    if Width(s) == 2 {
      assert x[..2] == s[..2] && y[..2] == t[..2];
      assert p == x[2..] && q == y[2..];
    } else {
      EscapeUnitUnique(s[0], t[0], p, q);
    }
  }

  lemma {:induction false} QuoteBodyUnique(s: Text, t: Text, x: Text, y: Text)
    requires QuoteBody(s) + ([34] + x) == QuoteBody(t) + ([34] + y)
    ensures s == t && x == y
  {
    if s != [] {
      Assoc(Escape(s), QuoteBody(s[Width(s)..]), [34] + x);
      assert (QuoteBody(s) + ([34] + x))[0] == Escape(s)[0] != 34;
    }
    if t != [] {
      Assoc(Escape(t), QuoteBody(t[Width(t)..]), [34] + y);
      assert (QuoteBody(t) + ([34] + y))[0] == Escape(t)[0] != 34;
    }
    if s == [] || t == [] {
      assert [] + ([34] + x) == [34] + x && [] + ([34] + y) == [34] + y;
      Cancel(34, x, 34, y);
    } else {
      var s', t' := s[Width(s)..], t[Width(t)..];
      EscapeUnique(s, t, QuoteBody(s') + ([34] + x), QuoteBody(t') + ([34] + y));
      QuoteBodyUnique(s', t', x, y);
      assert s == s[..Width(s)] + s' && t == t[..Width(t)] + t';
    }
  }

  lemma QuoteUnique(s: Text, t: Text, x: Text, y: Text)
    requires Quote(s) + x == Quote(t) + y
    ensures s == t && x == y
  {
    Bracketed(34, QuoteBody(s), [], 34, x);
    Bracketed(34, QuoteBody(t), [], 34, y);
    assert QuoteBody(s) + [] == QuoteBody(s) && QuoteBody(t) + [] == QuoteBody(t);
    assert [] + ([34] + x) == [34] + x && [] + ([34] + y) == [34] + y;
    Cancel(34, QuoteBody(s) + ([34] + x), 34, QuoteBody(t) + ([34] + y));
    QuoteBodyUnique(s, t, x, y);
  }

  // ---------- regrouping of texts ----------

  lemma Assoc(a: Text, b: Text, c: Text)
    ensures a + b + c == a + (b + c)
  {
  }

  lemma Cancel(u: Unit, s: Text, w: Unit, t: Text)
    requires [u] + s == [w] + t
    ensures u == w && s == t
  {
    assert ([u] + s)[0] == u && ([w] + t)[0] == w;
    assert s == ([u] + s)[1..] && t == ([w] + t)[1..];
  }

  lemma CancelPrefix(a: Text, x: Text, y: Text)
    requires a + x == a + y
    ensures x == y
  {
    assert x == (a + x)[|a|..] && y == (a + y)[|a|..];
  }

  lemma Bracketed(o: Unit, p: Text, q: Text, c: Unit, x: Text)
    ensures [o] + (p + q) + [c] + x == [o] + (p + (q + ([c] + x)))
  {
  }

  lemma Listed(p: Text, q: Text, c: Unit, x: Text)
    ensures [44] + p + q + ([c] + x) == [44] + (p + (q + ([c] + x)))
  {
  }

  // ---------- the printer is unambiguous ----------

  /** What may follow a printed value: nothing, a comma, or a closing bracket. */
  predicate Ends(x: Text) { x == [] || x[0] == 44 || x[0] == 93 || x[0] == 125 }

  /** The first unit of a printed value tells what kind of value it is. */
  lemma Lead(v: Json)
    requires WellFormed(v)
    ensures Print(v) != []
    ensures match v
            case Null => Print(v)[0] == 110
            case Bool(b) => Print(v)[0] == if b then 116 else 102
            case Num(_) => 48 <= Print(v)[0] <= 57 || Print(v)[0] == 45
            case Str(_) => Print(v)[0] == 34
            case Arr(_) => Print(v)[0] == 91
            case Obj(_, _) => Print(v)[0] == 123
  {
  }

  lemma NumberEnd(d: Text, e: Text, x: Text, y: Text)
    requires Ends(x) && d + x == e + y && |d| < |e|
    ensures e[|d|] in e && !IsNumberUnit(e[|d|])
  {
    assert (d + x)[|d|] == x[0] && (e + y)[|d|] == e[|d|];
  }

  lemma NumberUnique(d: Text, e: Text, x: Text, y: Text)
    requires (forall u <- d :: IsNumberUnit(u)) && (forall u <- e :: IsNumberUnit(u))
    requires Ends(x) && Ends(y) && d + x == e + y
    ensures d == e && x == y
  {
    if |d| < |e| {
      NumberEnd(d, e, x, y);
    } else if |e| < |d| {
      NumberEnd(e, d, y, x);
    }
    assert d == (d + x)[..|d|] && e == (e + y)[..|e|];
    CancelPrefix(d, x, y);
  }

  lemma {:induction false} PrintUnique(v: Json, w: Json, x: Text, y: Text)
    requires WellFormed(v) && WellFormed(w) && Ends(x) && Ends(y)
    requires Print(v) + x == Print(w) + y
    ensures Eqv(v, w) && x == y
    decreases v, 2
  {
    Lead(v);
    Lead(w);
    assert (Print(v) + x)[0] == Print(v)[0] && (Print(w) + y)[0] == Print(w)[0];
    match v
    case Num(d) => NumberUnique(d, w.digits, x, y);
    case Str(s) => QuoteUnique(s, w.text, x, y);
    case Arr(_) => ArrayUnique(v, w, x, y);
    case Obj(_, _) => ObjectUnique(v, w, x, y);
    case _ => CancelPrefix(Print(v), x, y);
  }

  /** What an array prints after its opening bracket, up to and including what follows it. */
  function ArrayBody(items: seq<Json>, x: Text): Text
    requires forall i <- items :: WellFormed(i)
  {
    if items == [] then [93] + x else Print(items[0]) + (PrintItems(items[1..]) + ([93] + x))
  }

  lemma PrintArray(v: Json, x: Text)
    requires WellFormed(v) && v.Arr?
    ensures Print(v) + x == [91] + ArrayBody(v.items, x)
  {
    if v.items == [] {
      assert Print(v) == [91] + [] + [93];
      assert [91] + [] + [93] + x == [91] + ([93] + x);
    } else {
      Bracketed(91, Print(v.items[0]), PrintItems(v.items[1..]), 93, x);
    }
  }

  lemma {:induction false} ArrayUnique(v: Json, w: Json, x: Text, y: Text)
    requires WellFormed(v) && WellFormed(w) && v.Arr? && w.Arr? && Ends(x) && Ends(y)
    requires Print(v) + x == Print(w) + y
    ensures Eqv(v, w) && x == y
    decreases v, 1
  {
    var a, b := v.items, w.items;
    PrintArray(v, x);
    PrintArray(w, y);
    Cancel(91, ArrayBody(a, x), 91, ArrayBody(b, y));
    if a != [] {
      Lead(a[0]);
    }
    if b != [] {
      Lead(b[0]);
    }
    assert ArrayBody(a, x)[0] == ArrayBody(b, y)[0];
    if a == [] || b == [] {
      Cancel(93, x, 93, y);
    } else {
      BodiesUnique(a, b, x, y);
    }
  }

  lemma {:induction false} BodiesUnique(a: seq<Json>, b: seq<Json>, x: Text, y: Text)
    requires (forall i <- a :: WellFormed(i)) && (forall i <- b :: WellFormed(i)) && Ends(x) && Ends(y)
    requires a != [] && b != [] && ArrayBody(a, x) == ArrayBody(b, y)
    ensures |a| == |b| && (forall i :: 0 <= i < |a| ==> Eqv(a[i], b[i])) && x == y
    decreases a, 1
  {
    EndsItems(a[1..], x);
    EndsItems(b[1..], y);
    PrintUnique(a[0], b[0], PrintItems(a[1..]) + ([93] + x), PrintItems(b[1..]) + ([93] + y));
    ItemsUnique(a[1..], b[1..], x, y);
    assert a == [a[0]] + a[1..] && b == [b[0]] + b[1..];
  }

  lemma EndsItems(a: seq<Json>, x: Text)
    requires forall i <- a :: WellFormed(i)
    ensures Ends(PrintItems(a) + ([93] + x))
    ensures (PrintItems(a) + ([93] + x))[0] == if a == [] then 93 else 44
    ensures a != [] ==> PrintItems(a) + ([93] + x) == [44] + (Print(a[0]) + (PrintItems(a[1..]) + ([93] + x)))
  {
    if a != [] {
      Listed(Print(a[0]), PrintItems(a[1..]), 93, x);
    }
  }

  lemma {:induction false} ItemsUnique(a: seq<Json>, b: seq<Json>, x: Text, y: Text)
    requires (forall i <- a :: WellFormed(i)) && (forall i <- b :: WellFormed(i)) && Ends(x) && Ends(y)
    requires PrintItems(a) + ([93] + x) == PrintItems(b) + ([93] + y)
    ensures |a| == |b| && (forall i :: 0 <= i < |a| ==> Eqv(a[i], b[i])) && x == y
    decreases a, 0
  {
    EndsItems(a, x);
    EndsItems(b, y);
    if a == [] {
      assert b == [];
      CancelPrefix([], [93] + x, [93] + y);
      Cancel(93, x, 93, y);
    } else {
      EndsItems(a[1..], x);
      EndsItems(b[1..], y);
      var p, q := PrintItems(a[1..]) + ([93] + x), PrintItems(b[1..]) + ([93] + y);
      Cancel(44, Print(a[0]) + p, 44, Print(b[0]) + q);
      PrintUnique(a[0], b[0], p, q);
      ItemsUnique(a[1..], b[1..], x, y);
      assert a == [a[0]] + a[1..] && b == [b[0]] + b[1..];
    }
  }

  /** What an object prints after its opening brace, up to and including what follows it. */
  function ObjectBody(v: Json, ks: seq<Text>, x: Text): Text
    requires WellFormed(v) && v.Obj? && forall k <- ks :: k in v.fields
  {
    if ks == [] then [125] + x else PrintEntry(v, ks[0]) + (PrintEntries(v, ks[1..]) + ([125] + x))
  }

  lemma PrintObject(v: Json, ks: seq<Text>, x: Text)
    requires WellFormed(v) && v.Obj? && ks == SortKeys(v.keys) && forall k <- ks :: k in v.fields
    ensures Print(v) + x == [123] + ObjectBody(v, ks, x)
  {
    if ks == [] {
      assert Print(v) == [123] + [] + [125];
      assert [123] + [] + [125] + x == [123] + ([125] + x);
    } else {
      Bracketed(123, PrintEntry(v, ks[0]), PrintEntries(v, ks[1..]), 125, x);
    }
  }

  lemma {:induction false} ObjectUnique(v: Json, w: Json, x: Text, y: Text)
    requires WellFormed(v) && WellFormed(w) && v.Obj? && w.Obj? && Ends(x) && Ends(y)
    requires Print(v) + x == Print(w) + y
    ensures Eqv(v, w) && x == y
    decreases v, 1
  {
    SortKeysSorts(v.keys);
    SortKeysSorts(w.keys);
    var ks, ls := SortKeys(v.keys), SortKeys(w.keys);
    PrintObject(v, ks, x);
    PrintObject(w, ls, y);
    Cancel(123, ObjectBody(v, ks, x), 123, ObjectBody(w, ls, y));
    BodyUnique(v, w, ks, ls, x, y);
    SameFields(v, w, ks, ls);
  }

  lemma BodyLead(v: Json, ks: seq<Text>, x: Text)
    requires WellFormed(v) && v.Obj? && forall k <- ks :: k in v.fields
    ensures |ObjectBody(v, ks, x)| > 0 && ObjectBody(v, ks, x)[0] == if ks == [] then 125 else 34
  {
    if ks != [] {
      Assoc(Quote(ks[0]), [58], Print(v.fields[ks[0]]));
    }
  }

  lemma {:induction false} BodyUnique(v: Json, w: Json, ks: seq<Text>, ls: seq<Text>, x: Text, y: Text)
    requires WellFormed(v) && WellFormed(w) && v.Obj? && w.Obj? && Ends(x) && Ends(y)
    requires (forall k <- ks :: k in v.fields) && (forall k <- ls :: k in w.fields)
    requires ObjectBody(v, ks, x) == ObjectBody(w, ls, y)
    ensures ks == ls && (forall k <- ks :: Eqv(v.fields[k], w.fields[k])) && x == y
    decreases v, 0, 2 * |ks| + 1
  {
    BodyLead(v, ks, x);
    BodyLead(w, ls, y);
    if ks == [] {
      assert ls == [];
      Cancel(125, x, 125, y);
    } else {
      EndsEntries(v, ks[1..], x);
      EndsEntries(w, ls[1..], y);
      EntryUnique(v, w, ks[0], ls[0], PrintEntries(v, ks[1..]) + ([125] + x), PrintEntries(w, ls[1..]) + ([125] + y));
      EntriesUnique(v, w, ks[1..], ls[1..], x, y);
      Consed(ks, ls);
    }
  }

  lemma Consed(ks: seq<Text>, ls: seq<Text>)
    requires ks != [] && ls != [] && ks[0] == ls[0] && ks[1..] == ls[1..]
    ensures ks == ls
    ensures forall k :: k in ks <==> k == ks[0] || k in ks[1..]
  {
    assert ks == [ks[0]] + ks[1..] && ls == [ls[0]] + ls[1..];
  }

  lemma SameFields(v: Json, w: Json, ks: seq<Text>, ls: seq<Text>)
    requires WellFormed(v) && WellFormed(w) && v.Obj? && w.Obj?
    requires (forall k :: k in ks <==> k in v.keys) && (forall k :: k in ls <==> k in w.keys)
    requires ks == ls && forall k <- ks :: k in v.fields && k in w.fields && Eqv(v.fields[k], w.fields[k])
    ensures Eqv(v, w)
  {
    assert forall k :: k in v.fields <==> k in w.fields;
    assert v.fields.Keys == w.fields.Keys;
  }

  lemma {:induction false} EntryUnique(v: Json, w: Json, k: Text, l: Text, x: Text, y: Text)
    requires WellFormed(v) && WellFormed(w) && v.Obj? && w.Obj? && k in v.fields && l in w.fields && Ends(x) && Ends(y)
    requires PrintEntry(v, k) + x == PrintEntry(w, l) + y
    ensures k == l && Eqv(v.fields[k], w.fields[l]) && x == y
    decreases v, 0, 0
  {
    var p, q := Print(v.fields[k]) + x, Print(w.fields[l]) + y;
    Entry(Quote(k), Print(v.fields[k]), x);
    Entry(Quote(l), Print(w.fields[l]), y);
    QuoteUnique(k, l, [58] + p, [58] + q);
    Cancel(58, p, 58, q);
    PrintUnique(v.fields[k], w.fields[l], x, y);
  }

  lemma Entry(k: Text, p: Text, x: Text)
    ensures k + [58] + p + x == k + ([58] + (p + x))
  {
  }

  lemma EndsEntries(v: Json, ks: seq<Text>, x: Text)
    requires WellFormed(v) && v.Obj? && forall k <- ks :: k in v.fields
    ensures Ends(PrintEntries(v, ks) + ([125] + x))
    ensures (PrintEntries(v, ks) + ([125] + x))[0] == if ks == [] then 125 else 44
    ensures PrintEntries(v, ks) + ([125] + x) == if ks == [] then [125] + x else [44] + ObjectBody(v, ks, x)
  {
    if ks != [] {
      Listed(PrintEntry(v, ks[0]), PrintEntries(v, ks[1..]), 125, x);
    }
  }

  lemma {:induction false} EntriesUnique(v: Json, w: Json, ks: seq<Text>, ls: seq<Text>, x: Text, y: Text)
    requires WellFormed(v) && WellFormed(w) && v.Obj? && w.Obj? && Ends(x) && Ends(y)
    requires (forall k <- ks :: k in v.fields) && (forall k <- ls :: k in w.fields)
    requires PrintEntries(v, ks) + ([125] + x) == PrintEntries(w, ls) + ([125] + y)
    ensures ks == ls && (forall k <- ks :: Eqv(v.fields[k], w.fields[k])) && x == y
    decreases v, 0, 2 * |ks| + 2
  {
    EndsEntries(v, ks, x);
    EndsEntries(w, ls, y);
    if ks == [] {
      assert ls == [];
      Cancel(125, x, 125, y);
    } else {
      Cancel(44, ObjectBody(v, ks, x), 44, ObjectBody(w, ls, y));
      BodyUnique(v, w, ks, ls, x, y);
    }
  }

  // ---------- equal values print alike ----------

  lemma {:induction false} EqvPrint(v: Json, w: Json)
    requires WellFormed(v) && WellFormed(w) && Eqv(v, w)
    ensures Print(v) == Print(w)
    decreases v, 1
  {
    match v
    case Arr(a) =>
      EqvItems(a, w.items);
      if a != [] {
        EqvPrint(a[0], w.items[0]);
        EqvItems(a[1..], w.items[1..]);
      }
    case Obj(keys, fields) =>
      SortKeysSorts(keys);
      SortKeysSorts(w.keys);
      var ks := SortKeys(keys);
      assert forall k :: k in keys <==> k in fields.Keys;
      assert forall k :: k in w.keys <==> k in w.fields.Keys;
      AscendingUnique(ks, SortKeys(w.keys));
      if ks != [] {
        EqvPrint(fields[ks[0]], w.fields[ks[0]]);
        EqvEntries(v, w, ks[1..]);
      }
    case _ =>
  }

  lemma {:induction false} EqvItems(a: seq<Json>, b: seq<Json>)
    requires (forall i <- a :: WellFormed(i)) && (forall i <- b :: WellFormed(i))
    requires |a| == |b| && forall i :: 0 <= i < |a| ==> Eqv(a[i], b[i])
    ensures PrintItems(a) == PrintItems(b)
    decreases a, 0
  {
    if a != [] {
      EqvPrint(a[0], b[0]);
      EqvItems(a[1..], b[1..]);
    }
  }

  lemma {:induction false} EqvEntries(v: Json, w: Json, ks: seq<Text>)
    requires WellFormed(v) && WellFormed(w) && v.Obj? && w.Obj? && Eqv(v, w)
    requires forall k <- ks :: k in v.fields && k in w.fields
    ensures PrintEntries(v, ks) == PrintEntries(w, ks)
    decreases v, 0, |ks|
  {
    if ks != [] {
      EqvPrint(v.fields[ks[0]], w.fields[ks[0]]);
      EqvEntries(v, w, ks[1..]);
    }
  }

  /** Two payloads have the same canonical text exactly when they are the same value up to key order. */
  lemma CanonicalTextIff(v: Json, w: Json)
    requires WellFormed(v) && WellFormed(w)
    ensures Print(v) == Print(w) <==> Eqv(v, w)
  {
    if Print(v) == Print(w) {
      PrintUnique(v, w, [], []);
    }
    if Eqv(v, w) {
      EqvPrint(v, w);
    }
  }
}
