/** JSON values as JavaScript holds them: text is a sequence of UTF-16 code units, an object has
    an order of keys as well as the values under them. */
module JsonValues {
  import opened Utf16

  /** A number is its JSON text: JSON.stringify prints one text per value. */
  datatype Json =
    | Null
    | Bool(flag: bool)
    | Num(digits: Text)
    | Str(text: Text)
    | Arr(items: seq<Json>)
    | Obj(keys: seq<Text>, fields: map<Text, Json>)

  /** Digits, sign, point and exponent mark. */
  predicate IsNumberUnit(u: Unit) {
    48 <= u <= 57 || u == 43 || u == 45 || u == 46 || u == 69 || u == 101
  }

  ghost predicate Distinct(ks: seq<Text>) {
    forall i, j :: 0 <= i < j < |ks| ==> ks[i] != ks[j]
  }

  ghost predicate WellFormed(v: Json) {
    match v
    case Num(d) => d != [] && (IsNumberUnit(d[0]) && d[0] != 43 && d[0] != 46 && d[0] != 69 && d[0] != 101)
                   && forall u <- d :: IsNumberUnit(u)
    case Arr(items) => forall x <- items :: WellFormed(x)
    case Obj(keys, fields) =>
      Distinct(keys) && (forall k :: k in keys <==> k in fields) && forall k <- fields :: WellFormed(fields[k])
    case _ => true
  }

  /** The same JSON value up to the order of object keys, at every depth. */
  ghost predicate Eqv(v: Json, w: Json) {
    match (v, w)
    case (Arr(x), Arr(y)) => |x| == |y| && forall i :: 0 <= i < |x| ==> Eqv(x[i], y[i])
    case (Obj(_, f), Obj(_, g)) => f.Keys == g.Keys && forall k <- f :: Eqv(f[k], g[k])
    case _ => v == w && !v.Arr? && !v.Obj?
  }

  lemma {:induction false} EqvRefl(v: Json)
    ensures Eqv(v, v)
  {
    match v
    case Arr(items) =>
      forall i | 0 <= i < |items| ensures Eqv(items[i], items[i]) {
        EqvRefl(items[i]);
      }
    case Obj(keys, fields) =>
      forall k <- fields ensures Eqv(fields[k], fields[k]) {
        EqvRefl(fields[k]);
      }
    case _ =>
  }

  lemma {:induction false} EqvSym(v: Json, w: Json)
    requires Eqv(v, w)
    ensures Eqv(w, v)
  {
    match v
    case Arr(x) =>
      forall i | 0 <= i < |x| ensures Eqv(w.items[i], x[i]) {
        EqvSym(x[i], w.items[i]);
      }
    case Obj(_, f) =>
      forall k <- w.fields ensures Eqv(w.fields[k], f[k]) {
        EqvSym(f[k], w.fields[k]);
      }
    case _ =>
  }

  lemma {:induction false} EqvTrans(u: Json, v: Json, w: Json)
    requires Eqv(u, v) && Eqv(v, w)
    ensures Eqv(u, w)
  {
    match u
    case Arr(x) =>
      forall i | 0 <= i < |x| ensures Eqv(x[i], w.items[i]) {
        EqvTrans(x[i], v.items[i], w.items[i]);
      }
    case Obj(_, f) =>
      forall k <- f ensures Eqv(f[k], w.fields[k]) {
        EqvTrans(f[k], v.fields[k], w.fields[k]);
      }
    case _ =>
  }

  // ---------- the order of texts ----------

  /** JavaScript's `<` on strings, the order of Array.prototype.sort: by code unit. */
  predicate Less(s: Text, t: Text) {
    if s == [] || t == [] then s == [] && t != []
    else s[0] < t[0] || (s[0] == t[0] && Less(s[1..], t[1..]))
  }

  /** The first unit in which they differ decides; a text that is the front of another is less. */
  lemma {:induction false} LessMeans(s: Text, t: Text, n: nat)
    requires n <= |s| && n <= |t| && s[..n] == t[..n]
    requires n < |s| && n < |t| ==> s[n] != t[n]
    ensures Less(s, t) <==> n < |t| && (n == |s| || s[n] < t[n])
    decreases n
  {
    if n > 0 {
      assert s[0] == s[..n][0] && t[0] == t[..n][0];
      assert s[1..][..n - 1] == s[..n][1..] && t[1..][..n - 1] == t[..n][1..];
      LessMeans(s[1..], t[1..], n - 1);
    }
  }

  lemma {:induction false} LessTotal(s: Text, t: Text)
    ensures s == t || Less(s, t) || Less(t, s)
    ensures !(Less(s, t) && Less(t, s))
    ensures !Less(s, s)
  {
    if s != [] {
      LessTotal(s[1..], s[1..]);
      if t != [] {
        LessTotal(s[1..], t[1..]);
        assert s == [s[0]] + s[1..] && t == [t[0]] + t[1..];
      }
    }
  }

  lemma {:induction false} LessTrans(s: Text, t: Text, u: Text)
    requires Less(s, t) && Less(t, u)
    ensures Less(s, u)
  {
    if s != [] && s[0] == t[0] == u[0] {
      LessTrans(s[1..], t[1..], u[1..]);
    }
  }

  ghost predicate Ascending(ks: seq<Text>) {
    forall i, j :: 0 <= i < j < |ks| ==> Less(ks[i], ks[j])
  }

  /** The first text of an ascending list is not in the rest, and is before it. */
  lemma AscendingHead(ks: seq<Text>)
    requires Ascending(ks) && ks != []
    ensures ks[0] !in ks[1..] && Ascending(ks[1..])
    ensures forall k :: k in ks <==> k == ks[0] || k in ks[1..]
    ensures forall k <- ks[1..] :: Less(ks[0], k)
  {
    LessTotal(ks[0], ks[0]);
    assert ks == [ks[0]] + ks[1..];
  }

  /** A set of texts has one ascending list. */
  lemma {:induction false} AscendingUnique(ks: seq<Text>, ls: seq<Text>)
    requires Ascending(ks) && Ascending(ls)
    requires forall k :: k in ks <==> k in ls
    ensures ks == ls
  {
    assert |ks| > 0 ==> ks[0] in ls;
    assert |ls| > 0 ==> ls[0] in ks;
    if |ks| > 0 {
      AscendingHead(ks);
      AscendingHead(ls);
      LessTotal(ks[0], ls[0]);
      AscendingUnique(ks[1..], ls[1..]);
      assert ks == [ks[0]] + ks[1..] && ls == [ls[0]] + ls[1..];
    }
  }
}
