/** JavaScript text: UTF-16 code units, and the code points `for (const ch of text)` walks over. */
module Utf16 {

  type Unit = x: int | 0 <= x < 0x1_0000
  type Text = seq<Unit>

  predicate IsHigh(u: Unit) { 0xD800 <= u <= 0xDBFF }

  predicate IsLow(u: Unit) { 0xDC00 <= u <= 0xDFFF }

  /** How many units the first code point of a text has. */
  function Width(s: Text): (n: nat)
    requires s != []
    ensures 1 <= n <= |s|
  {
    if |s| >= 2 && IsHigh(s[0]) && IsLow(s[1]) then 2 else 1
  }

  /** The code points of a text, each as its one or two units. */
  function CodePoints(s: Text): seq<Text> {
    if s == [] then [] else [s[..Width(s)]] + CodePoints(s[Width(s)..])
  }

  function Flatten(cs: seq<Text>): Text {
    if cs == [] then [] else cs[0] + Flatten(cs[1..])
  }

  /** One unit, or a surrogate pair. */
  predicate IsCodePoint(c: Text) {
    |c| == 1 || (|c| == 2 && IsHigh(c[0]) && IsLow(c[1]))
  }

  /** Two halves next to each other would read as one code point. */
  predicate Merges(c: Text, d: Text) {
    |c| == 1 && |d| == 1 && IsHigh(c[0]) && IsLow(d[0])
  }

  /** Lists of code points that a text reads back as. */
  ghost predicate Canonical(cs: seq<Text>) {
    (forall i :: 0 <= i < |cs| ==> IsCodePoint(cs[i])) &&
    (forall i :: 0 <= i < |cs| - 1 ==> !Merges(cs[i], cs[i + 1]))
  }

  lemma {:induction false} FlattenCodePoints(s: Text)
    ensures Flatten(CodePoints(s)) == s
    ensures Canonical(CodePoints(s))
  {
    if s != [] {
      var rest := s[Width(s)..];
      FlattenCodePoints(rest);
      assert s == s[..Width(s)] + rest;
      if rest != [] {
        assert CodePoints(rest)[0] == rest[..Width(rest)];
      }
    }
  }

  lemma {:induction false} CodePointsFlatten(cs: seq<Text>)
    requires Canonical(cs)
    ensures CodePoints(Flatten(cs)) == cs
  {
    if cs != [] {
      var rest := Flatten(cs[1..]);
      CodePointsFlatten(cs[1..]);
      if |cs| > 1 {
        assert rest[0] == cs[1][0] && !Merges(cs[0], cs[1]);
      }
      assert Flatten(cs)[..|cs[0]|] == cs[0] && Flatten(cs)[|cs[0]|..] == rest;
    }
  }

  lemma {:induction false} FlattenAppend(cs: seq<Text>, ds: seq<Text>)
    ensures Flatten(cs + ds) == Flatten(cs) + Flatten(ds)
  {
    if cs == [] {
      assert cs + ds == ds;
    } else {
      assert (cs + ds)[1..] == cs[1..] + ds;
      FlattenAppend(cs[1..], ds);
    }
  }

  // ---------- sizes in UTF-8, section 3 of RFC 3629 ----------

  /** `ch.codePointAt(0)`. */
  function Value(c: Text): (v: nat)
    requires IsCodePoint(c)
    ensures v <= 0x10FFFF && (|c| == 2 ==> v >= 0x10000) && (|c| == 1 ==> v < 0x10000)
  {
    if |c| == 2 then
      var high: int, low: int := c[0], c[1];
      0x10000 + (high - 0xD800) * 0x400 + (low - 0xDC00)
    else c[0]
  }

  function ValueBytes(v: nat): (n: nat)
    ensures 1 <= n <= 4
  {
    if v < 0x80 then 1 else if v < 0x800 then 2 else if v < 0x10000 then 3 else 4
  }

  /** The bytes of a list of code points. */
  function Bytes(cs: seq<Text>): nat
    requires forall c <- cs :: IsCodePoint(c)
  {
    if cs == [] then 0 else Bytes(cs[..|cs| - 1]) + ValueBytes(Value(cs[|cs| - 1]))
  }

  lemma {:induction false} BytesAppend(cs: seq<Text>, ds: seq<Text>)
    requires (forall c <- cs :: IsCodePoint(c)) && forall c <- ds :: IsCodePoint(c)
    ensures forall c <- cs + ds :: IsCodePoint(c)
    ensures Bytes(cs + ds) == Bytes(cs) + Bytes(ds)
    decreases |ds|
  {
    if ds == [] {
      assert cs + ds == cs;
    } else {
      var n := |ds| - 1;
      assert (cs + ds)[..|cs| + n] == cs + ds[..n];
      BytesAppend(cs, ds[..n]);
    }
  }
}
