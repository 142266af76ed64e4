/** Cutting a text to a number of UTF-8 bytes (`truncateUtf8` in src/agent/toolOutputBudget.ts),
    with the encoding of section 3 of RFC 3629. Encoding a JavaScript text replaces an unpaired
    surrogate by U+FFFD. */
module Utf8 {
  import opened Utf16
  import opened Options

  type Byte = x: int | 0 <= x < 0x100

  /** The numbers that UTF-8 can encode. */
  type ScalarValue = v: int | 0 <= v < 0xD800 || 0xE000 <= v <= 0x10FFFF

  const REPLACEMENT: ScalarValue := 0xFFFD

  /** One code point of a text, as encoding it sees it. */
  predicate Unpaired(c: Text)
    requires IsCodePoint(c)
  {
    |c| == 1 && (IsHigh(c[0]) || IsLow(c[0]))
  }

  function Scalar(c: Text): ScalarValue
    requires IsCodePoint(c)
  {
    if Unpaired(c) then REPLACEMENT else Value(c)
  }

  function Scalars(cs: seq<Text>): (vs: seq<ScalarValue>)
    requires forall c <- cs :: IsCodePoint(c)
    ensures |vs| == |cs|
  {
    if cs == [] then [] else [Scalar(cs[0])] + Scalars(cs[1..])
  }

  function ScalarsOf(text: Text): seq<ScalarValue> {
    FlattenCodePoints(text);
    Scalars(CodePoints(text))
  }

  /** The units of a scalar value. */
  function Units(v: ScalarValue): (c: Text)
    ensures IsCodePoint(c) && Value(c) == v
  {
    if v < 0x10000 then [v] else [0xD800 + (v - 0x10000) / 0x400, 0xDC00 + (v - 0x10000) % 0x400]
  }

  function TextOf(vs: seq<ScalarValue>): Text {
    if vs == [] then [] else Units(vs[0]) + TextOf(vs[1..])
  }

  // ---------- encoding and decoding ----------

  function Encode1(v: ScalarValue): (bs: seq<Byte>)
    ensures |bs| == ValueBytes(v)
  {
    if v < 0x80 then [v]
    else if v < 0x800 then [0xC0 + v / 64, 0x80 + v % 64]
    else if v < 0x10000 then [0xE0 + v / 4096, 0x80 + v / 64 % 64, 0x80 + v % 64]
    else [0xF0 + v / 262144, 0x80 + v / 4096 % 64, 0x80 + v / 64 % 64, 0x80 + v % 64]
  }

  function Encode(vs: seq<ScalarValue>): seq<Byte> {
    if vs == [] then [] else Encode1(vs[0]) + Encode(vs[1..])
  }

  /** `(b & 0xc0) === 0x80`. */
  predicate IsContinuation(b: Byte) { b / 64 == 2 }

  /** How many bytes a first byte announces. */
  function Announced(b: Byte): nat {
    if b < 0x80 then 1 else if b < 0xC0 then 0 else if b < 0xE0 then 2
    else if b < 0xF0 then 3 else if b < 0xF8 then 4 else 0
  }

  /** The number that some bytes spell, as many as their first byte announces. */
  function Spelled(bs: seq<Byte>): nat
    requires bs != [] && Announced(bs[0]) == |bs|
  {
    var n := |bs|;
    var b: int := bs[0];
    var c: int := if n > 1 then bs[1] % 64 else 0;
    var d: int := if n > 2 then bs[2] % 64 else 0;
    var e: int := if n > 3 then bs[3] % 64 else 0;
    if n == 1 then b
    else if n == 2 then (b - 0xC0) * 64 + c
    else if n == 3 then (b - 0xE0) * 4096 + c * 64 + d
    else (b - 0xF0) * 262144 + c * 4096 + d * 64 + e
  }

  /** The text of some bytes, when they are whole scalar values. */
  function Decode(bs: seq<Byte>): Option<Text> {
    if bs == [] then Some([])
    else
      var n := Announced(bs[0]);
      if n == 0 || n > |bs| then None
      else
        var v := Spelled(bs[..n]);
        match Decode(bs[n..])
        case None => None
        case Some(rest) => if v < 0xD800 || 0xE000 <= v <= 0x10FFFF then Some(Units(v) + rest) else None
  }

  lemma Digits64(v: nat)
    ensures v == v / 64 * 64 + v % 64
    ensures v / 64 == v / 4096 * 64 + v / 64 % 64
    ensures v / 4096 == v / 262144 * 64 + v / 4096 % 64
  {
    var a, b := v / 64, v / 4096;
    assert a / 64 == b && b / 64 == v / 262144;
  }

  lemma TailDigit(x: nat)
    ensures 0x80 + x % 64 < 0x100 && (0x80 + x % 64) % 64 == x % 64
  {
  }

  lemma SpelledEncode1(v: ScalarValue)
    ensures Announced(Encode1(v)[0]) == |Encode1(v)|
    ensures Spelled(Encode1(v)) == v
  {
    Digits64(v);
    TailDigit(v);
    TailDigit(v / 64);
    TailDigit(v / 4096);
  }

  /** Decoding what was encoded gives the text back. */
  lemma {:induction false} DecodeEncode(vs: seq<ScalarValue>)
    ensures Decode(Encode(vs)) == Some(TextOf(vs))
  {
    if vs != [] {
      var first, rest := Encode1(vs[0]), Encode(vs[1..]);
      SpelledEncode1(vs[0]);
      DecodeEncode(vs[1..]);
      assert (first + rest)[..|first|] == first && (first + rest)[|first|..] == rest;
    }
  }

  lemma {:induction false} EncodeAppend(vs: seq<ScalarValue>, ws: seq<ScalarValue>)
    ensures Encode(vs + ws) == Encode(vs) + Encode(ws)
  {
    if vs == [] {
      assert vs + ws == ws;
    } else {
      assert (vs + ws)[1..] == vs[1..] + ws;
      EncodeAppend(vs[1..], ws);
    }
  }

  // ---------- where code points start ----------

  /** The first byte of an encoded value starts it, and only the first. */
  lemma OnlyFirstStarts(v: ScalarValue, r: nat)
    requires r < |Encode1(v)|
    ensures IsContinuation(Encode1(v)[r]) <==> r > 0
  {
  }

  /** The first byte of code point i. */
  function Start(vs: seq<ScalarValue>, i: nat): nat
    requires i <= |vs|
  {
    |Encode(vs[..i])|
  }

  lemma StartStep(vs: seq<ScalarValue>, i: nat)
    requires i < |vs|
    ensures Start(vs, i + 1) == Start(vs, i) + |Encode1(vs[i])|
  {
    assert vs[..i + 1] == vs[..i] + [vs[i]];
    EncodeAppend(vs[..i], [vs[i]]);
    assert Encode([vs[i]]) == Encode1(vs[i]) + Encode([vs[i]][1..]);
  }

  lemma EncodeSplit(vs: seq<ScalarValue>, i: nat)
    requires i <= |vs|
    ensures Encode(vs) == Encode(vs[..i]) + Encode(vs[i..])
    ensures Encode(vs)[..Start(vs, i)] == Encode(vs[..i])
  {
    var head, tail := vs[..i], vs[i..];
    assert vs == head + tail;
    EncodeAppend(head, tail);
    TakeFirst(Encode(head), Encode(tail));
  }

  lemma TakeFirst(a: seq<Byte>, b: seq<Byte>)
    ensures (a + b)[..|a|] == a
  {
  }

  /** Inside code point i the bytes after the first, and only those, are continuation bytes. */
  lemma ByteAt(vs: seq<ScalarValue>, i: nat, p: nat)
    requires i < |vs| && Start(vs, i) <= p < Start(vs, i) + |Encode1(vs[i])|
    ensures p < |Encode(vs)|
    ensures IsContinuation(Encode(vs)[p]) <==> p > Start(vs, i)
  {
    var head, tail, r := Encode(vs[..i]), Encode(vs[i..]), p - Start(vs, i);
    EncodeSplit(vs, i);
    assert (head + tail)[p] == tail[r];
    assert tail == Encode1(vs[i]) + Encode(vs[i..][1..]);
    OnlyFirstStarts(vs[i], r);
  }

  /** The code point that byte p belongs to. */
  lemma {:induction false} PointAt(vs: seq<ScalarValue>, p: nat, n: nat) returns (i: nat)
    requires 0 < n <= |vs| && p < Start(vs, n)
    ensures i < n && Start(vs, i) <= p < Start(vs, i) + |Encode1(vs[i])|
    decreases n
  {
    StartStep(vs, n - 1);
    if n > 1 && p < Start(vs, n - 1) {
      i := PointAt(vs, p, n - 1);
    } else {
      i := n - 1;
      assert vs[..0] == [];
    }
  }

  lemma {:induction false} StartMonotone(vs: seq<ScalarValue>, i: nat, j: nat)
    requires i <= j <= |vs|
    ensures Start(vs, i) + (j - i) <= Start(vs, j)
    decreases j
  {
    if i < j {
      StartStep(vs, j - 1);
      StartMonotone(vs, i, j - 1);
    }
  }

  // ---------- the result ----------

  /** k is the number of code points of the longest prefix of at most n bytes. */
  ghost predicate LongestPrefix(vs: seq<ScalarValue>, n: nat, k: nat) {
    k <= |vs| && Start(vs, k) <= n && forall j :: k < j <= |vs| ==> Start(vs, j) > n
  }

  lemma PointIsLongest(vs: seq<ScalarValue>, n: nat, k: nat)
    requires k < |vs| && Start(vs, k) <= n < Start(vs, k) + |Encode1(vs[k])|
    ensures LongestPrefix(vs, n, k) && n <= Start(vs, k) + 3
  {
    StartStep(vs, k);
    forall j | k < j <= |vs| ensures Start(vs, j) > n {
      StartMonotone(vs, k + 1, j);
    }
  }

  /** There is one longest prefix. */
  lemma LongestPrefixUnique(vs: seq<ScalarValue>, n: nat, k: nat, j: nat)
    requires LongestPrefix(vs, n, k) && LongestPrefix(vs, n, j)
    ensures k == j
  {
  }

  /** The number of bytes a limit leaves room for. */
  function Room(maxBytes: real): nat {
    if maxBytes < 0.0 then 0 else maxBytes.Floor
  }

  /** Moving back from byte n to the start of the code point it is in. */
  method BackToStart(ghost vs: seq<ScalarValue>, buffer: seq<Byte>, n: nat, ghost k: nat) returns (end: nat)
    requires buffer == Encode(vs) && n < |buffer|
    requires k < |vs| && Start(vs, k) <= n < Start(vs, k) + |Encode1(vs[k])|
    ensures end == Start(vs, k)
  {
    end := n;
    while end > 0 && IsContinuation(buffer[end])
      invariant Start(vs, k) <= end <= n
    {
      ByteAt(vs, k, end);
      end := end - 1;
    }
    ByteAt(vs, k, end);
  }

  /** A text that fits is returned as it is; otherwise the longest prefix of whole code points that
      fits, at most 3 bytes short of the limit. */
  method TruncateUtf8(text: Text, maxBytes: real) returns (out: Text)
    ensures |Encode(ScalarsOf(text))| as real <= maxBytes ==> out == text
    ensures |Encode(ScalarsOf(text))| as real > maxBytes ==>
              exists k: nat :: LongestPrefix(ScalarsOf(text), Room(maxBytes), k) &&
                               out == TextOf(ScalarsOf(text)[..k]) &&
                               Room(maxBytes) <= Start(ScalarsOf(text), k) + 3
  {
    var vs := ScalarsOf(text);
    var buffer := Encode(vs);
    if |buffer| as real <= maxBytes { return text; }
    var n := Room(maxBytes);
    ghost var k := 0;
    var end := 0;
    assert vs[..|vs|] == vs;
    if buffer != [] {
      k := PointAt(vs, n, |vs|);
      end := BackToStart(vs, buffer, n, k);
      PointIsLongest(vs, n, k);
    }
    assert LongestPrefix(vs, n, k);
    EncodeSplit(vs, k);
    DecodeEncode(vs[..k]);
    out := Decode(buffer[..end]).value;
  }

  // ---------- what is left of the text ----------

  lemma UnitsOfValue(c: Text)
    requires IsCodePoint(c) && !Unpaired(c)
    ensures Units(Scalar(c)) == c
  {
    if |c| == 2 {
      var high: int, low: int := c[0], c[1];
      var d := (high - 0xD800) * 0x400 + (low - 0xDC00);
      assert d / 0x400 == high - 0xD800 && d % 0x400 == low - 0xDC00;
    }
  }

  lemma PrefixCons(a: Text, x: Text, y: Text)
    ensures a + x <= a + y <==> x <= y
  {
    if a + x <= a + y {
      assert x == (a + x)[|a|..] && y[..|x|] == (a + y)[|a|..|a| + |x|];
    }
  }

  /** The code points that encoding keeps. */
  ghost predicate AllPaired(cs: seq<Text>)
    requires forall c <- cs :: IsCodePoint(c)
  {
    forall c <- cs :: !Unpaired(c)
  }

  lemma AllPairedCons(cs: seq<Text>)
    requires cs != [] && forall c <- cs :: IsCodePoint(c)
    ensures AllPaired(cs) <==> !Unpaired(cs[0]) && AllPaired(cs[1..])
  {
    assert cs == [cs[0]] + cs[1..];
  }

  /** An unpaired surrogate is lost at once, since its replacement differs from it. */
  lemma UnpairedDiffers(c: Text, tail: Text, rest: Text)
    requires IsCodePoint(c) && Unpaired(c)
    ensures !(Units(Scalar(c)) + tail <= c + rest)
  {
    assert (Units(Scalar(c)) + tail)[0] == REPLACEMENT && (c + rest)[0] == c[0];
  }

  lemma TextOfScalars(cs: seq<Text>)
    requires cs != [] && forall c <- cs :: IsCodePoint(c)
    ensures TextOf(Scalars(cs)) == Units(Scalar(cs[0])) + TextOf(Scalars(cs[1..]))
  {
    assert Scalars(cs)[1..] == Scalars(cs[1..]);
  }

  lemma Assoc(a: Text, b: Text, c: Text)
    ensures a + b + c == a + (b + c)
  {
  }

  /** The text of encoded code points is a prefix of what they came from exactly when none of them
      is an unpaired surrogate, and is then just those code points. */
  lemma {:induction false} PrefixIffPaired(cs: seq<Text>, more: Text)
    requires forall c <- cs :: IsCodePoint(c)
    ensures TextOf(Scalars(cs)) <= Flatten(cs) + more <==> AllPaired(cs)
    ensures AllPaired(cs) ==> TextOf(Scalars(cs)) == Flatten(cs)
  {
    if cs != [] {
      var c, rest := cs[0], cs[1..];
      PrefixIffPaired(rest, more);
      AllPairedCons(cs);
      TextOfScalars(cs);
      Assoc(c, Flatten(rest), more);
      var tail := TextOf(Scalars(rest));
      if Unpaired(c) {
        UnpairedDiffers(c, tail, Flatten(rest) + more);
      } else {
        UnitsOfValue(c);
        PrefixCons(c, tail, Flatten(rest) + more);
      }
    }
  }

  lemma {:induction false} ScalarsPrefix(cs: seq<Text>, k: nat)
    requires k <= |cs| && forall c <- cs :: IsCodePoint(c)
    ensures Scalars(cs)[..k] == Scalars(cs[..k])
  {
    if k > 0 {
      ScalarsPrefix(cs[1..], k - 1);
      assert cs[..k][1..] == cs[1..][..k - 1];
      assert Scalars(cs)[..k][1..] == Scalars(cs[1..])[..k - 1];
    }
  }

  /** Cut after k code points, a text yields one of its own prefixes exactly when none of those code
      points is an unpaired surrogate. */
  lemma CutIsPrefixIff(text: Text, k: nat)
    requires k <= |CodePoints(text)|
    ensures (forall c <- CodePoints(text) :: IsCodePoint(c)) && |ScalarsOf(text)| == |CodePoints(text)|
    ensures TextOf(ScalarsOf(text)[..k]) <= text <==> AllPaired(CodePoints(text)[..k])
    ensures AllPaired(CodePoints(text)[..k]) ==> TextOf(ScalarsOf(text)[..k]) == Flatten(CodePoints(text)[..k])
  {
    var cs := CodePoints(text);
    FlattenCodePoints(text);
    ScalarsPrefix(cs, k);
    assert cs[..k] + cs[k..] == cs;
    FlattenAppend(cs[..k], cs[k..]);
    PrefixIffPaired(cs[..k], Flatten(cs[k..]));
  }
}
