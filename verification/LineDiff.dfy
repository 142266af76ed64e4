/** The line diff of agent revisions (src/agents/lineDiff.ts): a bottom-up table of
    longest-common-subsequence lengths, then a walk over the table that emits an edit script.

    The specification is declarative. A script is any list of lines whose same+removed lines
    spell the old text and whose same+added lines spell the new one. The method below returns,
    among all scripts with the fewest changes, the first one in the order
    same < removed < added; at most one list of lines has that property. */
module LineDiff {
  import opened Lines

  datatype DiffLine =
    | Same(text: string, before: nat, after: nat)
    | Removed(text: string, before: nat)
    | Added(text: string, after: nat)

  // ---------- splitting a text into lines ----------

  function SplitLines(text: string): seq<string> {
    if text == "" then []
    else
      var lines := Split(text, '\n');
      if lines[|lines| - 1] == "" then lines[..|lines| - 1] else lines
  }

  /** Every line followed by its newline: the inverse of SplitLines. */
  function Unlines(lines: seq<string>): string {
    if lines == [] then "" else Join(lines, '\n') + "\n"
  }

  /** The text with its last line terminated. */
  function Terminated(text: string): string {
    if text == "" || text[|text| - 1] == '\n' then text else text + "\n"
  }

  /** SplitLines loses nothing but whether the last line was terminated. */
  lemma SplitLinesRoundTrip(text: string)
    ensures Unlines(SplitLines(text)) == Terminated(text)
    ensures Clean(SplitLines(text), '\n')
  {
    if text != "" {
      var lines := Split(text, '\n');
      var init, last := lines[..|lines| - 1], lines[|lines| - 1];
      assert lines == init + [last];
      JoinSplit(text, '\n');
      if init != [] {
        JoinAppend(init, last, '\n');
      }
      if last != "" {
        assert last in lines && last[|last| - 1] in last;
        assert text[|text| - 1] == last[|last| - 1];
      }
    }
  }

  /** Two texts have the same lines exactly when they differ at most in a final newline. */
  lemma SplitLinesInjective(s: string, t: string)
    ensures SplitLines(s) == SplitLines(t) <==> Terminated(s) == Terminated(t)
  {
    SplitLinesRoundTrip(s);
    SplitLinesRoundTrip(t);
    SplitTerminated(s);
    SplitTerminated(t);
  }

  lemma SplitTerminated(text: string)
    ensures SplitLines(Terminated(text)) == SplitLines(text)
  {
    SplitLinesRoundTrip(text);
    var lines := SplitLines(text);
    if lines != [] {
      JoinAppend(lines, "", '\n');
      assert Clean(lines + [""], '\n');
      SplitJoin(lines + [""], '\n');
      assert Join(lines, '\n') + "\n" + "" == Terminated(text);
      assert (lines + [""])[..|lines|] == lines;
    }
  }

  // ---------- what a script is ----------

  /** The old text a script spells: its same and removed lines. */
  function Olds(s: seq<DiffLine>): seq<string> {
    if s == [] then [] else (if s[0].Added? then [] else [s[0].text]) + Olds(s[1..])
  }

  /** The new text a script spells: its same and added lines. */
  function News(s: seq<DiffLine>): seq<string> {
    if s == [] then [] else (if s[0].Removed? then [] else [s[0].text]) + News(s[1..])
  }

  function Sames(s: seq<DiffLine>): seq<string> {
    if s == [] then [] else (if s[0].Same? then [s[0].text] else []) + Sames(s[1..])
  }

  function Changes(s: seq<DiffLine>): nat {
    if s == [] then 0 else (if s[0].Same? then 0 else 1) + Changes(s[1..])
  }

  /** Line numbers count from 1 on each side; i old and j new lines come before the script. */
  predicate Numbered(s: seq<DiffLine>, i: nat, j: nat) {
    s == [] ||
    match s[0]
    case Same(_, before, after) => before == i + 1 && after == j + 1 && Numbered(s[1..], i + 1, j + 1)
    case Removed(_, before) => before == i + 1 && Numbered(s[1..], i + 1, j)
    case Added(_, after) => after == j + 1 && Numbered(s[1..], i, j + 1)
  }

  predicate IsScript(s: seq<DiffLine>, a: seq<string>, b: seq<string>) {
    Olds(s) == a && News(s) == b && Numbered(s, 0, 0)
  }

  ghost predicate IsMinimal(s: seq<DiffLine>, a: seq<string>, b: seq<string>) {
    Olds(s) == a && News(s) == b &&
    forall t :: Olds(t) == a && News(t) == b ==> Changes(s) <= Changes(t)
  }

  function Rank(d: DiffLine): nat {
    match d case Same(_, _, _) => 0 case Removed(_, _) => 1 case Added(_, _) => 2
  }

  /** Dictionary order on the kinds of lines, same < removed < added. */
  predicate Before(s: seq<DiffLine>, t: seq<DiffLine>) {
    s == [] ||
    (t != [] && (Rank(s[0]) < Rank(t[0]) || (Rank(s[0]) == Rank(t[0]) && Before(s[1..], t[1..]))))
  }

  /** What the diff promises: a numbered, minimal script that precedes every other minimal one. */
  ghost predicate IsDiff(s: seq<DiffLine>, a: seq<string>, b: seq<string>) {
    IsScript(s, a, b) && IsMinimal(s, a, b) && forall t :: IsMinimal(t, a, b) ==> Before(s, t)
  }

  /** There is at most one diff of two texts. */
  lemma DiffUnique(s: seq<DiffLine>, t: seq<DiffLine>, a: seq<string>, b: seq<string>)
    requires IsDiff(s, a, b) && IsDiff(t, a, b)
    ensures s == t
  {
    BeforeBothWays(s, t, 0, 0);
  }

  lemma {:induction false} BeforeBothWays(s: seq<DiffLine>, t: seq<DiffLine>, i: nat, j: nat)
    requires Before(s, t) && Before(t, s)
    requires Olds(s) == Olds(t) && News(s) == News(t) && Numbered(s, i, j) && Numbered(t, i, j)
    ensures s == t
  {
    if s != [] && t != [] {
      var i', j' := if s[0].Added? then i else i + 1, if s[0].Removed? then j else j + 1;
      assert Olds(s[1..]) == if s[0].Added? then Olds(s) else Olds(s)[1..];
      assert Olds(t[1..]) == if t[0].Added? then Olds(t) else Olds(t)[1..];
      assert News(s[1..]) == if s[0].Removed? then News(s) else News(s)[1..];
      assert News(t[1..]) == if t[0].Removed? then News(t) else News(t)[1..];
      BeforeBothWays(s[1..], t[1..], i', j');
      assert s[0] == t[0];
      assert s == [s[0]] + s[1..] && t == [t[0]] + t[1..];
    }
  }

  // ---------- common subsequences ----------

  /** f picks positions of s, strictly increasing, that spell c. */
  ghost predicate Embeds(c: seq<string>, s: seq<string>, f: seq<nat>) {
    && |f| == |c|
    && (forall k :: 0 <= k < |f| ==> f[k] < |s| && s[f[k]] == c[k])
    && (forall k, l :: 0 <= k < l < |f| ==> f[k] < f[l])
  }

  ghost predicate IsSubsequence(c: seq<string>, s: seq<string>) {
    exists f :: Embeds(c, s, f)
  }

  /** The value the table holds for two suffixes. */
  function Lcs(a: seq<string>, b: seq<string>): nat {
    if a == [] || b == [] then 0
    else if a[0] == b[0] then 1 + Lcs(a[1..], b[1..])
    else Max(Lcs(a[1..], b), Lcs(a, b[1..]))
  }

  function Max(x: nat, y: nat): nat { if x < y then y else x }

  /** f with its positions moved one to the left, as positions of s[1..]. */
  ghost function Shift(f: seq<nat>): seq<nat>
    requires forall x <- f :: x > 0
  {
    seq(|f|, k requires 0 <= k < |f| => assert f[k] in f; f[k] - 1)
  }

  lemma {:induction false} EmbedsShift(c: seq<string>, s: seq<string>, f: seq<nat>)
    requires Embeds(c, s, f) && |f| > 0 && f[0] > 0
    ensures forall x <- f :: x > 0
    ensures Embeds(c, s[1..], Shift(f))
  {
    assert forall k :: 0 <= k < |f| ==> f[0] <= f[k];
  }

  lemma {:induction false} EmbedsTail(c: seq<string>, s: seq<string>, f: seq<nat>)
    requires Embeds(c, s, f) && |f| > 0 && s != []
    ensures IsSubsequence(c[1..], s[1..])
  {
    var g := f[1..];
    assert forall k :: 0 <= k < |g| ==> g[k] == f[k + 1] > f[0];
    assert Embeds(c[1..], s, g);
    if g != [] {
      EmbedsShift(c[1..], s, g);
    } else {
      assert Embeds(c[1..], s[1..], []);
    }
  }

  /** No common subsequence is longer than the table says. */
  lemma {:induction false} LcsBound(a: seq<string>, b: seq<string>, c: seq<string>)
    requires IsSubsequence(c, a) && IsSubsequence(c, b)
    ensures |c| <= Lcs(a, b)
    decreases |a| + |b|
  {
    var f :| Embeds(c, a, f);
    var g :| Embeds(c, b, g);
    if c != [] {
      assert f[0] < |a| && g[0] < |b| && a[f[0]] == c[0] == b[g[0]];
      if a[0] == b[0] {
        EmbedsTail(c, a, f);
        EmbedsTail(c, b, g);
        LcsBound(a[1..], b[1..], c[1..]);
      } else if f[0] > 0 {
        EmbedsShift(c, a, f);
        LcsBound(a[1..], b, c);
      } else {
        EmbedsShift(c, b, g);
        LcsBound(a, b[1..], c);
      }
    }
  }

  /** Dropping the first line of either side costs at most one. */
  lemma {:induction false} LcsDrop(a: seq<string>, b: seq<string>)
    ensures a != [] ==> Lcs(a[1..], b) <= Lcs(a, b) <= 1 + Lcs(a[1..], b)
    ensures b != [] ==> Lcs(a, b[1..]) <= Lcs(a, b) <= 1 + Lcs(a, b[1..])
    decreases |a| + |b|
  {
    if a != [] && b != [] {
      LcsDrop(a[1..], b);
      LcsDrop(a, b[1..]);
      LcsDrop(a[1..], b[1..]);
    }
  }

  lemma EmbedsUp(c: seq<string>, s: seq<string>, f: seq<nat>) returns (up: seq<nat>)
    requires s != [] && Embeds(c, s[1..], f)
    ensures Embeds(c, s, up) && forall k :: 0 <= k < |up| ==> up[k] > 0
  {
    up := seq(|f|, k requires 0 <= k < |f| => f[k] + 1);
  }

  lemma EmbedsCons(x: string, c: seq<string>, s: seq<string>, f: seq<nat>)
    requires s != [] && Embeds(c, s[1..], f)
    ensures IsSubsequence(c, s)
    ensures s[0] == x ==> IsSubsequence([x] + c, s)
  {
    var up := EmbedsUp(c, s, f);
    if s[0] == x {
      var g := [0] + up;
      assert forall k :: 0 < k < |g| ==> g[k] == up[k - 1];
      assert Embeds([x] + c, s, g);
    }
  }

  /** The same lines of a script are a common subsequence of the texts it spells. */
  lemma {:induction false} SamesCommon(s: seq<DiffLine>)
    ensures IsSubsequence(Sames(s), Olds(s)) && IsSubsequence(Sames(s), News(s))
  {
    if s == [] {
      assert Embeds(Sames(s), Olds(s), []) && Embeds(Sames(s), News(s), []);
    } else {
      SamesCommon(s[1..]);
      var f :| Embeds(Sames(s[1..]), Olds(s[1..]), f);
      var g :| Embeds(Sames(s[1..]), News(s[1..]), g);
      if !s[0].Added? {
        assert Olds(s)[1..] == Olds(s[1..]);
        EmbedsCons(s[0].text, Sames(s[1..]), Olds(s), f);
      } else {
        assert Olds(s) == Olds(s[1..]);
      }
      if !s[0].Removed? {
        assert News(s)[1..] == News(s[1..]);
        EmbedsCons(s[0].text, Sames(s[1..]), News(s), g);
      } else {
        assert News(s) == News(s[1..]);
      }
      if !s[0].Same? {
        assert Sames(s) == Sames(s[1..]);
      }
    }
  }

  /** Every change is one line of one side that is not shared. */
  lemma {:induction false} ChangesCount(s: seq<DiffLine>)
    ensures Changes(s) + 2 * |Sames(s)| == |Olds(s)| + |News(s)|
  {
    if s != [] {
      ChangesCount(s[1..]);
    }
  }

  /** No script keeps more lines than the table says. */
  lemma ScriptBound(s: seq<DiffLine>)
    ensures |Sames(s)| <= Lcs(Olds(s), News(s))
  {
    SamesCommon(s);
    LcsBound(Olds(s), News(s), Sames(s));
  }

  // ---------- the walk over the table ----------

  /** The script the walk emits from position (i, j). */
  function Walk(a: seq<string>, b: seq<string>, i: nat, j: nat): seq<DiffLine>
    requires i <= |a| && j <= |b|
    decreases |a| - i + |b| - j
  {
    if i < |a| && j < |b| then
      if a[i] == b[j] then [Same(a[i], i + 1, j + 1)] + Walk(a, b, i + 1, j + 1)
      else if Entry(a, b, i + 1, j) >= Entry(a, b, i, j + 1) then [Removed(a[i], i + 1)] + Walk(a, b, i + 1, j)
      else [Added(b[j], j + 1)] + Walk(a, b, i, j + 1)
    else if i < |a| then [Removed(a[i], i + 1)] + Walk(a, b, i + 1, j)
    else if j < |b| then [Added(b[j], j + 1)] + Walk(a, b, i, j + 1)
    else []
  }

  /** What one emitted line adds to what a script spells. */
  lemma Extend(d: DiffLine, s: seq<DiffLine>, a: seq<string>, b: seq<string>, i: nat, j: nat)
    requires i <= |a| && j <= |b|
    requires match d
             case Same(x, n, m) => i < |a| && j < |b| && x == a[i] == b[j] && n == i + 1 && m == j + 1
             case Removed(x, n) => i < |a| && x == a[i] && n == i + 1
             case Added(x, m) => j < |b| && x == b[j] && m == j + 1
    requires var i', j' := if d.Added? then i else i + 1, if d.Removed? then j else j + 1;
             Olds(s) == a[i'..] && News(s) == b[j'..] && Numbered(s, i', j')
    ensures Olds([d] + s) == a[i..] && News([d] + s) == b[j..] && Numbered([d] + s, i, j)
    ensures Sames([d] + s) == (if d.Same? then [d.text] else []) + Sames(s)
  {
    ScriptCons(d, s);
    if i < |a| { TextCons(a, i); }
    if j < |b| { TextCons(b, j); }
    assert ([d] + s)[1..] == s;
  }

  lemma ScriptCons(d: DiffLine, s: seq<DiffLine>)
    ensures Olds([d] + s) == (if d.Added? then [] else [d.text]) + Olds(s)
    ensures News([d] + s) == (if d.Removed? then [] else [d.text]) + News(s)
    ensures Sames([d] + s) == (if d.Same? then [d.text] else []) + Sames(s)
  {
    assert ([d] + s)[1..] == s;
  }

  lemma TextCons(a: seq<string>, i: nat)
    requires i < |a|
    ensures a[i..] == [a[i]] + a[i + 1..]
  {
  }

  lemma {:induction false} WalkSpells(a: seq<string>, b: seq<string>, i: nat, j: nat)
    requires i <= |a| && j <= |b|
    ensures Olds(Walk(a, b, i, j)) == a[i..]
    ensures News(Walk(a, b, i, j)) == b[j..]
    ensures Numbered(Walk(a, b, i, j), i, j)
    decreases |a| - i + |b| - j
  {
    var w := Walk(a, b, i, j);
    if w != [] {
      var i', j' := if w[0].Added? then i else i + 1, if w[0].Removed? then j else j + 1;
      WalkSpells(a, b, i', j');
      assert w == [w[0]] + Walk(a, b, i', j');
      Extend(w[0], Walk(a, b, i', j'), a, b, i, j);
    }
  }

  /** The entry of the table at (i, j). */
  function Entry(a: seq<string>, b: seq<string>, i: nat, j: nat): nat
    requires i <= |a| && j <= |b|
  {
    Lcs(a[i..], b[j..])
  }

  lemma EntryStep(a: seq<string>, b: seq<string>, i: nat, j: nat)
    requires i <= |a| && j <= |b|
    ensures Entry(a, b, i, j) ==
            if i == |a| || j == |b| then 0
            else if a[i] == b[j] then Entry(a, b, i + 1, j + 1) + 1
            else Max(Entry(a, b, i + 1, j), Entry(a, b, i, j + 1))
  {
    if i < |a| && j < |b| {
      assert a[i..][1..] == a[i + 1..] && b[j..][1..] == b[j + 1..];
    }
  }

  lemma {:induction false} WalkKeeps(a: seq<string>, b: seq<string>, i: nat, j: nat)
    requires i <= |a| && j <= |b|
    ensures |Sames(Walk(a, b, i, j))| == Entry(a, b, i, j)
    decreases |a| - i + |b| - j
  {
    EntryStep(a, b, i, j);
    var w := Walk(a, b, i, j);
    if w != [] {
      var i', j' := if w[0].Added? then i else i + 1, if w[0].Removed? then j else j + 1;
      WalkKeeps(a, b, i', j');
      assert w[1..] == Walk(a, b, i', j');
      EntryStep(a, b, i', j');
    }
  }

  /** The walk comes before every script that keeps as many lines. */
  lemma {:induction false} WalkIsFirst(a: seq<string>, b: seq<string>, i: nat, j: nat, t: seq<DiffLine>)
    requires i <= |a| && j <= |b|
    requires Olds(t) == a[i..] && News(t) == b[j..]
    requires |Sames(t)| == Lcs(a[i..], b[j..])
    ensures Before(Walk(a, b, i, j), t)
    decreases |t|
  {
    var w := Walk(a, b, i, j);
    if w != [] && t != [] {
      ScriptBound(t[1..]);
      assert i < |a| ==> a[i..][1..] == a[i + 1..];
      assert j < |b| ==> b[j..][1..] == b[j + 1..];
      assert !t[0].Added? ==> Olds(t[1..]) == Olds(t)[1..];
      assert t[0].Added? ==> Olds(t[1..]) == Olds(t);
      assert !t[0].Removed? ==> News(t[1..]) == News(t)[1..];
      assert t[0].Removed? ==> News(t[1..]) == News(t);
      if Rank(w[0]) == Rank(t[0]) {
        var i', j' := if w[0].Added? then i else i + 1, if w[0].Removed? then j else j + 1;
        LcsDrop(a[i..], b[j..]);
        assert w[1..] == Walk(a, b, i', j');
        WalkIsFirst(a, b, i', j', t[1..]);
      }
    }
  }

  lemma WalkIsDiff(a: seq<string>, b: seq<string>)
    ensures IsDiff(Walk(a, b, 0, 0), a, b)
    ensures |Sames(Walk(a, b, 0, 0))| == Lcs(a, b)
  {
    var w := Walk(a, b, 0, 0);
    assert a[0..] == a && b[0..] == b;
    WalkSpells(a, b, 0, 0);
    WalkKeeps(a, b, 0, 0);
    ChangesCount(w);
    forall t | Olds(t) == a && News(t) == b
      ensures Changes(w) <= Changes(t)
    {
      ScriptBound(t);
      ChangesCount(t);
    }
    forall t | IsMinimal(t, a, b)
      ensures Before(w, t)
    {
      ChangesCount(t);
      ScriptBound(t);
      WalkIsFirst(a, b, 0, 0, t);
    }
  }

  // ---------- the code ----------

  method FillTable(a: seq<string>, b: seq<string>) returns (lcs: array2<nat>)
    ensures lcs.Length0 == |a| + 1 && lcs.Length1 == |b| + 1
    ensures fresh(lcs)
    ensures forall i, j :: 0 <= i <= |a| && 0 <= j <= |b| ==> lcs[i, j] == Entry(a, b, i, j)
  {
    lcs := new nat[|a| + 1, |b| + 1]((_, _) => 0);
    var i := |a| - 1;
    forall k, l | 0 <= k <= |a| && 0 <= l <= |b| && (k == |a| || l == |b|) ensures Entry(a, b, k, l) == 0 {
      EntryStep(a, b, k, l);
    }
    while i >= 0
      invariant -1 <= i < |a|
      invariant forall k, j :: i < k <= |a| && 0 <= j <= |b| ==> lcs[k, j] == Entry(a, b, k, j)
      invariant forall k, j :: 0 <= k <= i && 0 <= j <= |b| ==> lcs[k, j] == 0
    {
      var j := |b| - 1;
      while j >= 0
        invariant -1 <= j < |b|
        invariant forall k, l :: i < k <= |a| && 0 <= l <= |b| ==> lcs[k, l] == Entry(a, b, k, l)
        invariant forall l :: j < l <= |b| ==> lcs[i, l] == Entry(a, b, i, l)
        invariant forall k, l :: 0 <= k < i && 0 <= l <= |b| ==> lcs[k, l] == 0
      {
        EntryStep(a, b, i, j);
        lcs[i, j] := if a[i] == b[j] then lcs[i + 1, j + 1] + 1 else Max(lcs[i + 1, j], lcs[i, j + 1]);
        j := j - 1;
      }
      i := i - 1;
    }
  }

  lemma PushAssoc(out: seq<DiffLine>, d: DiffLine, rest: seq<DiffLine>)
    ensures out + ([d] + rest) == out + [d] + rest
  {
  }

  method EmitScript(a: seq<string>, b: seq<string>, lcs: array2<nat>) returns (out: seq<DiffLine>)
    requires lcs.Length0 == |a| + 1 && lcs.Length1 == |b| + 1
    requires forall i, j :: 0 <= i <= |a| && 0 <= j <= |b| ==> lcs[i, j] == Entry(a, b, i, j)
    ensures out == Walk(a, b, 0, 0)
  {
    var i, j;
    out, i, j := EmitCommon(a, b, lcs);
    while i < |a|
      invariant 0 <= i <= |a| && 0 <= j <= |b| && (i == |a| || j == |b|)
      invariant out + Walk(a, b, i, j) == Walk(a, b, 0, 0)
    {
      PushAssoc(out, Removed(a[i], i + 1), Walk(a, b, i + 1, j));
      out := out + [Removed(a[i], i + 1)];
      i := i + 1;
    }
    while j < |b|
      invariant i == |a| && 0 <= j <= |b|
      invariant out + Walk(a, b, i, j) == Walk(a, b, 0, 0)
    {
      PushAssoc(out, Added(b[j], j + 1), Walk(a, b, i, j + 1));
      out := out + [Added(b[j], j + 1)];
      j := j + 1;
    }
  }

  /** The first loop of the walk: it stops when either text is used up. */
  method EmitCommon(a: seq<string>, b: seq<string>, lcs: array2<nat>) returns (out: seq<DiffLine>, i: nat, j: nat)
    requires lcs.Length0 == |a| + 1 && lcs.Length1 == |b| + 1
    requires forall i, j :: 0 <= i <= |a| && 0 <= j <= |b| ==> lcs[i, j] == Entry(a, b, i, j)
    ensures i <= |a| && j <= |b| && (i == |a| || j == |b|)
    ensures out + Walk(a, b, i, j) == Walk(a, b, 0, 0)
  {
    out, i, j := [], 0, 0;
    while i < |a| && j < |b|
      invariant i <= |a| && j <= |b|
      invariant out + Walk(a, b, i, j) == Walk(a, b, 0, 0)
      decreases |a| - i + |b| - j
    {
      if a[i] == b[j] {
        PushAssoc(out, Same(a[i], i + 1, j + 1), Walk(a, b, i + 1, j + 1));
        out := out + [Same(a[i], i + 1, j + 1)];
        i, j := i + 1, j + 1;
      } else if lcs[i + 1, j] >= lcs[i, j + 1] {
        PushAssoc(out, Removed(a[i], i + 1), Walk(a, b, i + 1, j));
        out := out + [Removed(a[i], i + 1)];
        i := i + 1;
      } else {
        PushAssoc(out, Added(b[j], j + 1), Walk(a, b, i, j + 1));
        out := out + [Added(b[j], j + 1)];
        j := j + 1;
      }
    }
  }

  method DiffLines(before: string, after: string) returns (out: seq<DiffLine>)
    ensures IsDiff(out, SplitLines(before), SplitLines(after))
    ensures forall c :: IsSubsequence(c, SplitLines(before)) && IsSubsequence(c, SplitLines(after)) ==>
              |c| <= |Sames(out)|
  {
    var a := SplitLines(before);
    var b := SplitLines(after);
    var lcs := FillTable(a, b);
    out := EmitScript(a, b, lcs);
    WalkIsDiff(a, b);
    forall c | IsSubsequence(c, a) && IsSubsequence(c, b)
      ensures |c| <= |Sames(out)|
    {
      LcsBound(a, b, c);
    }
  }
}
