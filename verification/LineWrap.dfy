/** Wrapping the long lines of a spilled tool output (`wrapLongLines` in
    src/agent/toolOutputSpill.ts): greedily, by code points, so that a line has at most a number of
    UTF-8 bytes. Lines are handled as lists of code points; a limit below 4 bytes is allowed, as in
    the code, and then a single code point may be too long for a line of its own. */
module LineWrap {
  import opened Utf16
  import opened Lines

  const NEWLINE: Unit := 10

  predicate AllCodePoints(cs: seq<Text>) {
    forall i :: 0 <= i < |cs| ==> IsCodePoint(cs[i])
  }

  function Size(c: Text): nat
    requires IsCodePoint(c)
  {
    ValueBytes(Value(c))
  }

  /** Buffer.byteLength(text, "utf8"). */
  function ByteLength(s: Text): nat {
    FlattenCodePoints(s);
    Bytes(CodePoints(s))
  }

  // ---------- the greedy chunks ----------

  /** The chunks of a line whose current chunk is cur and whose code points still to come are rest. */
  function Greedy(cur: seq<Text>, rest: seq<Text>, max: int): (gs: seq<seq<Text>>)
    requires AllCodePoints(cur) && AllCodePoints(rest)
    ensures |gs| > 0
    decreases |rest|
  {
    if rest == [] then [cur]
    else if Bytes(cur) + Size(rest[0]) > max && cur != [] then [cur] + Greedy([rest[0]], rest[1..], max)
    else Greedy(cur + [rest[0]], rest[1..], max)
  }

  function Chunks(cs: seq<Text>, max: int): (gs: seq<seq<Text>>)
    requires AllCodePoints(cs)
    ensures |gs| > 0
  {
    if Bytes(cs) <= max then [cs] else Greedy([], cs, max)
  }

  function Concat(gs: seq<seq<Text>>): seq<Text> {
    if gs == [] then [] else gs[0] + Concat(gs[1..])
  }

  ghost predicate AllGroups(gs: seq<seq<Text>>) {
    forall i :: 0 <= i < |gs| ==> AllCodePoints(gs[i])
  }

  lemma {:induction false} GreedyConcat(cur: seq<Text>, rest: seq<Text>, max: int)
    requires AllCodePoints(cur) && AllCodePoints(rest)
    ensures Concat(Greedy(cur, rest, max)) == cur + rest && AllGroups(Greedy(cur, rest, max))
    decreases |rest|
  {
    if rest == [] {
      assert Concat([cur]) == cur + Concat([]);
      assert cur + rest == cur;
    } else {
      assert rest == [rest[0]] + rest[1..];
      if Bytes(cur) + Size(rest[0]) > max && cur != [] {
        GreedyConcat([rest[0]], rest[1..], max);
        var gs := Greedy([rest[0]], rest[1..], max);
        assert ([cur] + gs)[1..] == gs;
      } else {
        GreedyConcat(cur + [rest[0]], rest[1..], max);
        assert cur + [rest[0]] + rest[1..] == cur + rest;
      }
    }
  }

  /** A chunk fits, or is one code point that no line could hold. */
  predicate Fits(g: seq<Text>, max: int)
    requires AllCodePoints(g)
  {
    Bytes(g) <= max || (|g| == 1 && Size(g[0]) > max)
  }

  lemma BytesSnoc(cs: seq<Text>, c: Text)
    requires AllCodePoints(cs) && IsCodePoint(c)
    ensures AllCodePoints(cs + [c]) && Bytes(cs + [c]) == Bytes(cs) + Size(c)
  {
    assert (cs + [c])[..|cs|] == cs;
  }

  ghost predicate AllFit(gs: seq<seq<Text>>, max: int) {
    forall g <- gs :: AllCodePoints(g) && g != [] && Fits(g, max)
  }

  lemma OneFits(c: Text, max: int)
    requires IsCodePoint(c)
    ensures AllCodePoints([c]) && Bytes([c]) == Size(c) && Fits([c], max)
  {
    assert [c][..0] == [];
  }

  lemma {:induction false} GreedyFits(cur: seq<Text>, rest: seq<Text>, max: int)
    requires AllCodePoints(cur) && AllCodePoints(rest) && cur + rest != []
    requires cur != [] ==> Fits(cur, max)
    ensures AllFit(Greedy(cur, rest, max), max)
    decreases |rest|
  {
    if rest != [] {
      var c := rest[0];
      OneFits(c, max);
      if Bytes(cur) + Size(c) > max && cur != [] {
        GreedyFits([c], rest[1..], max);
      } else {
        BytesSnoc(cur, c);
        assert cur == [] ==> cur + [c] == [c];
        GreedyFits(cur + [c], rest[1..], max);
      }
    }
  }

  // ---------- no chunking has fewer chunks ----------

  lemma BytesPrefix(cs: seq<Text>, n: nat)
    requires AllCodePoints(cs) && n <= |cs|
    ensures Bytes(cs[..n]) + Bytes(cs[n..]) == Bytes(cs)
  {
    var front, back := cs[..n], cs[n..];
    assert cs == front + back;
    BytesAppend(front, back);
  }

  /** A chunk that holds cur and the code point after it is at least as long as both. */
  lemma BytesInside(g: seq<Text>, behind: seq<Text>, cur: seq<Text>, c: Text)
    requires AllCodePoints(g) && AllCodePoints(cur) && IsCodePoint(c) && behind + cur + [c] <= g
    ensures Bytes(cur) + Size(c) <= Bytes(g)
  {
    var n := |behind|;
    assert g[..n] == behind && g[n..][..|cur| + 1] == cur + [c];
    BytesPrefix(g, n);
    BytesPrefix(g[n..], |cur| + 1);
    BytesSnoc(cur, c);
  }

  /** The greedy walk is never behind: any chunking of the same code points, even one that starts
      `behind` earlier, has at least as many chunks, if each of its chunks fits. */
  lemma {:induction false} GreedyFewest(behind: seq<Text>, cur: seq<Text>, rest: seq<Text>, max: int,
                                        hs: seq<seq<Text>>)
    requires AllCodePoints(cur) && AllCodePoints(rest) && AllGroups(hs)
    requires hs != [] && Concat(hs) == behind + cur + rest
    requires forall i :: 0 <= i < |hs| ==> Bytes(hs[i]) <= max
    ensures |Greedy(cur, rest, max)| <= |hs|
    decreases |rest|
  {
    if rest != [] {
      var c := rest[0];
      assert rest == [c] + rest[1..];
      if Bytes(cur) + Size(c) > max && cur != [] {
        var h, all := hs[0], Concat(hs);
        assert all == h + Concat(hs[1..]);
        if |h| > |behind| + |cur| {
          assert behind + cur + [c] == all[..|behind| + |cur| + 1];
          assert h == all[..|h|];
          assert behind + cur + [c] <= h;
          BytesInside(h, behind, cur, c);
        } else {
          var left := (behind + cur)[|h|..];
          assert Concat(hs[1..]) == all[|h|..] == left + [c] + rest[1..];
          GreedyFewest(left, [c], rest[1..], max, hs[1..]);
        }
      } else {
        assert behind + (cur + [c]) + rest[1..] == behind + cur + rest;
        GreedyFewest(behind, cur + [c], rest[1..], max, hs);
      }
    }
  }

  /** A line's chunks: they join to the line without splitting a code point, each fits or is a single
      code point too large for any line, and no list of fitting chunks of the line is shorter. */
  lemma ChunksOfLine(cs: seq<Text>, max: int)
    requires AllCodePoints(cs)
    ensures AllGroups(Chunks(cs, max)) && Concat(Chunks(cs, max)) == cs
    ensures cs != [] ==> AllFit(Chunks(cs, max), max)
    ensures forall hs :: IsFitting(hs, cs, max) ==> |Chunks(cs, max)| <= |hs|
  {
    if Bytes(cs) <= max {
      assert Concat([cs]) == cs + Concat([]);
    } else {
      GreedyConcat([], cs, max);
      assert [] + cs == cs;
      if cs != [] {
        GreedyFits([], cs, max);
      }
      forall hs | IsFitting(hs, cs, max) ensures |Chunks(cs, max)| <= |hs| {
        assert [] + [] + cs == cs;
        GreedyFewest([], [], cs, max, hs);
      }
    }
  }

  /** Chunks of the code points cs that fit. */
  ghost predicate IsFitting(hs: seq<seq<Text>>, cs: seq<Text>, max: int) {
    hs != [] && AllGroups(hs) && Concat(hs) == cs && forall i :: 0 <= i < |hs| ==> Bytes(hs[i]) <= max
  }

  /** With a limit of at least 4 bytes every chunk fits. */
  lemma RoomForOne(g: seq<Text>, max: int)
    requires AllCodePoints(g) && max >= 4 && Fits(g, max)
    ensures Bytes(g) <= max
  {
  }

  /** A line is left in one piece exactly when it fits or has at most one code point. */
  lemma OnePieceIff(cs: seq<Text>, max: int)
    requires AllCodePoints(cs)
    ensures |Chunks(cs, max)| == 1 <==> Bytes(cs) <= max || |cs| <= 1
    ensures |Chunks(cs, max)| == 1 ==> Chunks(cs, max) == [cs]
  {
    if Bytes(cs) > max && cs != [] {
      var gs := Greedy([], cs, max);
      assert [] + cs == cs;
      GreedyConcat([], cs, max);
      GreedyFits([], cs, max);
      if |gs| == 1 {
        OneGroup(gs);
        assert gs[0] in gs;
      }
      if |cs| == 1 {
        assert [] + [cs[0]] == cs && cs[1..] == [];
        assert gs == Greedy([] + [cs[0]], cs[1..], max) == [cs];
      }
    }
  }

  lemma OneGroup(gs: seq<seq<Text>>)
    requires |gs| == 1
    ensures gs == [gs[0]] && Concat(gs) == gs[0]
  {
    assert gs[1..] == [];
  }

  // ---------- whole texts ----------

  function FlattenAll(gs: seq<seq<Text>>): seq<Text> {
    if gs == [] then [] else [Flatten(gs[0])] + FlattenAll(gs[1..])
  }

  /** The output lines of one input line. */
  function WrapLine(line: Text, max: int): seq<Text> {
    FlattenCodePoints(line);
    FlattenAll(Chunks(CodePoints(line), max))
  }

  function WrapAll(lines: seq<Text>, max: int): seq<Text> {
    if lines == [] then [] else WrapAll(lines[..|lines| - 1], max) + WrapLine(lines[|lines| - 1], max)
  }

  predicate TooLong(lines: seq<Text>, max: int) {
    exists i :: 0 <= i < |lines| && ByteLength(lines[i]) > max
  }

  function WrapText(text: Text, max: int): Text {
    Join(WrapAll(Split(text, NEWLINE), max), NEWLINE)
  }

  /** Parts of a canonical list read back as themselves. */
  lemma CanonicalPart(a: seq<Text>, b: seq<Text>)
    requires Canonical(a + b)
    ensures Canonical(a) && Canonical(b)
  {
    assert forall i :: 0 <= i < |a| ==> a[i] == (a + b)[i];
    assert forall i :: 0 <= i < |b| ==> b[i] == (a + b)[|a| + i];
  }

  /** Output line k of a line is its k-th chunk, code points intact. */
  lemma {:induction false} FlattenAllAt(gs: seq<seq<Text>>, k: nat)
    requires Canonical(Concat(gs)) && k < |gs|
    ensures |FlattenAll(gs)| == |gs| && FlattenAll(gs)[k] == Flatten(gs[k]) && CodePoints(Flatten(gs[k])) == gs[k]
    decreases |gs|
  {
    CanonicalPart(gs[0], Concat(gs[1..]));
    CodePointsFlatten(gs[0]);
    if |gs| > 1 {
      FlattenAllAt(gs[1..], if k > 0 then k - 1 else 0);
    } else {
      assert gs[1..] == [];
    }
  }

  lemma {:induction false} FlattenConcat(gs: seq<seq<Text>>)
    ensures Flatten(FlattenAll(gs)) == Flatten(Concat(gs))
  {
    if gs != [] {
      FlattenConcat(gs[1..]);
      FlattenAppend(gs[0], Concat(gs[1..]));
      assert FlattenAll(gs)[1..] == FlattenAll(gs[1..]);
    }
  }

  /** The output lines of one input line: joined they are the line, each output line is one chunk of
      it and so has that chunk's bytes, and with a limit of at least 4 bytes each fits. */
  lemma WrapLineMeans(line: Text, max: int)
    ensures AllCodePoints(CodePoints(line))
    ensures var out, gs := WrapLine(line, max), Chunks(CodePoints(line), max);
            && Flatten(out) == line && |out| == |gs|
            && (forall k :: 0 <= k < |out| ==> CodePoints(out[k]) == gs[k] && out[k] == Flatten(gs[k]))
            && (max >= 4 ==> forall k :: 0 <= k < |out| ==> ByteLength(out[k]) <= max)
  {
    FlattenCodePoints(line);
    var cs := CodePoints(line);
    var gs := Chunks(cs, max);
    ChunksOfLine(cs, max);
    FlattenConcat(gs);
    FlattenAllAt(gs, 0);
    forall k | 0 <= k < |gs|
      ensures CodePoints(FlattenAll(gs)[k]) == gs[k] && FlattenAll(gs)[k] == Flatten(gs[k])
      ensures max >= 4 ==> ByteLength(FlattenAll(gs)[k]) <= max
    {
      FlattenAllAt(gs, k);
      assert gs[k] in gs;
      if max >= 4 && cs != [] {
        RoomForOne(gs[k], max);
      }
    }
  }

  /** A line that is left in one piece is left as it is. */
  lemma WrapLineSame(line: Text, max: int)
    ensures AllCodePoints(CodePoints(line))
    ensures |WrapLine(line, max)| >= 1
    ensures |WrapLine(line, max)| == 1 <==> ByteLength(line) <= max || |CodePoints(line)| <= 1
    ensures |WrapLine(line, max)| == 1 ==> WrapLine(line, max) == [line]
  {
    WrapLineMeans(line, max);
    OnePieceIff(CodePoints(line), max);
    if |WrapLine(line, max)| == 1 {
      FlattenCodePoints(line);
      assert WrapLine(line, max)[0] == Flatten(CodePoints(line));
    }
  }

  lemma {:induction false} FlattenClean(parts: seq<Text>, i: nat)
    requires i < |parts| && NEWLINE !in Flatten(parts)
    ensures NEWLINE !in parts[i]
    decreases |parts|
  {
    assert forall u <- parts[0] :: u in Flatten(parts);
    assert forall u <- Flatten(parts[1..]) :: u in Flatten(parts);
    if i > 0 {
      FlattenClean(parts[1..], i - 1);
    }
  }

  lemma WrapLineClean(line: Text, max: int)
    requires NEWLINE !in line
    ensures Clean(WrapLine(line, max), NEWLINE)
  {
    WrapLineMeans(line, max);
    var out := WrapLine(line, max);
    forall i | 0 <= i < |out| ensures NEWLINE !in out[i] {
      FlattenClean(out, i);
    }
  }

  lemma {:induction false} WrapAllClean(lines: seq<Text>, max: int)
    requires Clean(lines, NEWLINE)
    ensures Clean(WrapAll(lines, max), NEWLINE)
    decreases |lines|
  {
    if lines != [] {
      var n := |lines| - 1;
      assert lines[n] in lines;
      WrapAllClean(lines[..n], max);
      WrapLineClean(lines[n], max);
    }
  }

  /** Some line is cut: it is too long and has a code point to cut after. */
  predicate Cuts(lines: seq<Text>, max: int) {
    exists i :: 0 <= i < |lines| && ByteLength(lines[i]) > max && |CodePoints(lines[i])| > 1
  }

  lemma CutsSnoc(lines: seq<Text>, line: Text, max: int)
    ensures Cuts(lines + [line], max) <==> Cuts(lines, max) || (ByteLength(line) > max && |CodePoints(line)| > 1)
  {
    var all := lines + [line];
    if Cuts(lines, max) {
      var i :| 0 <= i < |lines| && ByteLength(lines[i]) > max && |CodePoints(lines[i])| > 1;
      assert all[i] == lines[i];
    }
    assert all[|lines|] == line;
  }

  lemma {:induction false} WrapAllSame(lines: seq<Text>, max: int)
    ensures |WrapAll(lines, max)| >= |lines|
    ensures |WrapAll(lines, max)| == |lines| <==> !Cuts(lines, max)
    ensures !Cuts(lines, max) ==> WrapAll(lines, max) == lines
    decreases |lines|
  {
    if lines != [] {
      var n := |lines| - 1;
      assert lines == lines[..n] + [lines[n]];
      CutsSnoc(lines[..n], lines[n], max);
      WrapAllSame(lines[..n], max);
      WrapLineSame(lines[n], max);
    }
  }

  /** Wrapping changes a text exactly when it has a line that is too long and has more than one code point. */
  lemma ChangedIff(text: Text, max: int)
    ensures WrapText(text, max) != text <==> Cuts(Split(text, NEWLINE), max)
    ensures Split(WrapText(text, max), NEWLINE) == WrapAll(Split(text, NEWLINE), max)
  {
    var lines := Split(text, NEWLINE);
    JoinSplit(text, NEWLINE);
    WrapAllClean(lines, max);
    WrapAllSame(lines, max);
    SplitJoin(WrapAll(lines, max), NEWLINE);
  }

  lemma OnePointFits(line: Text)
    requires |CodePoints(line)| <= 1
    ensures ByteLength(line) <= 4
  {
    FlattenCodePoints(line);
    if CodePoints(line) != [] {
      assert CodePoints(line)[..0] == [];
    }
  }

  /** With a limit of at least 4 bytes the flag is set exactly when the text changed. */
  lemma FlagMeansChanged(text: Text, max: int)
    requires max >= 4
    ensures TooLong(Split(text, NEWLINE), max) <==> WrapText(text, max) != text
  {
    ChangedIff(text, max);
    var lines := Split(text, NEWLINE);
    if TooLong(lines, max) {
      var i :| 0 <= i < |lines| && ByteLength(lines[i]) > max;
      if |CodePoints(lines[i])| <= 1 {
        OnePointFits(lines[i]);
      }
      assert Cuts(lines, max);
    }
  }

  lemma {:induction false} WrapAllFits(lines: seq<Text>, max: int)
    requires max >= 4
    ensures forall i :: 0 <= i < |WrapAll(lines, max)| ==> ByteLength(WrapAll(lines, max)[i]) <= max
    decreases |lines|
  {
    if lines != [] {
      WrapAllFits(lines[..|lines| - 1], max);
      WrapLineMeans(lines[|lines| - 1], max);
    }
  }

  /** With a limit of at least 4 bytes every line of the wrapped text fits, and wrapping it again
      changes nothing and sets no flag. */
  lemma WrapAgain(text: Text, max: int)
    requires max >= 4
    ensures var lines := Split(WrapText(text, max), NEWLINE);
            && (forall i :: 0 <= i < |lines| ==> ByteLength(lines[i]) <= max)
            && !TooLong(lines, max)
            && WrapText(WrapText(text, max), max) == WrapText(text, max)
  {
    ChangedIff(text, max);
    WrapAllFits(Split(text, NEWLINE), max);
    FlagMeansChanged(WrapText(text, max), max);
  }

  /** The flag says whether the text changed exactly when it is not set for lines of one code point
      alone: if a line is too long, then one that has more than one code point is. */
  lemma FlagRightIff(text: Text, max: int)
    ensures var lines := Split(text, NEWLINE);
            (TooLong(lines, max) <==> WrapText(text, max) != text) <==> (TooLong(lines, max) ==> Cuts(lines, max))
  {
    ChangedIff(text, max);
    var lines := Split(text, NEWLINE);
    if Cuts(lines, max) {
      var i :| 0 <= i < |lines| && ByteLength(lines[i]) > max && |CodePoints(lines[i])| > 1;
      assert TooLong(lines, max);
    }
  }

  /** Below 4 bytes the flag can be set for a text that is left alone: one code point of 3 bytes. */
  lemma FlagTooEager()
    ensures TooLong(Split([0x20AC], NEWLINE), 2) && WrapText([0x20AC], 2) == [0x20AC]
  {
    var euro: Text := [0x20AC];
    var lines := Split(euro, NEWLINE);
    var none: seq<Text> := [[]];
    assert euro[1..] == [] && Split(euro[1..], NEWLINE) == none;
    assert [euro[0]] + none[0] == euro && none[1..] == [];
    assert lines == [euro];
    assert euro[..1] == euro && CodePoints(euro[1..]) == [];
    assert CodePoints(euro) == [euro];
    FlattenCodePoints(euro);
    assert Bytes([euro][..0]) == 0;
    assert Bytes([euro]) == 3;
    assert ByteLength(lines[0]) == 3;
    ChangedIff(euro, 2);
  }

  // ---------- the code ----------

  method WrapLongLines(text: Text, max: int) returns (wrappedText: Text, wrapped: bool)
    ensures wrappedText == WrapText(text, max)
    ensures wrapped <==> TooLong(Split(text, NEWLINE), max)
  {
    var lines := Split(text, NEWLINE);
    var out := [];
    wrapped := false;
    for k := 0 to |lines|
      invariant out == WrapAll(lines[..k], max)
      invariant wrapped <==> TooLong(lines[..k], max)
    {
      var line := lines[k];
      assert lines[..k + 1][..k] == lines[..k];
      WrapLineSame(line, max);
      TooLongSnoc(lines[..k], line, max);
      assert lines[..k + 1] == lines[..k] + [line];
      if ByteLength(line) <= max {
        out := out + [line];
        continue;
      }
      wrapped := true;
      var chunks := CutLine(line, max);
      out := out + chunks;
    }
    assert lines[..|lines|] == lines;
    wrappedText := Join(out, NEWLINE);
  }

  lemma TooLongSnoc(lines: seq<Text>, line: Text, max: int)
    ensures TooLong(lines + [line], max) <==> TooLong(lines, max) || ByteLength(line) > max
  {
    var all := lines + [line];
    if TooLong(lines, max) {
      var i :| 0 <= i < |lines| && ByteLength(lines[i]) > max;
      assert all[i] == lines[i];
    }
    assert all[|lines|] == line;
  }

  /** Where a run of code points stands in the units of a line. */
  lemma UnitsOf(done: seq<Text>, cur: seq<Text>, rest: seq<Text>)
    ensures var line := Flatten(done + cur + rest);
            && |Flatten(done)| <= |Flatten(done + cur)| <= |line|
            && line[|Flatten(done)|..|Flatten(done + cur)|] == Flatten(cur)
  {
    FlattenAppend(done, cur);
    FlattenAppend(done + cur, rest);
  }

  lemma FlattenSnoc(cs: seq<Text>, c: Text)
    ensures Flatten(cs + [c]) == Flatten(cs) + c
  {
    FlattenAppend(cs, [c]);
    assert [c][1..] == [] && Flatten([c]) == c + [];
  }

  lemma FlattenPush(out: seq<Text>, g: seq<Text>, gs: seq<seq<Text>>)
    ensures out + FlattenAll([g] + gs) == out + [Flatten(g)] + FlattenAll(gs)
  {
    assert ([g] + gs)[1..] == gs;
  }

  /** The units of a line before the current chunk and in it. */
  ghost predicate Placed(line: Text, done: seq<Text>, cur: seq<Text>, rest: seq<Text>, start: nat, offset: nat) {
    line == Flatten(done + cur + rest) && start == |Flatten(done)| && offset == |Flatten(done + cur)|
  }

  /** What is still to be pushed is the current chunk and the greedy chunks of the rest. */
  ghost predicate Owed(all: seq<Text>, out: seq<Text>, cur: seq<Text>, rest: seq<Text>, max: int)
    requires AllCodePoints(cur) && AllCodePoints(rest)
  {
    out + FlattenAll(Greedy(cur, rest, max)) == all
  }

  /** The next code point joins the current chunk, or starts the next one. */
  lemma PlaceNext(line: Text, done: seq<Text>, cur: seq<Text>, c: Text, rest: seq<Text>, start: nat, offset: nat)
    requires Placed(line, done, cur, [c] + rest, start, offset)
    ensures Placed(line, done, cur + [c], rest, start, offset + |c|)
    ensures Placed(line, done + cur, [c], rest, offset, offset + |c|)
  {
    var mid := done + cur;
    FlattenSnoc(mid, c);
    assert done + (cur + [c]) == mid + [c];
    assert mid + [c] + rest == mid + ([c] + rest);
  }

  lemma OweNext(all: seq<Text>, out: seq<Text>, cur: seq<Text>, rest: seq<Text>, max: int)
    requires AllCodePoints(cur) && AllCodePoints(rest) && rest != [] && Owed(all, out, cur, rest, max)
    ensures AllCodePoints(cur + [rest[0]])
    ensures if Bytes(cur) + Size(rest[0]) > max && cur != []
            then Owed(all, out + [Flatten(cur)], [rest[0]], rest[1..], max)
            else Owed(all, out, cur + [rest[0]], rest[1..], max)
  {
    if Bytes(cur) + Size(rest[0]) > max && cur != [] {
      FlattenPush(out, cur, Greedy([rest[0]], rest[1..], max));
    }
  }

  lemma OweLast(all: seq<Text>, out: seq<Text>, cur: seq<Text>, rest: seq<Text>, max: int)
    requires AllCodePoints(cur) && rest == [] && Owed(all, out, cur, rest, max)
    ensures out + [Flatten(cur)] == all
  {
    var gs := Greedy(cur, rest, max);
    assert gs == [cur] && gs[1..] == [];
    assert FlattenAll(gs) == [Flatten(cur)] + FlattenAll(gs[1..]);
  }

  lemma NotEmpty(cur: seq<Text>, start: nat, offset: nat, line: Text, done: seq<Text>, rest: seq<Text>)
    requires AllCodePoints(cur) && Placed(line, done, cur, rest, start, offset)
    ensures cur != [] <==> offset > start
  {
    FlattenAppend(done, cur);
  }

  /** The state of the loop over a long line: the code points before the current chunk, in it, and to come. */
  ghost predicate Cutting(line: Text, all: seq<Text>, max: int, done: seq<Text>, cur: seq<Text>, rest: seq<Text>,
                          out: seq<Text>, start: nat, offset: nat, bytes: nat) {
    && AllCodePoints(cur) && AllCodePoints(rest) && bytes == Bytes(cur)
    && Placed(line, done, cur, rest, start, offset)
    && Owed(all, out, cur, rest, max)
  }

  lemma CutStart(line: Text, max: int)
    requires ByteLength(line) > max
    ensures Cutting(line, WrapLine(line, max), max, [], [], CodePoints(line), [], 0, 0, 0)
  {
    FlattenCodePoints(line);
    var cs := CodePoints(line);
    var gs := FlattenAll(Greedy([], cs, max));
    assert [] + [] + cs == cs && [] + gs == gs;
  }

  lemma CutStep(line: Text, all: seq<Text>, max: int, done: seq<Text>, cur: seq<Text>, rest: seq<Text>,
                out: seq<Text>, start: nat, offset: nat, bytes: nat)
    requires Cutting(line, all, max, done, cur, rest, out, start, offset, bytes) && rest != []
    ensures start <= offset <= |line|
    ensures var c := rest[0];
            if bytes + Size(c) > max && offset > start
            then Cutting(line, all, max, done + cur, [c], rest[1..], out + [line[start..offset]], offset, offset + |c|,
                         Size(c))
            else Cutting(line, all, max, done, cur + [c], rest[1..], out, start, offset + |c|, bytes + Size(c))
  {
    var c := rest[0];
    assert rest == [c] + rest[1..];
    NotEmpty(cur, start, offset, line, done, rest);
    UnitsOf(done, cur, rest);
    PlaceNext(line, done, cur, c, rest[1..], start, offset);
    OweNext(all, out, cur, rest, max);
    OneFits(c, max);
    BytesSnoc(cur, c);
  }

  lemma CutEnd(line: Text, all: seq<Text>, max: int, done: seq<Text>, cur: seq<Text>, rest: seq<Text>,
               out: seq<Text>, start: nat, offset: nat, bytes: nat)
    requires Cutting(line, all, max, done, cur, rest, out, start, offset, bytes) && rest == []
    ensures start <= |line| && out + [line[start..]] == all
  {
    UnitsOf(done, cur, rest);
    assert done + cur + rest == done + cur;
    assert line[start..] == line[start..offset];
    OweLast(all, out, cur, rest, max);
  }

  method CutLine(line: Text, max: int) returns (out: seq<Text>)
    requires ByteLength(line) > max
    ensures out == WrapLine(line, max)
  {
    CutStart(line, max);
    ghost var all := WrapLine(line, max);
    var cs := CodePoints(line);
    var start: nat, offset: nat, bytes: nat := 0, 0, 0;
    out := [];
    ghost var done, cur := [], [];
    assert cs[0..] == cs;
    for k := 0 to |cs|
      invariant Cutting(line, all, max, done, cur, cs[k..], out, start, offset, bytes)
    {
      var c := cs[k];
      assert cs[k..][0] == c && cs[k..][1..] == cs[k + 1..];
      CutStep(line, all, max, done, cur, cs[k..], out, start, offset, bytes);
      var size := ValueBytes(Value(c));
      if bytes + size > max && offset > start {
        out := out + [line[start..offset]];
        start := offset;
        bytes := 0;
        done, cur := done + cur, [];
      }
      bytes := bytes + size;
      offset := offset + |c|;
      cur := cur + [c];
    }
    CutEnd(line, all, max, done, cur, cs[|cs|..], out, start, offset, bytes);
    out := out + [line[start..]];
  }
}
