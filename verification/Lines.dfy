/** JavaScript's `text.split(separator)` for a one-element separator, and `lines.join(separator)`. */
module Lines {

  function Split<T(==)>(s: seq<T>, sep: T): (lines: seq<seq<T>>)
    ensures |lines| > 0
  {
    if s == [] then [[]]
    else
      var rest := Split(s[1..], sep);
      if s[0] == sep then [[]] + rest else [[s[0]] + rest[0]] + rest[1..]
  }

  function Join<T>(lines: seq<seq<T>>, sep: T): seq<T> {
    if lines == [] then [] else if |lines| == 1 then lines[0] else lines[0] + [sep] + Join(lines[1..], sep)
  }

  /** No line holds the separator. */
  ghost predicate Clean<T>(lines: seq<seq<T>>, sep: T) {
    forall l <- lines :: sep !in l
  }

  lemma {:induction false} SplitClean<T>(s: seq<T>, sep: T)
    ensures Clean(Split(s, sep), sep)
  {
    if s != [] {
      SplitClean(s[1..], sep);
      var rest := Split(s[1..], sep);
      assert rest[0] in rest && forall l <- rest[1..] :: l in rest;
    }
  }

  lemma {:induction false} JoinSplit<T>(s: seq<T>, sep: T)
    ensures Join(Split(s, sep), sep) == s
    ensures Clean(Split(s, sep), sep)
  {
    SplitClean(s, sep);
    if s != [] {
      JoinSplit(s[1..], sep);
      var rest := Split(s[1..], sep);
      if s[0] == sep {
        assert ([[]] + rest)[1..] == rest;
      } else {
        assert ([[s[0]] + rest[0]] + rest[1..])[1..] == rest[1..];
      }
      assert s == [s[0]] + s[1..];
    }
  }

  lemma {:induction false} JoinConsChar<T>(c: T, first: seq<T>, rest: seq<seq<T>>, sep: T)
    ensures Join([[c] + first] + rest, sep) == [c] + Join([first] + rest, sep)
  {
    assert ([[c] + first] + rest)[1..] == rest && ([first] + rest)[1..] == rest;
  }

  lemma {:induction false} SplitJoin<T>(lines: seq<seq<T>>, sep: T)
    requires lines != [] && Clean(lines, sep)
    ensures Split(Join(lines, sep), sep) == lines
    decreases |lines|, |lines[0]|
  {
    var rest := lines[1..];
    assert lines == [lines[0]] + rest;
    if lines[0] == [] {
      if rest != [] {
        SplitJoin(rest, sep);
        assert Join(lines, sep) == [sep] + Join(rest, sep);
      }
    } else {
      var c, first := lines[0][0], lines[0][1..];
      assert lines[0] == [c] + first;
      assert c in lines[0] && lines[0] in lines;
      JoinConsChar(c, first, rest, sep);
      var shorter := [first] + rest;
      assert Clean(shorter, sep) by {
        forall l <- shorter ensures sep !in l {
          assert forall x <- first :: x in lines[0];
          assert l == first || l in lines;
        }
      }
      SplitJoin(shorter, sep);
      assert Join(lines, sep)[1..] == Join(shorter, sep);
      assert shorter[1..] == rest;
    }
  }

  lemma {:induction false} JoinAppend<T>(lines: seq<seq<T>>, last: seq<T>, sep: T)
    requires lines != []
    ensures Join(lines + [last], sep) == Join(lines, sep) + [sep] + last
  {
    assert (lines + [last])[1..] == lines[1..] + [last];
    if |lines| > 1 {
      JoinAppend(lines[1..], last, sep);
    }
  }
}
