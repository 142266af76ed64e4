/** The three-way merge of an agent draft after an author turn (`mergeTurnDraft` in
    src/agents/authorChat.ts): `start` and `end` are the draft before and after the turn, `disk`
    is what is stored now. Where start and end hold an object, and disk holds one or nothing, the
    merge goes into it; anywhere else a field is kept, replaced or removed as a whole.

    `sameDraftValue` compares JSON texts, which is equality of values including key order. The
    merged object lists start's keys first, so the laws hold up to key order (`Eqv`). */
module DraftMerge {
  import opened JsonValues
  import opened Options
  import opened Utf16

  const EMPTY := Obj([], map[])

  function Field(v: Json, k: Text): Option<Json>
    requires v.Obj?
  {
    if k in v.fields then Some(v.fields[k]) else None
  }

  /** What the merge puts under one key, if anything. */
  function MergeKey(start: Json, end: Json, disk: Json, k: Text): Option<Json>
    requires start.Obj? && end.Obj? && disk.Obj?
    decreases start, 0, 0
  {
    match (Field(start, k), Field(end, k))
    case (Some(_), None) => None
    case (None, None) => Field(disk, k)
    case (None, Some(e)) => Some(e)
    case (Some(s), Some(e)) =>
      var diskHas := k in disk.fields;
      if s.Obj? && e.Obj? && (!diskHas || disk.fields[k].Obj?) then
        if !diskHas && s == e then None
        else Some(Merge(s, e, if diskHas then disk.fields[k] else EMPTY))
      else if s == e then Field(disk, k)
      else Some(e)
  }

  function AllKeys(start: Json, end: Json, disk: Json): set<Text>
    requires start.Obj? && end.Obj? && disk.Obj?
  {
    start.fields.Keys + end.fields.Keys + disk.fields.Keys
  }

  function Merge(start: Json, end: Json, disk: Json): (r: Json)
    requires start.Obj? && end.Obj? && disk.Obj?
    ensures r.Obj?
    decreases start, 1
  {
    Obj(KeptKeys(start, end, disk, Union(start.keys + end.keys + disk.keys)),
        map k | k in AllKeys(start, end, disk) && MergeKey(start, end, disk, k).Some? ::
          MergeKey(start, end, disk, k).value)
  }

  /** The members of a JavaScript Set, in insertion order. */
  function Union(ks: seq<Text>): seq<Text> {
    if ks == [] then []
    else
      var us := Union(ks[..|ks| - 1]);
      if ks[|ks| - 1] in us then us else us + [ks[|ks| - 1]]
  }

  lemma {:induction false} UnionMembers(ks: seq<Text>)
    ensures Distinct(Union(ks))
    ensures forall k :: k in Union(ks) <==> k in ks
    decreases |ks|
  {
    if ks != [] {
      var n := |ks| - 1;
      UnionMembers(ks[..n]);
      assert ks == ks[..n] + [ks[n]];
    }
  }

  function KeptKeys(start: Json, end: Json, disk: Json, ks: seq<Text>): seq<Text>
    requires start.Obj? && end.Obj? && disk.Obj?
    decreases start, 0, |ks| + 1
  {
    if ks == [] then []
    else
      var n := |ks| - 1;
      KeptKeys(start, end, disk, ks[..n]) + (if MergeKey(start, end, disk, ks[n]).Some? then [ks[n]] else [])
  }

  /** Both absent, or present with the same value up to key order. */
  ghost predicate SameField(x: Option<Json>, y: Option<Json>) {
    match (x, y)
    case (None, None) => true
    case (Some(v), Some(w)) => Eqv(v, w)
    case _ => false
  }

  lemma MergeField(start: Json, end: Json, disk: Json, k: Text)
    requires start.Obj? && end.Obj? && disk.Obj?
    ensures Field(Merge(start, end, disk), k) == MergeKey(start, end, disk, k)
  {
  }

  /** Objects with the same fields are the same value. */
  lemma FieldsEqv(v: Json, w: Json)
    requires v.Obj? && w.Obj? && forall k :: SameField(Field(v, k), Field(w, k))
    ensures Eqv(v, w)
  {
    assert forall k :: k in v.fields <==> k in w.fields by {
      forall k ensures k in v.fields <==> k in w.fields {
        assert SameField(Field(v, k), Field(w, k));
      }
    }
    assert v.fields.Keys == w.fields.Keys;
    forall k <- v.fields ensures Eqv(v.fields[k], w.fields[k]) {
      assert SameField(Field(v, k), Field(w, k));
    }
  }

  // ---------- the merge is a well-formed object ----------

  lemma {:induction false} KeptKeysKeep(start: Json, end: Json, disk: Json, ks: seq<Text>)
    requires start.Obj? && end.Obj? && disk.Obj? && Distinct(ks)
    ensures Distinct(KeptKeys(start, end, disk, ks))
    ensures forall k :: k in KeptKeys(start, end, disk, ks) <==> k in ks && MergeKey(start, end, disk, k).Some?
    decreases |ks|
  {
    if ks != [] {
      var n := |ks| - 1;
      KeptKeysKeep(start, end, disk, ks[..n]);
      assert ks == ks[..n] + [ks[n]];
      assert ks[n] !in ks[..n];
    }
  }

  lemma {:induction false} MergeKeyWellFormed(start: Json, end: Json, disk: Json, k: Text)
    requires start.Obj? && end.Obj? && disk.Obj?
    requires WellFormed(start) && WellFormed(end) && WellFormed(disk)
    ensures MergeKey(start, end, disk, k).Some? ==> WellFormed(MergeKey(start, end, disk, k).value)
    decreases start, 0
  {
    if k in start.fields && k in end.fields && start.fields[k].Obj? && end.fields[k].Obj? {
      if k in disk.fields && disk.fields[k].Obj? {
        MergeWellFormed(start.fields[k], end.fields[k], disk.fields[k]);
      } else if k !in disk.fields {
        MergeWellFormed(start.fields[k], end.fields[k], EMPTY);
      }
    }
  }

  /** Merging well-formed drafts gives a well-formed draft. */
  lemma {:induction false} MergeWellFormed(start: Json, end: Json, disk: Json)
    requires start.Obj? && end.Obj? && disk.Obj?
    requires WellFormed(start) && WellFormed(end) && WellFormed(disk)
    ensures WellFormed(Merge(start, end, disk))
    decreases start, 1
  {
    var m := Merge(start, end, disk);
    var us := Union(start.keys + end.keys + disk.keys);
    UnionMembers(start.keys + end.keys + disk.keys);
    KeptKeysKeep(start, end, disk, us);
    assert forall k :: k in us <==> k in AllKeys(start, end, disk);
    assert m.keys == KeptKeys(start, end, disk, us);
    forall k ensures k in m.keys <==> k in m.fields {
      MergeField(start, end, disk, k);
    }
    forall k <- m.fields ensures WellFormed(m.fields[k]) {
      MergeField(start, end, disk, k);
      MergeKeyWellFormed(start, end, disk, k);
    }
  }

  // ---------- the laws ----------

  /** No update is lost. Under a key the stored draft left alone, the merge is what the turn made of
      it; under a key the turn left alone, the merge is what is stored. */
  lemma {:induction false} NoLostUpdate(start: Json, end: Json, disk: Json, k: Text)
    requires start.Obj? && end.Obj? && disk.Obj?
    ensures Field(disk, k) == Field(start, k) ==> SameField(MergeKey(start, end, disk, k), Field(end, k))
    ensures Field(end, k) == Field(start, k) ==> SameField(MergeKey(start, end, disk, k), Field(disk, k))
    decreases start, 0
  {
    if k in end.fields {
      EqvRefl(end.fields[k]);
    }
    if k in disk.fields {
      EqvRefl(disk.fields[k]);
    }
    if k in start.fields && k in end.fields && k in disk.fields {
      var s, e, d := start.fields[k], end.fields[k], disk.fields[k];
      if s.Obj? && e.Obj? && d.Obj? {
        MergeWithStart(s, e);
        MergeUnchanged(s, d);
      }
    }
  }

  /** What a three-way merge should hold, key by key: where the turn changed the field it is what the
      turn made of it, elsewhere it is what is stored; and inside an object that both ends of the turn
      hold, the same again, unless something else than an object is stored there. */
  ghost predicate MergedRight(start: Json, end: Json, disk: Json, m: Json)
    requires start.Obj? && end.Obj? && disk.Obj? && m.Obj?
    decreases start
  {
    forall k: Text ::
      if Inside(start, end, disk, k) then
        k in m.fields && m.fields[k].Obj? &&
        MergedRight(start.fields[k], end.fields[k], if k in disk.fields then disk.fields[k] else EMPTY, m.fields[k])
      else if Field(start, k) != Field(end, k) then Field(m, k) == Field(end, k)
      else Field(m, k) == Field(disk, k)
  }

  /** Both ends of the turn hold an object, and one is stored, or nothing is and the turn changed it. */
  predicate Inside(start: Json, end: Json, disk: Json, k: Text)
    requires start.Obj? && end.Obj? && disk.Obj?
  {
    Both(start, end, k) && if k in disk.fields then disk.fields[k].Obj? else start.fields[k] != end.fields[k]
  }

  /** Both have an object under the key. */
  predicate Both(first: Json, second: Json, k: Text)
    requires first.Obj? && second.Obj?
  {
    k in first.fields && k in second.fields && first.fields[k].Obj? && second.fields[k].Obj?
  }

  lemma {:induction false} MergeIsRight(start: Json, end: Json, disk: Json)
    requires start.Obj? && end.Obj? && disk.Obj?
    ensures MergedRight(start, end, disk, Merge(start, end, disk))
    decreases start
  {
    var m := Merge(start, end, disk);
    forall k
      ensures if Inside(start, end, disk, k) then
                k in m.fields && m.fields[k].Obj? &&
                MergedRight(start.fields[k], end.fields[k], if k in disk.fields then disk.fields[k] else EMPTY,
                            m.fields[k])
              else if Field(start, k) != Field(end, k) then Field(m, k) == Field(end, k)
              else Field(m, k) == Field(disk, k)
    {
      MergeField(start, end, disk, k);
      if Inside(start, end, disk, k) {
        MergeIsRight(start.fields[k], end.fields[k], if k in disk.fields then disk.fields[k] else EMPTY);
      }
    }
  }

  /** Nothing else is right: two right merges are the same value up to key order. */
  lemma {:induction false} RightUnique(start: Json, end: Json, disk: Json, m: Json, n: Json)
    requires start.Obj? && end.Obj? && disk.Obj? && m.Obj? && n.Obj?
    requires MergedRight(start, end, disk, m) && MergedRight(start, end, disk, n)
    ensures Eqv(m, n)
    decreases start
  {
    forall k ensures SameField(Field(m, k), Field(n, k)) {
      if Inside(start, end, disk, k) {
        RightUnique(start.fields[k], end.fields[k], if k in disk.fields then disk.fields[k] else EMPTY,
                    m.fields[k], n.fields[k]);
      } else if k in m.fields {
        EqvRefl(m.fields[k]);
      }
    }
    FieldsEqv(m, n);
  }

  /** A change of the turn wins over whatever is stored: a field that it added, removed or replaced, and
      an object that it changed where something else is stored. */
  lemma TurnChangeWins(start: Json, end: Json, disk: Json, k: Text)
    requires start.Obj? && end.Obj? && disk.Obj? && Field(start, k) != Field(end, k)
    requires !Both(start, end, k) || (k in disk.fields && !disk.fields[k].Obj?)
    ensures Field(Merge(start, end, disk), k) == Field(end, k)
  {
    MergeIsRight(start, end, disk);
  }

  /** merge(s, e, s) = e: a turn nobody interfered with is stored as it is. */
  lemma {:induction false} MergeWithStart(start: Json, end: Json)
    requires start.Obj? && end.Obj?
    ensures Eqv(Merge(start, end, start), end)
    decreases start, 1
  {
    forall k ensures SameField(Field(Merge(start, end, start), k), Field(end, k)) {
      MergeField(start, end, start, k);
      NoLostUpdate(start, end, start, k);
    }
    FieldsEqv(Merge(start, end, start), end);
  }

  /** merge(s, s, d) = d: a turn that changed nothing leaves the stored draft alone. */
  lemma {:induction false} MergeUnchanged(start: Json, disk: Json)
    requires start.Obj? && disk.Obj?
    ensures Eqv(Merge(start, start, disk), disk)
    decreases start, 1
  {
    forall k ensures SameField(Field(Merge(start, start, disk), k), Field(disk, k)) {
      MergeField(start, start, disk, k);
      NoLostUpdate(start, start, disk, k);
    }
    FieldsEqv(Merge(start, start, disk), disk);
  }

  /** merge(s, e, e) = e: storing what is stored already changes nothing. */
  lemma {:induction false} MergeStored(start: Json, end: Json)
    requires start.Obj? && end.Obj?
    ensures Eqv(Merge(start, end, end), end)
    decreases start
  {
    forall k ensures SameField(Field(Merge(start, end, end), k), Field(end, k)) {
      MergeField(start, end, end, k);
      if k in end.fields {
        EqvRefl(end.fields[k]);
        if k in start.fields && start.fields[k].Obj? && end.fields[k].Obj? {
          MergeStored(start.fields[k], end.fields[k]);
        }
      }
    }
    FieldsEqv(Merge(start, end, end), end);
  }

  /** merge(s, e, merge(s, e, d)) = merge(s, e, d): merging a turn twice is merging it once. */
  lemma {:induction false} MergeIdempotent(start: Json, end: Json, disk: Json)
    requires start.Obj? && end.Obj? && disk.Obj?
    ensures Eqv(Merge(start, end, Merge(start, end, disk)), Merge(start, end, disk))
    decreases start
  {
    var once := Merge(start, end, disk);
    var twice := Merge(start, end, once);
    forall k ensures SameField(Field(twice, k), Field(once, k)) {
      MergeField(start, end, disk, k);
      MergeField(start, end, once, k);
      if k in once.fields {
        EqvRefl(once.fields[k]);
      }
      if k in start.fields && k in end.fields && start.fields[k].Obj? && end.fields[k].Obj? {
        var s, e := start.fields[k], end.fields[k];
        MergeStored(s, e);
        if k in disk.fields && disk.fields[k].Obj? {
          MergeIdempotent(s, e, disk.fields[k]);
        } else if k !in disk.fields {
          MergeIdempotent(s, e, EMPTY);
        }
      }
    }
    FieldsEqv(twice, once);
  }

  /** At every key at most one side changed it, or both changed the inside of one object without conflict. */
  ghost predicate NoConflict(start: Json, end: Json, disk: Json)
    requires start.Obj? && end.Obj? && disk.Obj?
    decreases start
  {
    forall k <- AllKeys(start, end, disk) ::
      || Field(end, k) == Field(start, k)
      || Field(disk, k) == Field(start, k)
      || (k in start.fields && k in end.fields && k in disk.fields
          && start.fields[k].Obj? && end.fields[k].Obj? && disk.fields[k].Obj?
          && NoConflict(start.fields[k], end.fields[k], disk.fields[k]))
  }

  lemma SameFieldJoin(x: Option<Json>, y: Option<Json>, z: Option<Json>)
    requires SameField(x, z) && SameField(y, z)
    ensures SameField(x, y)
  {
    if x.Some? {
      EqvSym(y.value, z.value);
      EqvTrans(x.value, z.value, y.value);
    }
  }

  /** Without a conflict it does not matter which side is called the turn and which the disk. */
  lemma {:induction false} MergeCommutes(start: Json, end: Json, disk: Json)
    requires start.Obj? && end.Obj? && disk.Obj? && NoConflict(start, end, disk)
    ensures Eqv(Merge(start, end, disk), Merge(start, disk, end))
    decreases start
  {
    var m, n := Merge(start, end, disk), Merge(start, disk, end);
    forall k ensures SameField(Field(m, k), Field(n, k)) {
      MergeField(start, end, disk, k);
      MergeField(start, disk, end, k);
      NoLostUpdate(start, end, disk, k);
      NoLostUpdate(start, disk, end, k);
      if k !in AllKeys(start, end, disk) {
      } else if Field(end, k) == Field(start, k) {
        SameFieldJoin(Field(m, k), Field(n, k), Field(disk, k));
      } else if Field(disk, k) == Field(start, k) {
        SameFieldJoin(Field(m, k), Field(n, k), Field(end, k));
      } else {
        MergeCommutes(start.fields[k], end.fields[k], disk.fields[k]);
      }
    }
    FieldsEqv(m, n);
  }

  // ---------- when the order of keys is kept too ----------

  lemma UnionPush(ks: seq<Text>, k: Text)
    ensures Union(ks + [k]) == if k in Union(ks) then Union(ks) else Union(ks) + [k]
  {
    assert (ks + [k])[..|ks|] == ks;
  }

  /** Members that a Set has already change nothing. */
  lemma {:induction false} UnionKnown(ks: seq<Text>, more: seq<Text>)
    requires forall k <- more :: k in Union(ks)
    ensures Union(ks + more) == Union(ks)
    decreases |more|
  {
    if more == [] {
      assert ks + more == ks;
    } else {
      var rest, k := more[..|more| - 1], more[|more| - 1];
      assert k in more;
      UnionKnown(ks, rest);
      UnionPush(ks + rest, k);
      assert ks + more == ks + rest + [k];
    }
  }

  /** The members of a list that are wanted, in their order. */
  function Only(ks: seq<Text>, wanted: set<Text>): seq<Text> {
    if ks == [] then []
    else Only(ks[..|ks| - 1], wanted) + if ks[|ks| - 1] in wanted then [ks[|ks| - 1]] else []
  }

  lemma {:induction false} KeptIsOnly(start: Json, end: Json, disk: Json, ks: seq<Text>, wanted: set<Text>)
    requires start.Obj? && end.Obj? && disk.Obj?
    requires forall k <- ks :: k in wanted <==> MergeKey(start, end, disk, k).Some?
    ensures KeptKeys(start, end, disk, ks) == Only(ks, wanted)
    decreases |ks|
  {
    if ks != [] {
      assert ks[|ks| - 1] in ks;
      KeptIsOnly(start, end, disk, ks[..|ks| - 1], wanted);
    }
  }

  /** The keys of a merge are those it has fields for, in the order of the Set. */
  lemma MergeKeys(start: Json, end: Json, disk: Json)
    requires start.Obj? && end.Obj? && disk.Obj?
    ensures var m := Merge(start, end, disk);
            m.keys == Only(Union(start.keys + end.keys + disk.keys), m.fields.Keys)
  {
    var m, us := Merge(start, end, disk), Union(start.keys + end.keys + disk.keys);
    forall k <- us ensures k in m.fields.Keys <==> MergeKey(start, end, disk, k).Some? {
      MergeField(start, end, disk, k);
    }
    KeptIsOnly(start, end, disk, us, m.fields.Keys);
  }

  /** The second object lists the keys it shares with the first in the first's order and ahead of its
      own, and so at every depth. */
  predicate OrderKept(first: Json, second: Json)
    requires first.Obj? && second.Obj?
    decreases first
  {
    second.keys == Only(Union(first.keys + second.keys), second.fields.Keys) &&
    forall k <- first.fields :: Both(first, second, k) ==> OrderKept(first.fields[k], second.fields[k])
  }

  /** Under one key m holds what `kept` holds, but for the order inside an object of the first. */
  predicate FieldIff(first: Json, m: Json, kept: Json, k: Text)
    requires first.Obj? && m.Obj? && kept.Obj?
  {
    && (Field(m, k).Some? <==> Field(kept, k).Some?)
    && (!Both(first, kept, k) ==> Field(m, k) == Field(kept, k))
    && (Both(first, kept, k) ==> (Field(m, k) == Field(kept, k) <==> OrderKept(first.fields[k], kept.fields[k])))
  }

  lemma SameFields(m: Json, kept: Json)
    requires m.Obj? && kept.Obj? && forall k :: Field(m, k) == Field(kept, k)
    ensures m.fields == kept.fields
  {
    forall k ensures k in m.fields <==> k in kept.fields { assert Field(m, k) == Field(kept, k); }
    forall k <- kept.fields ensures m.fields[k] == kept.fields[k] { assert Field(m, k) == Field(kept, k); }
  }

  lemma SameKeys(first: Json, m: Json, kept: Json)
    requires first.Obj? && m.Obj? && kept.Obj? && forall k :: FieldIff(first, m, kept, k)
    ensures m.fields.Keys == kept.fields.Keys
  {
    forall k ensures k in m.fields <==> k in kept.fields { assert FieldIff(first, m, kept, k); }
  }

  lemma SameIff(first: Json, m: Json, kept: Json)
    requires first.Obj? && m.Obj? && kept.Obj? && forall k :: FieldIff(first, m, kept, k)
    requires m.keys == Only(Union(first.keys + kept.keys), m.fields.Keys)
    ensures m == kept <==> OrderKept(first, kept)
  {
    SameKeys(first, m, kept);
    if OrderKept(first, kept) {
      forall k ensures Field(m, k) == Field(kept, k) { assert FieldIff(first, m, kept, k); }
      SameFields(m, kept);
    }
    if m == kept {
      forall k <- first.fields | Both(first, kept, k) ensures OrderKept(first.fields[k], kept.fields[k]) {
        assert FieldIff(first, m, kept, k);
      }
    }
  }

  lemma SetOfThree(ks: seq<Text>, ls: seq<Text>, more: seq<Text>)
    requires forall k <- more :: k in ks || k in ls
    ensures Union(ks + ls + more) == Union(ks + ls)
  {
    UnionMembers(ks + ls);
    UnionKnown(ks + ls, more);
  }

  /** merge(s, e, s) is e itself, key order included, exactly when e keeps the order of s. */
  lemma {:induction false} MergeWithStartIff(start: Json, end: Json)
    requires start.Obj? && end.Obj?
    ensures Merge(start, end, start) == end <==> OrderKept(start, end)
    decreases start
  {
    SetOfThree(start.keys, end.keys, start.keys);
    MergeKeys(start, end, start);
    forall k ensures FieldIff(start, Merge(start, end, start), end, k) {
      MergeField(start, end, start, k);
      if Both(start, end, k) {
        MergeWithStartIff(start.fields[k], end.fields[k]);
      }
    }
    SameIff(start, Merge(start, end, start), end);
  }

  /** merge(s, s, d) is d itself exactly when d keeps the order of s. */
  lemma {:induction false} MergeUnchangedIff(start: Json, disk: Json)
    requires start.Obj? && disk.Obj?
    ensures Merge(start, start, disk) == disk <==> OrderKept(start, disk)
    decreases start
  {
    UnionTwice(start.keys, disk.keys);
    MergeKeys(start, start, disk);
    forall k ensures FieldIff(start, Merge(start, start, disk), disk, k) {
      MergeField(start, start, disk, k);
      if Both(start, disk, k) {
        MergeUnchangedIff(start.fields[k], disk.fields[k]);
      }
    }
    SameIff(start, Merge(start, start, disk), disk);
  }

  /** merge(s, e, e) is e itself exactly when e keeps the order of s. */
  lemma {:induction false} MergeStoredIff(start: Json, end: Json)
    requires start.Obj? && end.Obj?
    ensures Merge(start, end, end) == end <==> OrderKept(start, end)
    decreases start
  {
    SetOfThree(start.keys, end.keys, end.keys);
    MergeKeys(start, end, end);
    forall k ensures FieldIff(start, Merge(start, end, end), end, k) {
      MergeField(start, end, end, k);
      if Both(start, end, k) {
        MergeStoredIff(start.fields[k], end.fields[k]);
      }
    }
    SameIff(start, Merge(start, end, end), end);
  }

  lemma Snoc(ks: seq<Text>, more: seq<Text>)
    requires more != []
    ensures ks + more == ks + more[..|more| - 1] + [more[|more| - 1]]
  {
  }

  /** Two Sets with the same members in the same order go on alike. */
  lemma {:induction false} UnionSame(ks: seq<Text>, ls: seq<Text>, more: seq<Text>)
    requires Union(ks) == Union(ls)
    ensures Union(ks + more) == Union(ls + more)
    decreases |more|
  {
    if more == [] {
      assert ks + more == ks && ls + more == ls;
    } else {
      var rest, k := more[..|more| - 1], more[|more| - 1];
      UnionSame(ks, ls, rest);
      UnionPush(ks + rest, k);
      UnionPush(ls + rest, k);
      Snoc(ks, more);
      Snoc(ls, more);
    }
  }

  lemma UnionTwice(ks: seq<Text>, ls: seq<Text>)
    ensures Union(ks + ks + ls) == Union(ks + ls)
  {
    UnionMembers(ks);
    UnionKnown(ks, ks);
    UnionSame(ks + ks, ks, ls);
  }

  lemma {:induction false} OnlyMembers(ks: seq<Text>, wanted: set<Text>)
    ensures forall k :: k in Only(ks, wanted) <==> k in ks && k in wanted
    decreases |ks|
  {
    if ks != [] {
      var n := |ks| - 1;
      OnlyMembers(ks[..n], wanted);
      assert ks == ks[..n] + [ks[n]];
    }
  }

  lemma OnlyPush(ks: seq<Text>, k: Text, wanted: set<Text>)
    ensures Only(ks + [k], wanted) == Only(ks, wanted) + if k in wanted then [k] else []
  {
    assert (ks + [k])[..|ks|] == ks;
  }

  /** Listing again what a Set kept of its members changes nothing. */
  lemma {:induction false} OnlyAgain(ks: seq<Text>, more: seq<Text>, wanted: set<Text>)
    ensures Only(Union(ks + Only(Union(ks + more), wanted)), wanted) == Only(Union(ks + more), wanted)
    decreases |more|
  {
    var kept := Only(Union(ks + more), wanted);
    UnionMembers(ks);
    UnionMembers(ks + more);
    OnlyMembers(Union(ks + more), wanted);
    if more == [] {
      assert ks + more == ks;
      UnionKnown(ks, kept);
    } else {
      var rest, k := more[..|more| - 1], more[|more| - 1];
      Snoc(ks, more);
      UnionPush(ks + rest, k);
      OnlyAgain(ks, rest, wanted);
      if k !in Union(ks + rest) {
        OnlyAgainPush(ks, rest, k, wanted);
      }
    }
  }

  lemma OnlyAgainPush(ks: seq<Text>, rest: seq<Text>, k: Text, wanted: set<Text>)
    requires k !in Union(ks + rest)
    requires Only(Union(ks + Only(Union(ks + rest), wanted)), wanted) == Only(Union(ks + rest), wanted)
    ensures var kept := Only(Union(ks + rest) + [k], wanted);
            Only(Union(ks + kept), wanted) == kept
  {
    var us, shorter := Union(ks + rest), Only(Union(ks + rest), wanted);
    OnlyPush(us, k, wanted);
    if k in wanted {
      NotAmong(ks, rest, k, wanted);
      PushAgain(ks, shorter, k, wanted);
    } else {
      assert shorter + [] == shorter;
    }
  }

  lemma NotAmong(ks: seq<Text>, rest: seq<Text>, k: Text, wanted: set<Text>)
    requires k !in Union(ks + rest)
    ensures k !in Union(ks + Only(Union(ks + rest), wanted))
  {
    UnionMembers(ks + rest);
    OnlyMembers(Union(ks + rest), wanted);
    UnionMembers(ks + Only(Union(ks + rest), wanted));
  }

  lemma PushAgain(ks: seq<Text>, kept: seq<Text>, k: Text, wanted: set<Text>)
    requires k in wanted && k !in Union(ks + kept) && Only(Union(ks + kept), wanted) == kept
    ensures Only(Union(ks + (kept + [k])), wanted) == kept + [k]
  {
    assert ks + (kept + [k]) == ks + kept + [k];
    UnionPush(ks + kept, k);
    OnlyPush(Union(ks + kept), k, wanted);
  }

  /** Where the turn changed an object over which something else is stored, its end keeps the order of
      its start. */
  predicate OrderSettled(start: Json, end: Json, disk: Json)
    requires start.Obj? && end.Obj? && disk.Obj?
    decreases start, 1
  {
    forall k <- start.fields :: KeySettled(start, end, disk, k)
  }

  predicate KeySettled(start: Json, end: Json, disk: Json, k: Text)
    requires start.Obj? && end.Obj? && disk.Obj?
    decreases start, 0
  {
    Both(start, end, k) && k in disk.fields ==>
      if disk.fields[k].Obj? then OrderSettled(start.fields[k], end.fields[k], disk.fields[k])
      else start.fields[k] == end.fields[k] || OrderKept(start.fields[k], end.fields[k])
  }

  /** Merging twice lists the same keys in the same order as merging once. */
  lemma TwiceKeys(start: Json, end: Json, disk: Json)
    requires start.Obj? && end.Obj? && disk.Obj?
    ensures var once := Merge(start, end, disk);
            var twice := Merge(start, end, once);
            twice.fields.Keys == once.fields.Keys ==> twice.keys == once.keys
  {
    var once := Merge(start, end, disk);
    MergeKeys(start, end, disk);
    MergeKeys(start, end, once);
    OnlyAgain(start.keys + end.keys, disk.keys, once.fields.Keys);
  }

  /** merge(s, e, merge(s, e, d)) is merge(s, e, d) itself exactly when the order is settled. */
  lemma {:induction false} MergeIdempotentIff(start: Json, end: Json, disk: Json)
    requires start.Obj? && end.Obj? && disk.Obj?
    ensures Merge(start, end, Merge(start, end, disk)) == Merge(start, end, disk) <==> OrderSettled(start, end, disk)
    decreases start, 1
  {
    var once := Merge(start, end, disk);
    var twice := Merge(start, end, once);
    forall k
      ensures Field(twice, k).Some? <==> Field(once, k).Some?
      ensures Field(twice, k) == Field(once, k) <==> KeySettled(start, end, disk, k)
    {
      MergeField(start, end, disk, k);
      MergeField(start, end, once, k);
      if Both(start, end, k) {
        KeyTwice(start, end, disk, k);
      }
    }
    TwiceKeys(start, end, disk);
    if OrderSettled(start, end, disk) {
      forall k ensures Field(twice, k) == Field(once, k) { assert KeySettled(start, end, disk, k); }
      SameFields(twice, once);
    }
    if twice == once {
      forall k ensures KeySettled(start, end, disk, k) { assert Field(twice, k) == Field(once, k); }
    }
  }

  lemma {:induction false} KeyTwice(start: Json, end: Json, disk: Json, k: Text)
    requires start.Obj? && end.Obj? && disk.Obj? && Both(start, end, k)
    ensures var once := Merge(start, end, disk);
            (MergeKey(start, end, once, k).Some? <==> Field(once, k).Some?) &&
            (MergeKey(start, end, once, k) == Field(once, k) <==> KeySettled(start, end, disk, k))
    decreases start, 0
  {
    var s, e := start.fields[k], end.fields[k];
    MergeField(start, end, disk, k);
    if k !in disk.fields {
      MergeIdempotentIff(s, e, EMPTY);
    } else if disk.fields[k].Obj? {
      MergeIdempotentIff(s, e, disk.fields[k]);
    } else {
      MergeStoredIff(s, e);
    }
  }

  lemma UnionOfTwo(ks: seq<Text>, k: Text, l: Text)
    requires ks == [k, l] && k != l
    ensures Union(ks) == ks
  {
    UnionPush([], k);
    UnionPush([k], l);
    assert [] + [k] == [k] && [k] + [l] == ks;
  }

  lemma OnlyOfTwo(ks: seq<Text>, k: Text, l: Text, wanted: set<Text>)
    requires ks == [k, l] && k in wanted && l in wanted
    ensures Only(ks, wanted) == ks
  {
    OnlyPush([], k, wanted);
    OnlyPush([k], l, wanted);
    assert [] + [k] == [k] && [k] + [l] == ks;
  }

  /** So it is not always kept: a turn that does nothing but put the field of k behind the field of l is
      stored with the field of k in front. */
  lemma KeyOrderLost(k: Text, l: Text, start: Json, end: Json)
    requires k != l && start.Obj? && end.Obj? && start.keys == [k, l] && end.keys == [l, k]
    requires start.fields == end.fields && k in start.fields && l in start.fields
    ensures Merge(start, end, start).keys == start.keys != end.keys
    ensures !OrderKept(start, end)
  {
    UnionOfTwo(start.keys, k, l);
    UnionKnown(start.keys, end.keys);
    SetOfThree(start.keys, end.keys, start.keys);
    MergeKeys(start, end, start);
    TwoStay(k, l, start, end);
    OnlyOfTwo(start.keys, k, l, Merge(start, end, start).fields.Keys);
    MergeWithStartIff(start, end);
    assert start.keys[0] != end.keys[0];
  }

  lemma TwoStay(k: Text, l: Text, start: Json, end: Json)
    requires start.Obj? && end.Obj? && start.fields == end.fields && k in start.fields && l in start.fields
    ensures k in Merge(start, end, start).fields && l in Merge(start, end, start).fields
  {
    NoLostUpdate(start, end, start, k);
    NoLostUpdate(start, end, start, l);
    MergeField(start, end, start, k);
    MergeField(start, end, start, l);
  }

  // ---------- the code ----------

  /** The fields a key-by-key rule writes for a list of keys. */
  ghost function Collect(rule: Text -> Option<Json>, ks: seq<Text>): map<Text, Json> {
    map k | k in ks && rule(k).Some? :: rule(k).value
  }

  lemma CollectAppend(rule: Text -> Option<Json>, ks: seq<Text>, k: Text)
    ensures Collect(rule, ks + [k]) ==
            if rule(k).Some? then Collect(rule, ks)[k := rule(k).value] else Collect(rule, ks)
  {
  }

  ghost function Rule(start: Json, end: Json, disk: Json): Text -> Option<Json>
    requires start.Obj? && end.Obj? && disk.Obj?
  {
    k => MergeKey(start, end, disk, k)
  }

  lemma KeptKeysAppend(start: Json, end: Json, disk: Json, ks: seq<Text>, k: Text)
    requires start.Obj? && end.Obj? && disk.Obj?
    ensures KeptKeys(start, end, disk, ks + [k]) ==
            KeptKeys(start, end, disk, ks) + if Rule(start, end, disk)(k).Some? then [k] else []
  {
    assert (ks + [k])[..|ks|] == ks;
  }

  method MergeTurnDraft(start: Json, end: Json, disk: Json) returns (next: Json)
    requires start.Obj? && end.Obj? && disk.Obj?
    requires WellFormed(start) && WellFormed(end) && WellFormed(disk)
    ensures next == Merge(start, end, disk) && MergedRight(start, end, disk, next)
    decreases start, 1
  {
    MergeIsRight(start, end, disk);
    var keys := Union(start.keys + end.keys + disk.keys);
    next := EMPTY;
    for i := 0 to |keys|
      invariant next == Obj(KeptKeys(start, end, disk, keys[..i]), Collect(Rule(start, end, disk), keys[..i]))
    {
      var key := keys[i];
      assert keys[..i + 1] == keys[..i] + [key];
      CollectAppend(Rule(start, end, disk), keys[..i], key);
      KeptKeysAppend(start, end, disk, keys[..i], key);
      var merged := MergeOne(start, end, disk, key);
      if merged.Some? {
        next := Obj(next.keys + [key], next.fields[key := merged.value]);
      }
    }
    assert keys[..|keys|] == keys;
    UnionMembers(start.keys + end.keys + disk.keys);
    assert forall k :: k in keys <==> k in AllKeys(start, end, disk);
    assert next.fields == Merge(start, end, disk).fields;
  }

  /** One turn of the loop; None where the loop goes on without writing the key. */
  method MergeOne(start: Json, end: Json, disk: Json, key: Text) returns (merged: Option<Json>)
    requires start.Obj? && end.Obj? && disk.Obj?
    requires WellFormed(start) && WellFormed(end) && WellFormed(disk)
    ensures merged == Rule(start, end, disk)(key)
    decreases start, 0
  {
    var startHas, endHas, diskHas := key in start.fields, key in end.fields, key in disk.fields;
    if startHas && !endHas { return None; }
    if !endHas { return if diskHas then Some(disk.fields[key]) else None; }
    if !startHas { return Some(end.fields[key]); }
    var startVal, endVal := start.fields[key], end.fields[key];
    if startVal.Obj? && endVal.Obj? && (!diskHas || disk.fields[key].Obj?) {
      if !diskHas && startVal == endVal { return None; }
      var inner := MergeTurnDraft(startVal, endVal, if diskHas then disk.fields[key] else EMPTY);
      return Some(inner);
    }
    if startVal == endVal { return if diskHas then Some(disk.fields[key]) else None; }
    return Some(endVal);
  }
}
