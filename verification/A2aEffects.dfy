/** What freezing and removing A2A tasks leave (src/a2a/store.ts): a freeze that reaches its commit while
    its task is open stores exactly what it was given, and a pruning or run deletion that comes to its end
    has removed exactly the tasks it selected. */
module A2aEffects {
  import opened Options
  import opened A2aStore

  // ---------- freezing ----------

  /** A new task is open, of its run, and nothing else changes; an id is never used again. */
  lemma CreateMeans(st: State, t: Id, run: Id, at: int)
    ensures var st' := Step(st, Create(t, run, at));
            if t in st.usedTasks then st' == st
            else st'.db == st.db.(tasks := st.db.tasks[t := Task(run, Submitted, None, at)]) && t in st'.usedTasks
  {
  }

  /** A freeze begins exactly for a terminal state on a task that is there and not terminal; only a
      completed task gets artifacts. */
  lemma FreezeBegins(st: State, f: Id, t: Id, state: TaskState, result: Option<string>, contents: seq<(string, string)>)
    requires f !in st.freezes
    ensures var st' := Step(st, FreezeStart(f, t, state, result, contents));
            if (state == Completed || state == Failed) && t in st.db.tasks && st.db.tasks[t].state != Completed &&
               st.db.tasks[t].state != Failed
            then st' == st.(freezes := st.freezes[f := Freeze(t, state, result, map[],
                                                              if state == Completed then contents else [])])
            else st' == st
  {
  }

  function Writes(f: Id, ids: seq<Id>): seq<Action> {
    if ids == [] then [] else [FreezeWrite(f, ids[0])] + Writes(f, ids[1..])
  }

  predicate Distinct(ids: seq<Id>) { forall i, j :: 0 <= i < j < |ids| ==> ids[i] != ids[j] }

  /** The rows of `contents` under `ids`, beside earlier ones. */
  predicate HasRows(rows: map<Id, Artifact>, earlier: map<Id, Artifact>, t: Id, contents: seq<(string, string)>,
                    ids: seq<Id>)
    requires |ids| == |contents|
  {
    && (forall i :: 0 <= i < |ids| ==>
          ids[i] in rows && rows[ids[i]] == Artifact(t, contents[i].0, contents[i].1))
    && (forall a <- rows :: a in ids || (a in earlier && rows[a] == earlier[a]))
    && (forall a <- earlier :: a in rows && (a !in ids ==> rows[a] == earlier[a]))
  }

  predicate HasFiles(files: map<Id, string>, earlier: map<Id, string>, contents: seq<(string, string)>, ids: seq<Id>)
    requires |ids| == |contents|
  {
    && (forall i :: 0 <= i < |ids| ==> ids[i] in files && files[ids[i]] == contents[i].1)
    && (forall a <- files :: a in ids || (a in earlier && files[a] == earlier[a]))
    && (forall a <- earlier :: a in files && (a !in ids ==> files[a] == earlier[a]))
  }

  /** The writes of a freeze, under fresh ids. */
  lemma {:induction false} WritesAll(st: State, f: Id, ids: seq<Id>)
    requires f in st.freezes && |ids| == |st.freezes[f].rest| && Distinct(ids)
    requires forall a <- ids :: a !in st.usedFiles
    ensures var z, st' := st.freezes[f], Run(st, Writes(f, ids));
            && f in st'.freezes && st'.freezes[f] == Freeze(z.task, z.state, z.result, st'.freezes[f].rows, [])
            && HasRows(st'.freezes[f].rows, z.rows, z.task, z.rest, ids)
            && HasFiles(st'.db.files, st.db.files, z.rest, ids)
            && st'.db.tasks == st.db.tasks && st'.db.artifacts == st.db.artifacts
    decreases |ids|
  {
    if ids != [] {
      var z, u := st.freezes[f], Step(st, FreezeWrite(f, ids[0]));
      assert u.freezes[f].rest == z.rest[1..];
      assert u.freezes[f].rows == z.rows[ids[0] := Artifact(z.task, z.rest[0].0, z.rest[0].1)];
      forall a <- ids[1..] ensures a !in u.usedFiles {
        var i :| 0 <= i < |ids[1..]| && ids[1..][i] == a;
        assert ids[i + 1] == a;
      }
      WritesAll(u, f, ids[1..]);
      assert Writes(f, ids)[1..] == Writes(f, ids[1..]);
      var st' := Run(st, Writes(f, ids));
      assert st' == Run(u, Writes(f, ids[1..]));
      RowsSnoc(st'.freezes[f].rows, z.rows, z.task, z.rest, ids);
      FilesSnoc(st'.db.files, st.db.files, z.rest, ids);
    }
  }

  lemma RowsSnoc(rows: map<Id, Artifact>, earlier: map<Id, Artifact>, t: Id, contents: seq<(string, string)>,
                 ids: seq<Id>)
    requires |ids| == |contents| > 0 && Distinct(ids)
    requires HasRows(rows, earlier[ids[0] := Artifact(t, contents[0].0, contents[0].1)], t, contents[1..], ids[1..])
    ensures HasRows(rows, earlier, t, contents, ids)
  {
    assert ids == [ids[0]] + ids[1..];
    assert ids[0] !in ids[1..];
    forall i | 0 <= i < |ids| ensures ids[i] in rows && rows[ids[i]] == Artifact(t, contents[i].0, contents[i].1) {
      assert i > 0 ==> ids[1..][i - 1] == ids[i] && contents[1..][i - 1] == contents[i];
    }
  }

  lemma FilesSnoc(files: map<Id, string>, earlier: map<Id, string>, contents: seq<(string, string)>, ids: seq<Id>)
    requires |ids| == |contents| > 0 && Distinct(ids)
    requires HasFiles(files, earlier[ids[0] := contents[0].1], contents[1..], ids[1..])
    ensures HasFiles(files, earlier, contents, ids)
  {
    assert ids == [ids[0]] + ids[1..];
    assert ids[0] !in ids[1..];
    forall i | 0 <= i < |ids| ensures ids[i] in files && files[ids[i]] == contents[i].1 {
      assert i > 0 ==> ids[1..][i - 1] == ids[i] && contents[1..][i - 1] == contents[i];
    }
  }

  predicate IsOpen(db: Db, t: Id) { t in db.tasks && db.tasks[t].state != Completed && db.tasks[t].state != Failed }

  /** The task is as the freeze says, with the rows it wrote, and no other task, row or file changes. */
  ghost predicate Committed(db: Db, z: Freeze, at: int, db': Db)
    requires z.task in db.tasks
  {
    && db'.tasks == db.tasks[z.task := Task(db.tasks[z.task].run, z.state, z.result, at)]
    && ArtifactsOf(db', z.task) == z.rows && (forall t | t != z.task :: ArtifactsOf(db', t) == ArtifactsOf(db, t))
    && db'.files == db.files
  }

  lemma CommitOn(st: State, f: Id, at: int)
    requires Inv(st) && f in st.freezes && st.freezes[f].rest == []
    ensures var z, db' := st.freezes[f], Step(st, FreezeCommit(f, at)).db;
            if IsOpen(st.db, z.task) then Committed(st.db, z, at, db') && (z.state == Completed || z.state == Failed)
            else db' == st.db
  {
    var z := st.freezes[f];
    assert FreezeOk(z, st.db.artifacts, st.db.files, st.usedFiles);
    if MayFreeze(st.db, z.task) {
      CommitArtifacts(st, f, at, z.task);
      forall t | t != z.task ensures ArtifactsOf(Step(st, FreezeCommit(f, at)).db, t) == ArtifactsOf(st.db, t) {
        CommitArtifacts(st, f, at, t);
      }
    }
  }

  /** In every run a freeze whose files are written commits exactly when its task is still open. */
  lemma CommitMeans(before: seq<Action>, f: Id, at: int)
    requires f in Run(INIT, before).freezes && Run(INIT, before).freezes[f].rest == []
    ensures var st, st' := Run(INIT, before), Step(Run(INIT, before), FreezeCommit(f, at));
            if IsOpen(st.db, st.freezes[f].task) then Committed(st.db, st.freezes[f], at, st'.db) else st'.db == st.db
  {
    RunInv(INIT, before);
    CommitOn(Run(INIT, before), f, at);
  }

  /** A freeze of an open task that nothing disturbs, after any run: the task is completed with its result
      and one row and one file for each artifact, under its name and with its content. */
  lemma FreezeStores(before: seq<Action>, f: Id, t: Id, result: Option<string>, contents: seq<(string, string)>,
                     ids: seq<Id>, at: int)
    requires var st := Run(INIT, before);
             f !in st.freezes && IsOpen(st.db, t) && (forall a <- ids :: a !in st.usedFiles)
    requires Distinct(ids) && |ids| == |contents|
    ensures var db := Run(INIT, before).db;
            var begun := Step(Run(INIT, before), FreezeStart(f, t, Completed, result, contents));
            var db' := Step(Run(begun, Writes(f, ids)), FreezeCommit(f, at)).db;
            && db'.tasks == db.tasks[t := Task(db.tasks[t].run, Completed, result, at)]
            && HasRows(ArtifactsOf(db', t), map[], t, contents, ids)
            && (forall x | x != t :: ArtifactsOf(db', x) == ArtifactsOf(db, x))
            && HasFiles(db'.files, db.files, contents, ids)
  {
    RunInv(INIT, before);
    var st := Run(INIT, before);
    var begun := Step(st, FreezeStart(f, t, Completed, result, contents));
    assert begun == st.(freezes := st.freezes[f := Freeze(t, Completed, result, map[], contents)]);
    StepInv(st, FreezeStart(f, t, Completed, result, contents));
    RunInv(begun, Writes(f, ids));
    WritesAll(begun, f, ids);
    var written := Run(begun, Writes(f, ids));
    CommitOn(written, f, at);
    forall x | x != t ensures ArtifactsOf(Step(written, FreezeCommit(f, at)).db, x) == ArtifactsOf(st.db, x) {
      assert ArtifactsOf(written.db, x) == ArtifactsOf(st.db, x);
    }
  }

  // ---------- removing ----------

  /** A pruning selects exactly the terminal tasks last changed before its cutoff, a run deletion those of
      its run. */
  lemma SelectedAre(st: State, r: Id, cutoff: int, run: Id, order: seq<Id>)
    requires r !in st.removals
    ensures (forall t :: t in order <==> t in st.db.tasks && st.db.tasks[t].updatedAt < cutoff &&
                                         (st.db.tasks[t].state == Completed || st.db.tasks[t].state == Failed)) ==>
            var st' := Step(st, PruneStart(r, cutoff, order));
            r in st'.removals && st'.removals[r].todo == order && st'.db == st.db
    ensures (forall t :: t in order <==> t in st.db.tasks && st.db.tasks[t].run == run) ==>
            var st' := Step(st, DeleteStart(r, run, order));
            r in st'.removals && st'.removals[r].todo == order && st'.db == st.db
  {
  }

  function Removes(r: Id, n: nat): seq<Action> {
    if n == 0 then [] else [RemoveNext(r)] + Removes(r, n - 1)
  }

  /** The tables without some tasks and their rows. */
  function Without(db: Db, gone: seq<Id>): Db {
    Db(map t | t in db.tasks && t !in gone :: db.tasks[t],
       map a | a in db.artifacts && db.artifacts[a].task !in gone :: db.artifacts[a], db.files)
  }

  lemma WithoutHead(db: Db, gone: seq<Id>)
    requires gone != []
    ensures Without(RemoveIn(db, gone[0]), gone[1..]) == Without(db, gone)
  {
    var once := RemoveIn(db, gone[0]);
    assert gone == [gone[0]] + gone[1..];
    assert Without(once, gone[1..]).tasks == Without(db, gone).tasks;
    assert Without(once, gone[1..]).artifacts == Without(db, gone).artifacts;
  }

  /** A removal that comes to its end has removed exactly the selected tasks, each with its rows. */
  lemma {:induction false} RemovesAll(st: State, r: Id)
    requires r in st.removals
    ensures Run(st, Removes(r, |st.removals[r].todo|)).db == Without(st.db, st.removals[r].todo)
    decreases |st.removals[r].todo|
  {
    var todo := st.removals[r].todo;
    if todo == [] {
      assert Without(st.db, todo) == st.db;
    } else {
      var u := Step(st, RemoveNext(r));
      RemovesAll(u, r);
      WithoutHead(st.db, todo);
      assert Removes(r, |todo|)[1..] == Removes(r, |todo| - 1);
    }
  }

  /** So an undisturbed pruning keeps the tasks that are not too old or not terminal, and no others. */
  lemma PruneExact(before: seq<Action>, r: Id, cutoff: int, order: seq<Id>)
    requires r !in Run(INIT, before).removals
    requires Lists(order, ExpiredTasks(Run(INIT, before).db, cutoff))
    ensures var st := Run(INIT, before);
            var db' := Run(Step(st, PruneStart(r, cutoff, order)), Removes(r, |order|)).db;
            && (forall t :: t in db'.tasks <==>
                  t in st.db.tasks && (st.db.tasks[t].updatedAt >= cutoff ||
                                       (st.db.tasks[t].state != Completed && st.db.tasks[t].state != Failed)))
            && (forall t <- db'.tasks :: ViewOf(db', t) == ViewOf(st.db, t))
            && (forall a :: a in db'.artifacts <==> a in st.db.artifacts && st.db.artifacts[a].task in db'.tasks)
  {
    RunInv(INIT, before);
    var st := Run(INIT, before);
    var u := Step(st, PruneStart(r, cutoff, order));
    RemovesAll(u, r);
    var db' := Run(u, Removes(r, |order|)).db;
    forall t <- db'.tasks ensures ViewOf(db', t) == ViewOf(st.db, t) {
      assert ArtifactsOf(db', t) == ArtifactsOf(st.db, t);
    }
  }

  /** A file is only unlinked for the task that is next, and it is one that a row of that task names. */
  lemma UnlinkMeans(st: State, x: Action, a: Id)
    requires a in st.db.files && a !in Step(st, x).db.files
    ensures x == Unlink(x.r, a) && x.r in st.removals && st.removals[x.r].todo != []
    ensures a in st.db.artifacts && st.db.artifacts[a].task == st.removals[x.r].todo[0]
  {
  }
}
