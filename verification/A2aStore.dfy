/** Freezing, pruning and deleting A2A tasks (src/a2a/store.ts). A freeze checks its task, writes
    its artifact files one await at a time, and commits in one guarded transaction; pruning and run
    deletion select tasks first and remove them one by one. A run interleaves any number of these,
    and a process may stop anywhere. */
module A2aStore {
  import opened Options

  type Id = nat

  datatype TaskState = Submitted | Working | InputRequired | Completed | Failed

  datatype Task = Task(run: Id, state: TaskState, result: Option<string>, updatedAt: int)

  /** A row of a2a_artifacts; its file is named by its id. */
  datatype Artifact = Artifact(task: Id, name: string, content: string)

  datatype Db = Db(tasks: map<Id, Task>, artifacts: map<Id, Artifact>, files: map<Id, string>)

  predicate IsTerminal(s: TaskState) { s == Completed || s == Failed }

  // ---------- the sections between awaits, as functions on the tables ----------

  function CreateIn(db: Db, t: Id, run: Id, at: int): Db {
    db.(tasks := db.tasks[t := Task(run, Submitted, None, at)])
  }

  predicate MayFreeze(db: Db, t: Id) {
    t in db.tasks && !IsTerminal(db.tasks[t].state)
  }

  /** UPDATE ... WHERE task_id = ? AND state NOT IN ('completed', 'failed'), then the rows if it changed one. */
  function CommitIn(db: Db, t: Id, state: TaskState, result: Option<string>, rows: map<Id, Artifact>, at: int): Db {
    if MayFreeze(db, t) then
      db.(tasks := db.tasks[t := db.tasks[t].(state := state, result := result, updatedAt := at)],
          artifacts := db.artifacts + rows)
    else db
  }

  function ArtifactsOf(db: Db, t: Id): map<Id, Artifact> {
    map a | a in db.artifacts && db.artifacts[a].task == t :: db.artifacts[a]
  }

  function RemoveIn(db: Db, t: Id): Db {
    db.(artifacts := map a | a in db.artifacts && db.artifacts[a].task != t :: db.artifacts[a],
        tasks := map x | x in db.tasks && x != t :: db.tasks[x])
  }

  predicate Expired(db: Db, t: Id, cutoff: int) {
    t in db.tasks && IsTerminal(db.tasks[t].state) && db.tasks[t].updatedAt < cutoff
  }

  function ExpiredTasks(db: Db, cutoff: int): set<Id> {
    set t | t in db.tasks && Expired(db, t, cutoff)
  }

  function TasksOfRun(db: Db, run: Id): set<Id> {
    set t | t in db.tasks && db.tasks[t].run == run
  }

  // ---------- runs ----------

  /** A freeze between its check and its commit: what it will store, what is written, what is not yet. */
  datatype Freeze = Freeze(task: Id, state: TaskState, result: Option<string>, rows: map<Id, Artifact>,
                           rest: seq<(string, string)>)

  /** A pruning or a run deletion: the selected tasks not removed yet; a pruning has its cutoff. */
  datatype Removal = Removal(todo: seq<Id>, cutoff: Option<int>)

  /** The tables, what is in flight, and as history: the ids ever used and the tasks ever selected for removal. */
  datatype State = State(db: Db, freezes: map<Id, Freeze>, removals: map<Id, Removal>,
                         usedTasks: set<Id>, usedFiles: set<Id>, selected: set<Id>)

  const INIT := State(Db(map[], map[], map[]), map[], map[], {}, {}, {})

  datatype Action =
    | Create(t: Id, run: Id, at: int)
    | FreezeStart(f: Id, t: Id, state: TaskState, result: Option<string>, contents: seq<(string, string)>)
    | FreezeWrite(f: Id, a: Id)
    | FreezeCommit(f: Id, at: int)
    | Stop(f: Id)
    | PruneStart(r: Id, cutoff: int, order: seq<Id>)
    | DeleteStart(r: Id, run: Id, order: seq<Id>)
    | Unlink(r: Id, a: Id)
    | RemoveNext(r: Id)

  /** `order` lists a set of tasks, in the order the query returns them. */
  predicate Lists(order: seq<Id>, tasks: set<Id>) {
    (forall t <- order :: t in tasks) && forall t <- tasks :: t in order
  }

  /** Task ids are fresh: the table's key refuses a second one, and random ids do not repeat. */
  function CreateTask(st: State, t: Id, run: Id, at: int): State {
    if t in st.usedTasks then st else st.(db := CreateIn(st.db, t, run, at), usedTasks := st.usedTasks + {t})
  }

  function StartFreeze(st: State, f: Id, z: Freeze): State {
    if f in st.freezes || !IsTerminal(z.state) || !MayFreeze(st.db, z.task) then st
    else st.(freezes := st.freezes[f := z.(rows := map[], rest := if z.state == Completed then z.rest else [])])
  }

  function WriteFile(st: State, f: Id, a: Id): State {
    if f !in st.freezes || st.freezes[f].rest == [] || a in st.usedFiles then st
    else
      var z := st.freezes[f];
      var row := Artifact(z.task, z.rest[0].0, z.rest[0].1);
      st.(db := st.db.(files := st.db.files[a := row.content]),
          freezes := st.freezes[f := z.(rows := z.rows[a := row], rest := z.rest[1..])],
          usedFiles := st.usedFiles + {a})
  }

  function Commit(st: State, f: Id, at: int): State {
    if f !in st.freezes || st.freezes[f].rest != [] then st
    else
      var z := st.freezes[f];
      st.(db := CommitIn(st.db, z.task, z.state, z.result, z.rows, at), freezes := st.freezes - {f})
  }

  function StartRemoval(st: State, r: Id, todo: set<Id>, order: seq<Id>, cutoff: Option<int>): State {
    if r in st.removals || !Lists(order, todo) then st
    else st.(removals := st.removals[r := Removal(order, cutoff)], selected := st.selected + todo)
  }

  function UnlinkFile(st: State, r: Id, a: Id): State {
    if r !in st.removals || st.removals[r].todo == [] || a !in ArtifactsOf(st.db, st.removals[r].todo[0]) then st
    else st.(db := st.db.(files := st.db.files - {a}))
  }

  function RemoveHead(st: State, r: Id): State {
    if r !in st.removals || st.removals[r].todo == [] then st
    else
      var l := st.removals[r];
      st.(db := RemoveIn(st.db, l.todo[0]), removals := st.removals[r := l.(todo := l.todo[1..])])
  }

  function Step(st: State, x: Action): State {
    match x
    case Create(t, run, at) => CreateTask(st, t, run, at)
    case FreezeStart(f, t, state, result, contents) => StartFreeze(st, f, Freeze(t, state, result, map[], contents))
    case FreezeWrite(f, a) => WriteFile(st, f, a)
    case FreezeCommit(f, at) => Commit(st, f, at)
    case Stop(f) => st.(freezes := st.freezes - {f}, removals := st.removals - {f})
    case PruneStart(r, cutoff, order) => StartRemoval(st, r, ExpiredTasks(st.db, cutoff), order, Some(cutoff))
    case DeleteStart(r, run, order) => StartRemoval(st, r, TasksOfRun(st.db, run), order, None)
    case Unlink(r, a) => UnlinkFile(st, r, a)
    case RemoveNext(r) => RemoveHead(st, r)
  }

  function Run(st: State, xs: seq<Action>): State
    decreases |xs|
  {
    if xs == [] then st else Run(Step(st, xs[0]), xs[1..])
  }

  // ---------- the invariant ----------

  /** Every artifact row has a terminal task. */
  ghost predicate RowsOk(tasks: map<Id, Task>, artifacts: map<Id, Artifact>) {
    forall a <- artifacts :: artifacts[a].task in tasks && IsTerminal(tasks[artifacts[a].task].state)
  }

  /** A freeze's rows are about its task and in no table yet, and their files are written. */
  ghost predicate FreezeOk(z: Freeze, artifacts: map<Id, Artifact>, files: map<Id, string>, used: set<Id>) {
    && IsTerminal(z.state)
    && forall a <- z.rows ::
         a in used && a !in artifacts && z.rows[a].task == z.task && a in files && files[a] == z.rows[a].content
  }

  ghost predicate FreezesOk(freezes: map<Id, Freeze>, artifacts: map<Id, Artifact>, files: map<Id, string>,
                            used: set<Id>) {
    && (forall f <- freezes :: FreezeOk(freezes[f], artifacts, files, used))
    && (forall f <- freezes, g <- freezes :: f != g ==> freezes[f].rows.Keys !! freezes[g].rows.Keys)
  }

  /** What a pruning still has to remove is gone already, or is still terminal and too old. */
  ghost predicate RemovalOk(l: Removal, tasks: map<Id, Task>, selected: set<Id>) {
    forall t <- l.todo :: t in selected &&
      (l.cutoff.Some? && t in tasks ==> IsTerminal(tasks[t].state) && tasks[t].updatedAt < l.cutoff.value)
  }

  ghost predicate RemovalsOk(removals: map<Id, Removal>, tasks: map<Id, Task>, selected: set<Id>) {
    forall r <- removals :: RemovalOk(removals[r], tasks, selected)
  }

  /** A row's file holds what the row says; only a task selected for removal can have lost a file. */
  ghost predicate FilesOk(artifacts: map<Id, Artifact>, files: map<Id, string>, selected: set<Id>) {
    forall a <- artifacts :: if a in files then files[a] == artifacts[a].content else artifacts[a].task in selected
  }

  ghost predicate Inv(st: State) {
    && RowsOk(st.db.tasks, st.db.artifacts)
    && FreezesOk(st.freezes, st.db.artifacts, st.db.files, st.usedFiles)
    && RemovalsOk(st.removals, st.db.tasks, st.selected)
    && FilesOk(st.db.artifacts, st.db.files, st.selected)
    && st.db.artifacts.Keys <= st.usedFiles && st.db.tasks.Keys <= st.usedTasks && st.selected <= st.usedTasks
  }

  lemma CreateInv(st: State, t: Id, run: Id, at: int)
    requires Inv(st)
    ensures Inv(CreateTask(st, t, run, at))
  {
    var st' := CreateTask(st, t, run, at);
    assert RowsOk(st'.db.tasks, st'.db.artifacts);
    forall r <- st.removals ensures RemovalOk(st.removals[r], st'.db.tasks, st'.selected) {
      assert RemovalOk(st.removals[r], st.db.tasks, st.selected);
    }
  }

  lemma StartFreezeInv(st: State, f: Id, z: Freeze)
    requires Inv(st)
    ensures Inv(StartFreeze(st, f, z))
  {
  }

  lemma WriteInv(st: State, f: Id, a: Id)
    requires Inv(st)
    ensures Inv(WriteFile(st, f, a))
  {
    if f in st.freezes && st.freezes[f].rest != [] && a !in st.usedFiles {
      var st' := WriteFile(st, f, a);
      forall g <- st'.freezes ensures FreezeOk(st'.freezes[g], st'.db.artifacts, st'.db.files, st'.usedFiles) {
        assert FreezeOk(st.freezes[g], st.db.artifacts, st.db.files, st.usedFiles);
      }
      assert forall g <- st.freezes :: a !in st.freezes[g].rows by {
        forall g <- st.freezes ensures a !in st.freezes[g].rows {
          assert FreezeOk(st.freezes[g], st.db.artifacts, st.db.files, st.usedFiles);
        }
      }
      assert FilesOk(st'.db.artifacts, st'.db.files, st'.selected);
    }
  }

  /** The winning commit, on the tables. */
  lemma CommitTables(st: State, f: Id, at: int)
    requires Inv(st) && f in st.freezes && st.freezes[f].rest == [] && MayFreeze(st.db, st.freezes[f].task)
    ensures var db' := Commit(st, f, at).db;
            RowsOk(db'.tasks, db'.artifacts) && FilesOk(db'.artifacts, db'.files, st.selected) &&
              db'.artifacts.Keys <= st.usedFiles
  {
    var z, db' := st.freezes[f], Commit(st, f, at).db;
    assert FreezeOk(z, st.db.artifacts, st.db.files, st.usedFiles);
    assert forall a <- db'.artifacts :: db'.artifacts[a] == if a in z.rows then z.rows[a] else st.db.artifacts[a];
  }

  lemma CommitInv(st: State, f: Id, at: int)
    requires Inv(st)
    ensures Inv(Commit(st, f, at))
  {
    var st' := Commit(st, f, at);
    if f in st.freezes && st.freezes[f].rest == [] && MayFreeze(st.db, st.freezes[f].task) {
      CommitTables(st, f, at);
      forall g <- st'.freezes ensures FreezeOk(st'.freezes[g], st'.db.artifacts, st'.db.files, st'.usedFiles) {
        assert FreezeOk(st.freezes[g], st.db.artifacts, st.db.files, st.usedFiles);
        assert g != f && st.freezes[f].rows.Keys !! st.freezes[g].rows.Keys;
      }
      forall r <- st'.removals ensures RemovalOk(st'.removals[r], st'.db.tasks, st'.selected) {
        assert RemovalOk(st.removals[r], st.db.tasks, st.selected);
      }
    }
  }

  lemma StartRemovalInv(st: State, r: Id, todo: set<Id>, order: seq<Id>, cutoff: Option<int>)
    requires Inv(st) && todo <= st.db.tasks.Keys
    requires cutoff.Some? ==> forall t <- todo :: Expired(st.db, t, cutoff.value)
    ensures Inv(StartRemoval(st, r, todo, order, cutoff))
  {
    if r !in st.removals && Lists(order, todo) {
      var st' := StartRemoval(st, r, todo, order, cutoff);
      forall q <- st'.removals ensures RemovalOk(st'.removals[q], st'.db.tasks, st'.selected) {
        assert q != r ==> RemovalOk(st.removals[q], st.db.tasks, st.selected);
      }
      assert FilesOk(st'.db.artifacts, st'.db.files, st'.selected);
    }
  }

  lemma UnlinkInv(st: State, r: Id, a: Id)
    requires Inv(st)
    ensures Inv(UnlinkFile(st, r, a))
  {
    if r in st.removals && st.removals[r].todo != [] && a in ArtifactsOf(st.db, st.removals[r].todo[0]) {
      var st' := UnlinkFile(st, r, a);
      assert RemovalOk(st.removals[r], st.db.tasks, st.selected);
      assert FilesOk(st'.db.artifacts, st'.db.files, st'.selected);
      forall g <- st'.freezes ensures FreezeOk(st'.freezes[g], st'.db.artifacts, st'.db.files, st'.usedFiles) {
        assert FreezeOk(st.freezes[g], st.db.artifacts, st.db.files, st.usedFiles);
      }
    }
  }

  lemma RemoveInv(st: State, r: Id)
    requires Inv(st)
    ensures Inv(RemoveHead(st, r))
  {
    if r in st.removals && st.removals[r].todo != [] {
      var st' := RemoveHead(st, r);
      forall q <- st'.removals ensures RemovalOk(st'.removals[q], st'.db.tasks, st'.selected) {
        assert RemovalOk(st.removals[q], st.db.tasks, st.selected);
      }
      forall g <- st'.freezes ensures FreezeOk(st'.freezes[g], st'.db.artifacts, st'.db.files, st'.usedFiles) {
        assert FreezeOk(st.freezes[g], st.db.artifacts, st.db.files, st.usedFiles);
      }
      assert RowsOk(st'.db.tasks, st'.db.artifacts) && FilesOk(st'.db.artifacts, st'.db.files, st'.selected);
    }
  }

  lemma StopInv(st: State, f: Id)
    requires Inv(st)
    ensures Inv(st.(freezes := st.freezes - {f}, removals := st.removals - {f}))
  {
  }

  lemma StepInv(st: State, x: Action)
    requires Inv(st)
    ensures Inv(Step(st, x))
  {
    match x
    case Create(t, run, at) => CreateInv(st, t, run, at);
    case FreezeStart(f, t, state, result, contents) => StartFreezeInv(st, f, Freeze(t, state, result, map[], contents));
    case FreezeWrite(f, a) => WriteInv(st, f, a);
    case FreezeCommit(f, at) => CommitInv(st, f, at);
    case Stop(f) => StopInv(st, f);
    case PruneStart(r, cutoff, order) => StartRemovalInv(st, r, ExpiredTasks(st.db, cutoff), order, Some(cutoff));
    case DeleteStart(r, run, order) => StartRemovalInv(st, r, TasksOfRun(st.db, run), order, None);
    case Unlink(r, a) => UnlinkInv(st, r, a);
    case RemoveNext(r) => RemoveInv(st, r);
  }

  lemma {:induction false} RunInv(st: State, xs: seq<Action>)
    requires Inv(st)
    ensures Inv(Run(st, xs))
    decreases |xs|
  {
    if xs != [] {
      StepInv(st, xs[0]);
      RunInv(Step(st, xs[0]), xs[1..]);
    }
  }

  // ---------- the theorems ----------

  /** In every reachable state an artifact row has its task row, and that task is terminal. */
  lemma NoOrphanRows(xs: seq<Action>, a: Id)
    requires a in Run(INIT, xs).db.artifacts
    ensures var db := Run(INIT, xs).db;
            db.artifacts[a].task in db.tasks && IsTerminal(db.tasks[db.artifacts[a].task].state)
  {
    RunInv(INIT, xs);
  }

  /** A task as it stands: its row and all its artifact rows. */
  datatype View = View(task: Task, artifacts: map<Id, Artifact>)

  function ViewOf(db: Db, t: Id): View
    requires t in db.tasks
  {
    View(db.tasks[t], ArtifactsOf(db, t))
  }

  /** Gone for good: no row, no artifact, and the id is used up. */
  ghost predicate Gone(st: State, t: Id) {
    t in st.usedTasks && t !in st.db.tasks && ArtifactsOf(st.db, t) == map[]
  }

  lemma StepUsed(st: State, x: Action, t: Id)
    requires t in st.usedTasks
    ensures t in Step(st, x).usedTasks && (t !in st.db.tasks ==> t !in Step(st, x).db.tasks)
  {
  }

  lemma StepGone(st: State, x: Action, t: Id)
    requires Inv(st) && Gone(st, t)
    ensures Gone(Step(st, x), t)
  {
    StepInv(st, x);
    StepUsed(st, x, t);
    NoneOf(Step(st, x), t);
  }

  lemma NoneOf(st: State, t: Id)
    requires Inv(st) && (MayFreeze(st.db, t) || t !in st.db.tasks)
    ensures ArtifactsOf(st.db, t) == map[]
  {
    assert forall a <- st.db.artifacts :: st.db.artifacts[a].task != t;
  }

  /** A commit adds its rows to its own task and to no other. */
  lemma CommitArtifacts(st: State, f: Id, at: int, t: Id)
    requires Inv(st) && f in st.freezes && st.freezes[f].rest == [] && MayFreeze(st.db, st.freezes[f].task)
    ensures ArtifactsOf(Commit(st, f, at).db, t) ==
            if t == st.freezes[f].task then st.freezes[f].rows else ArtifactsOf(st.db, t)
  {
    var z, db' := st.freezes[f], Commit(st, f, at).db;
    assert FreezeOk(z, st.db.artifacts, st.db.files, st.usedFiles);
    assert db'.artifacts == st.db.artifacts + z.rows;
    if t == z.task {
      NoneOf(st, t);
      assert forall a <- st.db.artifacts :: st.db.artifacts[a].task == t ==> a in ArtifactsOf(st.db, t);
    }
    assert ArtifactsOf(db', t).Keys == if t == z.task then z.rows.Keys else ArtifactsOf(st.db, t).Keys;
  }

  lemma CommitFixed(st: State, f: Id, at: int, t: Id)
    requires Inv(st) && t in st.db.tasks && IsTerminal(st.db.tasks[t].state)
    ensures t in Commit(st, f, at).db.tasks && ViewOf(Commit(st, f, at).db, t) == ViewOf(st.db, t)
  {
    if f in st.freezes && st.freezes[f].rest == [] && MayFreeze(st.db, st.freezes[f].task) {
      CommitArtifacts(st, f, at, t);
    }
  }

  lemma RemoveFixed(st: State, r: Id, t: Id)
    requires Inv(st) && t in st.db.tasks
    ensures Gone(RemoveHead(st, r), t) ||
            (t in RemoveHead(st, r).db.tasks && ViewOf(RemoveHead(st, r).db, t) == ViewOf(st.db, t))
  {
    var db' := RemoveHead(st, r).db;
    if t in db'.tasks {
      assert ArtifactsOf(db', t) == ArtifactsOf(st.db, t);
    } else {
      assert ArtifactsOf(db', t) == map[];
    }
  }

  lemma StepFixed(st: State, x: Action, t: Id)
    requires Inv(st) && t in st.db.tasks && IsTerminal(st.db.tasks[t].state)
    ensures Gone(Step(st, x), t) || (t in Step(st, x).db.tasks && ViewOf(Step(st, x).db, t) == ViewOf(st.db, t))
  {
    match x
    case FreezeCommit(f, at) => CommitFixed(st, f, at, t);
    case RemoveNext(r) => RemoveFixed(st, r, t);
    case _ =>
      assert Step(st, x).db.artifacts == st.db.artifacts;
      assert ArtifactsOf(Step(st, x).db, t) == ArtifactsOf(st.db, t);
  }

  lemma {:induction false} RunGone(st: State, xs: seq<Action>, t: Id)
    requires Inv(st) && Gone(st, t)
    ensures Gone(Run(st, xs), t)
    decreases |xs|
  {
    if xs != [] {
      StepGone(st, xs[0], t);
      StepInv(st, xs[0]);
      RunGone(Step(st, xs[0]), xs[1..], t);
    }
  }

  /** A terminal task stays exactly as it is, row and artifacts, until it is removed; then it is gone for good. */
  lemma {:induction false} FrozenStaysFixed(st: State, xs: seq<Action>, t: Id)
    requires Inv(st) && t in st.db.tasks && IsTerminal(st.db.tasks[t].state)
    ensures Gone(Run(st, xs), t) || (t in Run(st, xs).db.tasks && ViewOf(Run(st, xs).db, t) == ViewOf(st.db, t))
    decreases |xs|
  {
    if xs != [] {
      StepFixed(st, xs[0], t);
      StepInv(st, xs[0]);
      var st' := Step(st, xs[0]);
      if Gone(st', t) {
        RunGone(st', xs[1..], t);
      } else {
        FrozenStaysFixed(st', xs[1..], t);
      }
    }
  }

  /** A task that becomes terminal does so by the commit of one freeze of that task, and then its
      state, result and artifact rows are exactly that freeze's. */
  lemma FrozenByOneFreeze(before: seq<Action>, x: Action, t: Id)
    requires var st := Run(INIT, before); t in st.db.tasks && !IsTerminal(st.db.tasks[t].state)
    requires var st' := Step(Run(INIT, before), x); t in st'.db.tasks && IsTerminal(st'.db.tasks[t].state)
    ensures x.FreezeCommit? && x.f in Run(INIT, before).freezes
    ensures var st, st' := Run(INIT, before), Step(Run(INIT, before), x);
            var z := st.freezes[x.f];
            && z.task == t && z.rest == []
            && st'.db.tasks[t].state == z.state && st'.db.tasks[t].result == z.result
            && ArtifactsOf(st.db, t) == map[] && ArtifactsOf(st'.db, t) == z.rows
  {
    RunInv(INIT, before);
    var st := Run(INIT, before);
    OnlyCommits(st, x, t);
    CommitExact(st, x.f, x.at, t);
  }

  lemma OnlyCommits(st: State, x: Action, t: Id)
    requires t in st.db.tasks && t in Step(st, x).db.tasks && st.db.tasks[t] != Step(st, x).db.tasks[t] &&
             t in st.usedTasks
    ensures x.FreezeCommit?
  {
  }

  lemma CommitExact(st: State, f: Id, at: int, t: Id)
    requires Inv(st) && t in st.db.tasks && !IsTerminal(st.db.tasks[t].state)
    requires t in Commit(st, f, at).db.tasks && IsTerminal(Commit(st, f, at).db.tasks[t].state)
    ensures f in st.freezes && st.freezes[f].task == t && st.freezes[f].rest == []
    ensures var z, db' := st.freezes[f], Commit(st, f, at).db;
            && db'.tasks[t].state == z.state && db'.tasks[t].result == z.result
            && ArtifactsOf(st.db, t) == map[] && ArtifactsOf(db', t) == z.rows
  {
    NoneOf(st, t);
    CommitArtifacts(st, f, at, t);
  }

  /** A file that no row names and no freeze will give one. */
  ghost predicate Orphan(st: State, a: Id, content: string) {
    && a in st.usedFiles && a !in st.db.artifacts && (forall f <- st.freezes :: a !in st.freezes[f].rows)
    && a in st.db.files && st.db.files[a] == content
  }

  lemma StepOrphan(st: State, x: Action, a: Id, content: string)
    requires Orphan(st, a, content)
    ensures Orphan(Step(st, x), a, content)
  {
  }

  lemma {:induction false} RunOrphan(st: State, xs: seq<Action>, a: Id, content: string)
    requires Orphan(st, a, content)
    ensures Orphan(Run(st, xs), a, content)
    decreases |xs|
  {
    if xs != [] {
      StepOrphan(st, xs[0], a, content);
      RunOrphan(Step(st, xs[0]), xs[1..], a, content);
    }
  }

  /** A freeze that commits when its task is terminal or gone changes no row, then or later: none of its
      artifacts ever gets one. Their files stay, since only files that a row names are removed. */
  lemma LosingFreeze(before: seq<Action>, f: Id, at: int, after: seq<Action>, a: Id)
    requires f in Run(INIT, before).freezes && Run(INIT, before).freezes[f].rest == []
    requires !MayFreeze(Run(INIT, before).db, Run(INIT, before).freezes[f].task)
    requires a in Run(INIT, before).freezes[f].rows
    ensures var st := Run(INIT, before);
            var st' := Step(st, FreezeCommit(f, at));
            st'.db == st.db && Orphan(Run(st', after), a, st.freezes[f].rows[a].content)
  {
    RunInv(INIT, before);
    var st := Run(INIT, before);
    assert FreezeOk(st.freezes[f], st.db.artifacts, st.db.files, st.usedFiles);
    assert forall g <- st.freezes :: g != f ==> st.freezes[f].rows.Keys !! st.freezes[g].rows.Keys;
    RunOrphan(Step(st, FreezeCommit(f, at)), after, a, st.freezes[f].rows[a].content);
  }

  /** Pruning removes no task that is not terminal and older than its cutoff at that moment. */
  lemma PruneRemovesExpired(before: seq<Action>, r: Id, t: Id)
    requires r in Run(INIT, before).removals && Run(INIT, before).removals[r].cutoff.Some?
    requires t in Run(INIT, before).db.tasks && t !in Step(Run(INIT, before), RemoveNext(r)).db.tasks
    ensures Expired(Run(INIT, before).db, t, Run(INIT, before).removals[r].cutoff.value)
  {
    RunInv(INIT, before);
    var st := Run(INIT, before);
    assert RemovalOk(st.removals[r], st.db.tasks, st.selected);
    assert t == st.removals[r].todo[0];
  }

  /** A stored artifact's file has the stored content for as long as no removal has selected its task. */
  lemma ArtifactIntact(xs: seq<Action>, a: Id)
    requires a in Run(INIT, xs).db.artifacts && Run(INIT, xs).db.artifacts[a].task !in Run(INIT, xs).selected
    ensures var db := Run(INIT, xs).db; a in db.files && db.files[a] == db.artifacts[a].content
  {
    RunInv(INIT, xs);
  }

  // ---------- the code ----------

  class A2aStore {
    var tasks: map<Id, Task>
    var artifacts: map<Id, Artifact>
    var files: map<Id, string>

    ghost function View(): Db
      reads this
    {
      Db(tasks, artifacts, files)
    }

    constructor ()
      ensures View() == INIT.db
    {
      tasks, artifacts, files := map[], map[], map[];
    }

    method CreateTask(t: Id, run: Id, at: int) returns (row: Task)
      modifies this
      ensures View() == CreateIn(old(View()), t, run, at)
      ensures row == View().tasks[t]
    {
      row := Task(run, Submitted, None, at);
      tasks := tasks[t := row];
    }

    /** The check before any file is written. */
    method BeginFreeze(t: Id) returns (go: bool)
      ensures go <==> MayFreeze(View(), t)
    {
      if t !in tasks || tasks[t].state == Completed || tasks[t].state == Failed { return false; }
      return true;
    }

    /** One artifact file, and the row that will name it. */
    method WriteArtifact(a: Id, t: Id, name: string, content: string) returns (row: Artifact)
      modifies this`files
      ensures row == Artifact(t, name, content)
      ensures View() == old(View()).(files := old(files)[a := content])
    {
      files := files[a := content];
      row := Artifact(t, name, content);
    }

    /** The guarded transaction: the rows go in only when the update changed its row. */
    method CommitFreeze(t: Id, state: TaskState, result: Option<string>, ids: seq<Id>, rows: map<Id, Artifact>, at: int)
      requires Lists(ids, rows.Keys)
      modifies this`tasks, this`artifacts
      ensures View() == CommitIn(old(View()), t, state, result, rows, at)
    {
      if t !in tasks || tasks[t].state == Completed || tasks[t].state == Failed { return; }
      tasks := tasks[t := tasks[t].(state := state, result := result, updatedAt := at)];
      ghost var before := artifacts;
      for k := 0 to |ids|
        invariant forall a :: a in artifacts <==> a in before || a in ids[..k]
        invariant tasks == old(tasks)[t := old(tasks)[t].(state := state, result := result, updatedAt := at)] &&
                  files == old(files)
        invariant forall a <- artifacts :: artifacts[a] == if a in ids[..k] then rows[a] else before[a]
      {
        assert ids[..k + 1] == ids[..k] + [ids[k]];
        artifacts := artifacts[ids[k] := rows[ids[k]]];
      }
      assert ids[..|ids|] == ids;
      assert forall a :: a in ids <==> a in rows;
      assert artifacts == before + rows;
    }

    /** Pick the terminal tasks that are too old, in the order of the rows. */
    method SelectExpired(order: seq<Id>, cutoff: int) returns (todo: seq<Id>)
      requires Lists(order, tasks.Keys)
      ensures Lists(todo, ExpiredTasks(View(), cutoff))
    {
      todo := [];
      for k := 0 to |order|
        invariant forall t :: t in todo <==> t in order[..k] && Expired(View(), t, cutoff)
      {
        assert order[..k + 1] == order[..k] + [order[k]];
        var row := tasks[order[k]];
        if (row.state == Completed || row.state == Failed) && row.updatedAt < cutoff {
          todo := todo + [order[k]];
        }
      }
      assert order[..|order|] == order;
    }

    /** The transaction that deletes one task with its artifact rows. */
    method RemoveTask(t: Id)
      modifies this`tasks, this`artifacts
      ensures View() == RemoveIn(old(View()), t)
      ensures t !in tasks && forall a <- artifacts :: artifacts[a].task != t
    {
      artifacts := map a | a in artifacts && artifacts[a].task != t :: artifacts[a];
      tasks := map x | x in tasks && x != t :: tasks[x];
    }
  }
}
