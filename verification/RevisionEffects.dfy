/** What the operations on agents leave: which revision a new session is pinned to, which changes are
    written and which refused, and that the service's own writes keep files and database in line. */
module RevisionEffects {
  import opened Options
  import opened AgentFiles
  import opened Revisions

  // ---------- new sessions ----------

  /** An ordinary session gets the current revision, an eval session the one it asks for, if it asks. */
  function Wanted(a: Agent, isEval: bool, wanted: Option<nat>): nat {
    if isEval && wanted.Some? then wanted.value else a.current
  }

  /** An agent that is there, with a revision, and not archived. */
  predicate IsLive(db: Database, id: Id) { id in db && db[id].current > 0 && !db[id].archived }

  /** That revision is there and, but for an eval session, enabled. */
  predicate CanOpen(db: Database, id: Id, isEval: bool, wanted: Option<nat>) {
    IsLive(db, id) &&
    var n := Wanted(db[id], isEval, wanted);
    n in db[id].revisions && (isEval || db[id].revisions[n].definition.enabled)
  }

  /** In every run, opening a session under a new id adds it exactly when nothing is under way and the
      agent can be opened, pinned to that revision; otherwise nothing changes. */
  lemma OpenedIff(actions: seq<Action>, session: Id, id: Id, isEval: bool, wanted: Option<nat>)
    requires session !in Run(INIT, actions).sessions
    ensures var s := Run(INIT, actions);
            Step(s, OpenSession(session, id, isEval, wanted)) ==
            if s.work == Idle && CanOpen(s.db, id, isEval, wanted)
            then s.(sessions := s.sessions[session := Pin(id, Wanted(s.db[id], isEval, wanted))])
            else s
  {
    RunOk(actions);
  }

  /** No other step adds a session, and none moves a pin. */
  lemma OnlyOpened(s: State, a: Action, session: Id)
    requires session in Step(s, a).sessions && session !in s.sessions
    ensures a.OpenSession? && a.session == session
  {
  }

  /** In every run a session that a step adds is pinned to the revision that was current before that step,
      or for an eval session to the one it asked for. */
  lemma PinnedTo(actions: seq<Action>, a: Action, session: Id)
    requires session in Step(Run(INIT, actions), a).sessions && session !in Run(INIT, actions).sessions
    ensures a.OpenSession?
    ensures var s := Run(INIT, actions);
            CanOpen(s.db, a.id, a.isEval, a.wanted) &&
            Step(s, a).sessions[session] ==
            Pin(a.id, if a.isEval && a.wanted.Some? then a.wanted.value else s.db[a.id].current)
  {
    OnlyOpened(Run(INIT, actions), a, session);
    OpenedIff(actions, session, a.id, a.isEval, a.wanted);
  }

  /** Why a session is refused, in the order of the checks. */
  lemma OpenErrors(db: Database, id: Id, isEval: bool, wanted: Option<nat>)
    requires DatabaseOk(db)
    ensures PinFor(db, id, isEval, wanted) ==
            if id !in db || db[id].current == 0 then Err(NotFound)
            else if db[id].archived then Err(IsArchived)
            else if Wanted(db[id], isEval, wanted) !in db[id].revisions then Err(RevisionNotFound)
            else if CanOpen(db, id, isEval, wanted) then Ok(Wanted(db[id], isEval, wanted))
            else Err(Disabled)
  {
  }

  // ---------- changes ----------

  function CurrentOf(a: Agent): Definition
    requires a.current in a.revisions
  {
    a.revisions[a.current].definition
  }

  /** A request that is allowed, is based on the present state, and would change something. */
  predicate WouldWrite(db: Database, disk: Disk, r: Request) {
    match r
    case Create(d, allowed) => allowed && d.id !in disk && (d.id in db ==> db[d.id].archived)
    case Save(id, base, d, allowed) =>
      d.id == id && IsLive(db, id) && db[id].current == base && base in db[id].revisions && allowed &&
      CurrentOf(db[id]) != d
    case SetEnabled(id, enabled, allowed) =>
      IsLive(db, id) && db[id].current in db[id].revisions && (enabled ==> !db[id].broken && allowed) &&
      CurrentOf(db[id]).enabled != enabled
    case Restore(id, n, base) =>
      IsLive(db, id) && db[id].current == base && base in db[id].revisions && n in db[id].revisions &&
      db[id].revisions[n].definition.(enabled := CurrentOf(db[id]).enabled) != CurrentOf(db[id])
  }

  function Target(r: Request): Id {
    if r.Create? then r.definition.id else r.id
  }

  /** Exactly such a request begins a write, of what it asks for; any other leaves everything as it was. */
  lemma WritesIff(s: State, r: Request)
    requires s.work == Idle
    ensures WouldWrite(s.db, s.disk, r) <==> Step(s, Begin(r)).work.Writing?
    ensures !WouldWrite(s.db, s.disk, r) ==> Step(s, Begin(r)) == s
  {
  }

  lemma WriteIsAsked(s: State, r: Request)
    requires DatabaseOk(s.db) && s.work == Idle && WouldWrite(s.db, s.disk, r)
    ensures var w := Step(s, Begin(r)).work;
            && w.Writing? && !w.written && w.id == Target(r) && w.request == r && w.base == At(s.db, w.id).current
            && AsAsked(At(s.db, w.id), w.base, r, w.revision.definition) &&
               w.revision.yaml == Serialize(w.revision.definition)
    ensures Step(s, Begin(r)) == s.(work := Step(s, Begin(r)).work)
  {
  }

  /** A save or restore of an agent that has moved on is a conflict, whatever it asks. */
  lemma StaleIsConflict(db: Database, disk: Disk, r: Request)
    requires DatabaseOk(db) && (r.Save? || r.Restore?) && IsLive(db, r.id) && (r.Save? ==> r.definition.id == r.id)
    ensures Check(db, disk, r) == Err(Conflict) <==> db[r.id].current != r.base
  {
  }

  // ---------- files and database stay in line ----------

  /** An agent whose file is put, and one whose file is removed. */
  lemma PutInLine(db: Database, disk: Disk, id: Id, a: Agent, file: File)
    requires !a.archived && a.fileHash == Some(file.text) && Mirror(db) == TextsOf(disk)
    ensures Mirror(db[id := a]) == TextsOf(disk[id := file])
  {
    assert Mirror(db[id := a]) == Mirror(db)[id := file.text];
    assert TextsOf(disk[id := file]) == TextsOf(disk)[id := file.text];
  }

  lemma RemovedInLine(db: Database, disk: Disk, id: Id, a: Agent)
    requires a.archived && Mirror(db) == TextsOf(disk)
    ensures Mirror(db[id := a]) == TextsOf(disk - {id})
  {
    assert Mirror(db[id := a]) == Mirror(db) - {id};
    assert TextsOf(disk - {id}) == TextsOf(disk) - {id};
  }

  /** From a write that has begun, its file and its revision. */
  lemma WriteEnds(s: State, stamp: nat)
    requires s.work.Writing? && !s.work.written
    ensures var id, revision := s.work.id, s.work.revision;
            Step(Step(s, WriteFile(stamp)), Commit) ==
            s.(disk := s.disk[id := File(revision.yaml, stamp)], db := s.db[id := Append(At(s.db, id), revision)],
               syncedTree := None, work := Idle)
  {
  }

  /** The current revision of the agent, and its file, are what was asked for; the earlier revisions stay. */
  predicate Holds(before: Database, t: State, r: Request)
    requires Target(r) in t.db && Target(r) in t.disk
  {
    var was, a := At(before, Target(r)), t.db[Target(r)];
    a.current in a.revisions && a.revisions - {a.current} == was.revisions && !a.archived && !a.broken &&
    AsAsked(was, was.current, r, a.revisions[a.current].definition) &&
    t.disk[Target(r)].text == a.revisions[a.current].yaml == Serialize(a.revisions[a.current].definition)
  }

  /** A write that nothing disturbs: the file holds the definition that was asked for, it is the agent's
      next revision, and when the database stood for the files before it does so afterwards. */
  lemma WriteKeepsLine(s: State, r: Request, stamp: nat)
    requires StateOk(s) && s.work == Idle && WouldWrite(s.db, s.disk, r)
    ensures var t := Step(Step(Step(s, Begin(r)), WriteFile(stamp)), Commit);
            && Target(r) in t.disk && Target(r) in t.db &&
               At(t.db, Target(r)).current == At(s.db, Target(r)).current + 1
            && t.disk == s.disk[Target(r) := File(t.disk[Target(r)].text, stamp)]
            && t.db == s.db[Target(r) := t.db[Target(r)]]
            && Holds(s.db, t, r)
            && t.work == Idle && t.syncedTree == None && t.sessions == s.sessions
            && (Mirror(s.db) == TextsOf(s.disk) ==> Mirror(t.db) == TextsOf(t.disk))
  {
    WriteIsAsked(s, r);
    var u := Step(s, Begin(r));
    WriteEnds(u, stamp);
    var a, file := Append(At(s.db, Target(r)), u.work.revision), File(u.work.revision.yaml, stamp);
    if Mirror(s.db) == TextsOf(s.disk) {
      PutInLine(s.db, s.disk, Target(r), a, file);
    }
  }

  /** An archive that nothing disturbs: the file is gone, and the agent is archived with its history. */
  lemma ArchiveEnds(s: State, id: Id)
    requires s.work == Idle && id in s.db && !s.db[id].archived
    ensures Step(Step(Step(s, ArchiveBegin(id)), RemoveFile), ArchiveEnd) ==
            s.(db := s.db[id := s.db[id].(archived := true, fileHash := None)], disk := s.disk - {id},
              syncedTree := None)
  {
    var u := s.(syncedTree := None, work := Removing(id, false));
    assert Step(s, ArchiveBegin(id)) == u;
    assert Step(u, RemoveFile) == u.(disk := s.disk - {id}, work := Removing(id, true));
  }

  /** So database and files stay in line. */
  lemma ArchiveKeepsLine(s: State, id: Id)
    requires s.work == Idle && id in s.db && !s.db[id].archived && Mirror(s.db) == TextsOf(s.disk)
    ensures var t := Step(Step(Step(s, ArchiveBegin(id)), RemoveFile), ArchiveEnd); Mirror(t.db) == TextsOf(t.disk)
  {
    ArchiveEnds(s, id);
    RemovedInLine(s.db, s.disk, id, s.db[id].(archived := true, fileHash := None));
  }

  /** An agent that is missing or archived is left alone. */
  lemma ArchiveRefuses(s: State, id: Id)
    requires id !in s.db || s.db[id].archived
    ensures Step(s, ArchiveBegin(id)) == s
  {
  }
}
