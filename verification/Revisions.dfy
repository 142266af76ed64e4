/** Revision history over every run of syncs, saves, restores, archives and session starts, while other
    programs edit the files at any time: `sync`, `create`, `save`, `setEnabled`, `restore`, `archive` and
    `openSession` of src/agents/service.ts. Work on one project is exclusive, so at most one of its
    operations is between two awaits; each action below is one of the parts between them. */
module Revisions {
  import opened Options
  import opened AgentFiles

  /** A file: its text, and what `stat` says of it (size, modification time and inode). */
  datatype File = File(text: Text, stamp: nat)

  type Disk = map<Id, File>

  /** Per listed name what `stat` says of its file, or that it has gone. */
  type Stamps = map<Id, Option<nat>>

  function StampsOf(disk: Disk): Stamps { map id <- disk :: Some(disk[id].stamp) }

  function TextsOf(disk: Disk): map<Id, Text> { map id <- disk :: disk[id].text }

  datatype Error = NotFound | IsArchived | RevisionNotFound | Conflict | Invalid | Exists | Disabled

  /** What a caller asks to be written. `allowed` says that no other agent has the definition's channel
      and that the memories it names are there. */
  datatype Request =
    | Create(definition: Definition, allowed: bool)
    | Save(id: Id, base: nat, definition: Definition, allowed: bool)
    | SetEnabled(id: Id, enabled: bool, allowed: bool)
    | Restore(id: Id, revision: nat, base: nat)

  /** The operation under way: a sync that takes the stamps of the names it listed, then reads the files,
      a write, or the removal of a file. As history, `texts` are those that the stamps were taken of, and
      `disturbed` says that someone edited a file since the sync began. */
  datatype Work =
    | Idle
    | Stamping(names: set<Id>, stamps: Stamps, texts: map<Id, Text>, disturbed: bool)
    | Syncing(stamps: Stamps, texts: map<Id, Text>, trusted: bool, listed: Option<set<Id>>, read: map<Id, Text>,
              disturbed: bool)
    | Writing(request: Request, id: Id, revision: Revision, base: nat, written: bool)
    | Removing(id: Id, removed: bool)

  /** What the last sync that recorded its stamps had seen: the texts when it took them, the texts it
      then read, and whether someone edited a file in between. */
  datatype Sync = Sync(texts: map<Id, Text>, read: map<Id, Text>, disturbed: bool)

  datatype Pin = Pin(agent: Id, revision: nat)

  /** `syncedTree` is the Host's memory of the stamps. */
  datatype State = State(db: Database, disk: Disk, syncedTree: Option<Stamps>, last: Sync, work: Work,
                         sessions: map<Id, Pin>)

  const INIT := State(map[], map[], None, Sync(map[], map[], false), Idle, map[])

  datatype Action =
    | Edit(disk: Disk)
    | SyncBegin
    | Stat(id: Id)
    | StampEnd(trusted: bool)
    | SyncList
    | SyncRead(id: Id, memories: bool)
    | SyncEnd
    | Begin(request: Request)
    | WriteFile(stamp: nat)
    | Commit
    | ArchiveBegin(id: Id)
    | RemoveFile
    | ArchiveEnd
    | OpenSession(session: Id, id: Id, isEval: bool, wanted: Option<nat>)
    | Fails
    | HostRestarts

  // ---------- the operations ----------

  /** `currentRevision`. */
  function Current(db: Database, id: Id): Result<Agent, Error> {
    if id !in db || db[id].current == 0 then Err(NotFound)
    else if db[id].archived then Err(IsArchived)
    else if db[id].current !in db[id].revisions then Err(RevisionNotFound)
    else Ok(db[id])
  }

  function Asked(d: Definition, source: Source): Revision { Revision(d, Serialize(d), source, None) }

  /** The checks of a write, and the revision it writes; none when nothing would change. */
  function Check(db: Database, disk: Disk, r: Request): Result<Option<(Id, Revision)>, Error> {
    match r
    case Create(d, allowed) =>
      if !allowed then Err(Invalid)
      else if d.id in disk || (d.id in db && !db[d.id].archived) then Err(Exists)
      else Ok(Some((d.id, Asked(d.(enabled := false), Console))))
    case Save(id, base, d, allowed) =>
      if d.id != id then Err(Invalid)
      else
        (match Current(db, id)
         case Err(e) => Err(e)
         case Ok(a) =>
           if a.current != base then Err(Conflict)
           else if !allowed then Err(Invalid)
           else if a.current in a.revisions && a.revisions[a.current].definition == d then Ok(None)
           else Ok(Some((id, Asked(d, Console)))))
    case SetEnabled(id, enabled, allowed) =>
      (match Current(db, id)
       case Err(e) => Err(e)
       case Ok(a) =>
         if a.current !in a.revisions then Err(RevisionNotFound)
         else if enabled && (a.broken || !allowed) then Err(Invalid)
         else if a.revisions[a.current].definition.enabled == enabled then Ok(None)
         else Ok(Some((id, Asked(a.revisions[a.current].definition.(enabled := enabled), Console)))))
    case Restore(id, revision, base) =>
      (match Current(db, id)
       case Err(e) => Err(e)
       case Ok(a) =>
         if a.current != base then Err(Conflict)
         else if revision !in a.revisions || a.current !in a.revisions then Err(RevisionNotFound)
         else
           var d := a.revisions[revision].definition.(enabled := a.revisions[a.current].definition.enabled);
           if d == a.revisions[a.current].definition then Ok(None)
           else Ok(Some((id, Revision(d, Serialize(d), Restored, Some(revision))))))
  }

  /** The revision that a new session is pinned to. */
  function PinFor(db: Database, id: Id, isEval: bool, wanted: Option<nat>): Result<nat, Error> {
    match Current(db, id)
    case Err(e) => Err(e)
    case Ok(a) =>
      var n := if isEval && wanted.Some? then wanted.value else a.current;
      if n !in a.revisions then Err(RevisionNotFound)
      else if !isEval && !a.revisions[n].definition.enabled then Err(Disabled)
      else Ok(n)
  }

  /** One stat of `treeStamp`. */
  function StatOne(w: Work, disk: Disk, id: Id): Work
    requires w.Stamping?
  {
    if id !in w.names || id in w.stamps then w
    else if id !in disk then Stamping(w.names, w.stamps[id := None], w.texts, w.disturbed)
    else Stamping(w.names, w.stamps[id := Some(disk[id].stamp)], w.texts[id := disk[id].text], w.disturbed)
  }

  /** All stamps are taken, and they are those that the Host remembers. */
  predicate Skips(s: State) {
    s.work.Stamping? && s.work.stamps.Keys == s.work.names && s.syncedTree == Some(s.work.stamps)
  }

  /** With all stamps taken, and old enough or not, a sync is skipped or goes on. */
  function EndStamps(s: State, trusted: bool): State {
    if !(s.work.Stamping? && s.work.stamps.Keys == s.work.names) then s
    else if trusted && Skips(s) then s.(work := Idle)
    else s.(syncedTree := None, work := Syncing(s.work.stamps, s.work.texts, trusted, None, map[], s.work.disturbed))
  }

  /** A name whose file has gone makes the read fail, and the sync with it. */
  function ReadOne(s: State, id: Id, memories: bool): State {
    if !(s.work.Syncing? && s.work.listed.Some? && id in s.work.listed.value && id !in s.work.read) then s
    else if id !in s.disk then s.(work := Idle)
    else
      var text := s.disk[id].text;
      s.(db := s.db[id := Apply(At(s.db, id), id, text, memories)], work := s.work.(read := s.work.read[id := text]))
  }

  function ArchiveOthers(db: Database, seen: set<Id>): Database {
    map id <- db :: if id in seen then db[id] else Archive(db[id])
  }

  function EndSync(s: State): State {
    if !(s.work.Syncing? && s.work.listed == Some(s.work.read.Keys)) then s
    else if s.work.trusted then
      s.(db := ArchiveOthers(s.db, s.work.read.Keys), syncedTree := Some(s.work.stamps),
         last := Sync(s.work.texts, s.work.read, s.work.disturbed), work := Idle)
    else s.(db := ArchiveOthers(s.db, s.work.read.Keys), work := Idle)
  }

  function BeginWrite(s: State, r: Request): State {
    if s.work != Idle then s
    else
      match Check(s.db, s.disk, r)
      case Ok(Some((id, revision))) => s.(work := Writing(r, id, revision, At(s.db, id).current, false))
      case _ => s
  }

  function Step(s: State, a: Action): State {
    match a
    case Edit(disk) =>
      s.(disk := disk, work := if s.work.Stamping? || s.work.Syncing? then s.work.(disturbed := true) else s.work)
    case SyncBegin => if s.work == Idle then s.(work := Stamping(s.disk.Keys, map[], map[], false)) else s
    case Stat(id) => if s.work.Stamping? then s.(work := StatOne(s.work, s.disk, id)) else s
    case StampEnd(trusted) => EndStamps(s, trusted)
    case SyncList =>
      if s.work.Syncing? && s.work.listed.None? then s.(work := s.work.(listed := Some(s.disk.Keys))) else s
    case SyncRead(id, memories) => ReadOne(s, id, memories)
    case SyncEnd => EndSync(s)
    case Begin(r) => BeginWrite(s, r)
    case WriteFile(stamp) =>
      if s.work.Writing? && !s.work.written
      then s.(disk := s.disk[s.work.id := File(s.work.revision.yaml, stamp)], work := s.work.(written := true))
      else s
    case Commit =>
      if s.work.Writing? && s.work.written
      then s.(db := s.db[s.work.id := Append(At(s.db, s.work.id), s.work.revision)], syncedTree := None, work := Idle)
      else s
    case ArchiveBegin(id) =>
      if s.work == Idle && id in s.db && !s.db[id].archived
      then s.(syncedTree := None, work := Removing(id, false))
      else s
    case RemoveFile =>
      if s.work.Removing? && !s.work.removed
      then s.(disk := s.disk - {s.work.id}, work := s.work.(removed := true))
      else s
    case ArchiveEnd =>
      if s.work.Removing? && s.work.removed
      then s.(db := s.db[s.work.id := Archive(At(s.db, s.work.id))], work := Idle)
      else s
    case OpenSession(session, id, isEval, wanted) =>
      if s.work != Idle || session in s.sessions then s
      else
        (match PinFor(s.db, id, isEval, wanted)
         case Ok(n) => s.(sessions := s.sessions[session := Pin(id, n)])
         case Err(_) => s)
    case Fails => s.(work := Idle, syncedTree := if s.work.Writing? && s.work.written then None else s.syncedTree)
    case HostRestarts => s.(work := Idle, syncedTree := None)
  }

  function Run(s: State, actions: seq<Action>): State
    decreases |actions|
  {
    if actions == [] then s else Step(Run(s, actions[..|actions| - 1]), actions[|actions| - 1])
  }

  // ---------- what every run keeps ----------

  /** The texts a sync has read are what the database stands for, so far. */
  predicate ReadOk(db: Database, read: map<Id, Text>) {
    forall id <- read :: id in db && !db[id].archived && db[id].fileHash == Some(read[id])
  }

  /** While no one edits, the stamps and texts that a sync takes are those on disk. */
  predicate StampsRight(w: Work, disk: Disk)
    requires w.Stamping?
  {
    w.names == disk.Keys && w.texts.Keys == w.stamps.Keys <= disk.Keys &&
    forall id <- w.stamps :: w.stamps[id] == Some(disk[id].stamp) && w.texts[id] == disk[id].text
  }

  /** While no one edits, a sync reads the texts that its stamps were taken of. */
  predicate Undisturbed(w: Work, disk: Disk)
    requires w.Syncing?
  {
    w.texts == TextsOf(disk) && (w.listed.Some? ==> w.listed.value == disk.Keys) &&
    forall id <- w.read :: id in w.texts && w.read[id] == w.texts[id]
  }

  /** What a request asks to be written over the revision `base` of an agent: always a change of it, and
      never of more than was asked. A new agent starts disabled, and a restored one stays as it is. */
  predicate AsAsked(a: Agent, base: nat, r: Request, d: Definition) {
    match r
    case Create(asked, _) => d == asked.(enabled := false)
    case Save(_, _, asked, _) => base in a.revisions && d == asked && d != a.revisions[base].definition
    case SetEnabled(_, enabled, _) =>
      base in a.revisions && d == a.revisions[base].definition.(enabled := enabled) && d != a.revisions[base].definition
    case Restore(_, n, _) =>
      base in a.revisions && n in a.revisions && d != a.revisions[base].definition &&
      d == a.revisions[n].definition.(enabled := a.revisions[base].definition.enabled)
  }

  predicate WriteOk(db: Database, w: Work)
    requires w.Writing?
  {
    && RevisionOk(w.id, w.revision) && w.revision.yaml == Serialize(w.revision.definition)
    && w.base == At(db, w.id).current
    && AsAsked(At(db, w.id), w.base, w.request, w.revision.definition)
    && (w.request.Save? ==> w.id == w.request.id && w.base == w.request.base)
    && (w.request.Restore? ==>
          w.id == w.request.id && w.base == w.request.base && w.revision.restoredFrom == Some(w.request.revision))
  }

  predicate WorkOk(db: Database, disk: Disk, w: Work) {
    match w
    case Idle => true
    case Stamping(names, stamps, texts, disturbed) =>
      stamps.Keys <= names && texts.Keys <= stamps.Keys && (!disturbed ==> StampsRight(w, disk))
    case Syncing(_, _, _, listed, read, disturbed) =>
      ReadOk(db, read) && (listed.Some? ==> read.Keys <= listed.value) && (listed.None? ==> read == map[]) &&
        (!disturbed ==> Undisturbed(w, disk))
    case Writing(_, _, _, _, _) => WriteOk(db, w)
    case Removing(id, _) => id in db
  }

  /** While the Host remembers stamps, the database stands for the texts that the sync read. */
  predicate TreeOk(db: Database, tree: Option<Stamps>, last: Sync, w: Work) {
    tree.Some? ==> Mirror(db) == last.read && (!last.disturbed ==> last.read == last.texts) &&
                   !w.Syncing? && !w.Removing?
  }

  ghost predicate PinsOk(db: Database, sessions: map<Id, Pin>) {
    forall x <- sessions :: sessions[x].agent in db && sessions[x].revision in db[sessions[x].agent].revisions
  }

  ghost predicate StateOk(s: State) {
    DatabaseOk(s.db) && WorkOk(s.db, s.disk, s.work) && TreeOk(s.db, s.syncedTree, s.last, s.work) &&
      PinsOk(s.db, s.sessions)
  }

  /** One agent moves on. */
  lemma PutOk(db: Database, id: Id, a: Agent, sessions: map<Id, Pin>, after: Database)
    requires DatabaseOk(db) && PinsOk(db, sessions) && AgentOk(id, a) && Extends(At(db, id), a)
    requires after == db[id := a]
    ensures DatabaseOk(after) && PinsOk(after, sessions) && Grows(db, after)
  {
    assert forall x <- db :: Extends(db[x], db[x]);
  }

  lemma ReadOneOk(s: State, id: Id, memories: bool, t: State)
    requires StateOk(s) && t == ReadOne(s, id, memories)
    ensures StateOk(t) && Grows(s.db, t.db)
  {
    if t != s && id in s.disk {
      var a, text := At(s.db, id), s.disk[id].text;
      ApplyOk(id, a, text, memories);
      ApplyExtends(id, a, text, memories);
      PutOk(s.db, id, Apply(a, id, text, memories), s.sessions, t.db);
      ReadWorkOk(s.db, s.disk, s.work, id, t.db, t.work);
    }
  }

  /** One more text is read. */
  lemma ReadWorkOk(db: Database, disk: Disk, w: Work, id: Id, after: Database, next: Work)
    requires WorkOk(db, disk, w) && w.Syncing? && w.listed.Some? && id in w.listed.value && id in disk
    requires next == Syncing(w.stamps, w.texts, w.trusted, w.listed, w.read[id := disk[id].text], w.disturbed)
    requires id in after && !after[id].archived && after[id].fileHash == Some(disk[id].text)
    requires forall x <- db :: x != id ==> x in after && after[x] == db[x]
    ensures WorkOk(after, disk, next)
  {
    ReadMoreOk(db, w.read, id, disk[id].text, after);
    assert next.read.Keys == w.read.Keys + {id};
  }

  lemma ReadMoreOk(db: Database, read: map<Id, Text>, id: Id, text: Text, after: Database)
    requires ReadOk(db, read) && id in after && !after[id].archived && after[id].fileHash == Some(text)
    requires forall x <- db :: x != id ==> x in after && after[x] == db[x]
    ensures ReadOk(after, read[id := text])
  {
  }

  lemma ArchiveOthersOk(db: Database, seen: set<Id>, sessions: map<Id, Pin>, after: Database)
    requires DatabaseOk(db) && PinsOk(db, sessions) && after == ArchiveOthers(db, seen)
    ensures DatabaseOk(after) && PinsOk(after, sessions) && Grows(db, after)
  {
    forall id <- db ensures AgentOk(id, after[id]) && Extends(db[id], after[id]) {
      ArchiveOk(id, db[id]);
    }
  }

  /** Then the database stands for what was read. */
  lemma MirrorsRead(db: Database, read: map<Id, Text>, after: Database)
    requires DatabaseOk(db) && ReadOk(db, read) && after == ArchiveOthers(db, read.Keys)
    ensures Mirror(after) == read
  {
    forall id <- db ensures id in read <==> !after[id].archived {
      ArchiveOk(id, db[id]);
    }
  }

  lemma EndSyncOk(s: State, t: State)
    requires StateOk(s) && t == EndSync(s)
    ensures StateOk(t) && Grows(s.db, t.db)
  {
    if s.work.Syncing? && s.work.listed == Some(s.work.read.Keys) {
      var read := s.work.read;
      assert t.work == Idle && t.sessions == s.sessions && t.db == ArchiveOthers(s.db, read.Keys);
      ArchiveOthersOk(s.db, read.Keys, s.sessions, t.db);
      MirrorsRead(s.db, read, t.db);
      RecordedOk(s);
    }
  }

  lemma RecordedOk(s: State)
    requires WorkOk(s.db, s.disk, s.work) && TreeOk(s.db, s.syncedTree, s.last, s.work)
    requires s.work.Syncing? && s.work.listed == Some(s.work.read.Keys)
    ensures var t := EndSync(s);
            t.syncedTree.Some? ==> t.last.read == s.work.read && (!t.last.disturbed ==> t.last.read == t.last.texts)
  {
    if !s.work.disturbed {
      SameTexts(s.work, s.disk);
    }
  }

  /** A sync that no one disturbed has read what its stamps were taken of. */
  lemma SameTexts(w: Work, disk: Disk)
    requires w.Syncing? && Undisturbed(w, disk) && w.listed == Some(w.read.Keys)
    ensures w.read == w.texts
  {
  }

  lemma CheckOk(db: Database, disk: Disk, r: Request)
    requires DatabaseOk(db)
    ensures match Check(db, disk, r)
            case Ok(Some((id, revision))) => WriteOk(db, Writing(r, id, revision, At(db, id).current, false))
            case _ => true
  {
  }

  lemma CommitOk(s: State)
    requires StateOk(s)
    ensures StateOk(Step(s, Commit)) && Grows(s.db, Step(s, Commit).db)
  {
    var t := Step(s, Commit);
    if t != s {
      var id, r := s.work.id, s.work.revision;
      AppendOk(id, At(s.db, id), r);
      AppendExtends(id, At(s.db, id), r);
      PutOk(s.db, id, Append(At(s.db, id), r), s.sessions, t.db);
    }
  }

  lemma ArchiveEndOk(s: State)
    requires StateOk(s)
    ensures StateOk(Step(s, ArchiveEnd)) && Grows(s.db, Step(s, ArchiveEnd).db)
  {
    var t := Step(s, ArchiveEnd);
    if t != s {
      var id := s.work.id;
      ArchiveOk(id, s.db[id]);
      PutOk(s.db, id, Archive(s.db[id]), s.sessions, t.db);
    }
  }

  lemma StampsTexts(w: Work, disk: Disk)
    requires w.Stamping? && StampsRight(w, disk) && w.stamps.Keys == w.names
    ensures w.texts == TextsOf(disk) && w.stamps == StampsOf(disk)
  {
  }

  lemma StatOk(w: Work, disk: Disk, id: Id, db: Database)
    requires w.Stamping? && WorkOk(db, disk, w)
    ensures WorkOk(db, disk, StatOne(w, disk, id))
  {
  }

  lemma StampEndOk(s: State, trusted: bool, t: State)
    requires StateOk(s) && t == EndStamps(s, trusted)
    ensures StateOk(t) && t.db == s.db
  {
    assert t.db == s.db && t.sessions == s.sessions;
    if s.work.Stamping? && s.work.stamps.Keys == s.work.names && !s.work.disturbed {
      StampsTexts(s.work, s.disk);
    }
    assert WorkOk(t.db, t.disk, t.work);
  }

  lemma EditOk(s: State, disk: Disk, t: State)
    requires StateOk(s) && t == Step(s, Edit(disk))
    ensures StateOk(t) && t.db == s.db
  {
    assert t.db == s.db && t.sessions == s.sessions && t.syncedTree == s.syncedTree && t.last == s.last;
    assert WorkOk(t.db, t.disk, t.work);
  }

  lemma BeginOk(s: State, r: Request, t: State)
    requires StateOk(s) && t == BeginWrite(s, r)
    ensures StateOk(t) && t.db == s.db
  {
    CheckOk(s.db, s.disk, r);
  }

  /** The steps that leave the tables of agents alone. */
  lemma OtherStepOk(s: State, a: Action, t: State)
    requires StateOk(s) && t == Step(s, a)
    requires !a.SyncRead? && !a.SyncEnd? && !a.Commit? && !a.ArchiveEnd? && !a.StampEnd? && !a.Edit? && !a.Begin?
    ensures StateOk(t) && t.db == s.db
  {
    assert t.db == s.db;
    if a.Stat? && s.work.Stamping? { StatOk(s.work, s.disk, a.id, s.db); }
  }

  lemma StepOk(s: State, a: Action, t: State)
    requires StateOk(s) && t == Step(s, a)
    ensures StateOk(t) && Grows(s.db, t.db)
  {
    match a
    case SyncRead(id, memories) => ReadOneOk(s, id, memories, t);
    case SyncEnd => EndSyncOk(s, t);
    case Commit => CommitOk(s);
    case ArchiveEnd => ArchiveEndOk(s);
    case StampEnd(trusted) => StampEndOk(s, trusted, t);
    case Edit(disk) => EditOk(s, disk, t);
    case Begin(r) => BeginOk(s, r, t);
    case _ => OtherStepOk(s, a, t);
  }

  lemma {:induction false} RunOk(actions: seq<Action>)
    ensures StateOk(Run(INIT, actions))
    decreases |actions|
  {
    if actions != [] {
      RunOk(actions[..|actions| - 1]);
      StepOk(Run(INIT, actions[..|actions| - 1]), actions[|actions| - 1], Run(INIT, actions));
    }
  }

  // ---------- the history ----------

  lemma GrowsTrans(db: Database, mid: Database, after: Database)
    requires Grows(db, mid) && Grows(mid, after)
    ensures Grows(db, after)
  {
    forall id <- db ensures id in after && Extends(db[id], after[id]) {
      assert Extends(db[id], mid[id]) && Extends(mid[id], after[id]);
    }
  }

  /** In every run the revisions of an agent are numbered exactly 1 to the current one. */
  lemma RevisionsComplete(actions: seq<Action>, id: Id, n: nat)
    requires id in Run(INIT, actions).db
    ensures n in Run(INIT, actions).db[id].revisions <==> 1 <= n <= Run(INIT, actions).db[id].current
  {
    RunOk(actions);
  }

  /** No agent ever goes, and no revision ever changes or goes. */
  lemma {:induction false} HistoryOnlyGrows(actions: seq<Action>, more: seq<Action>)
    ensures Grows(Run(INIT, actions).db, Run(INIT, actions + more).db)
    decreases |more|
  {
    if more == [] {
      assert actions + more == actions;
      forall id <- Run(INIT, actions).db ensures Extends(Run(INIT, actions).db[id], Run(INIT, actions).db[id]) {}
    } else {
      var n := |more| - 1;
      var before := actions + more[..n];
      HistoryOnlyGrows(actions, more[..n]);
      RunOk(before);
      assert actions + more == before + [more[n]] && (actions + more)[..|before|] == before;
      StepOk(Run(INIT, before), more[n], Run(INIT, actions + more));
      GrowsTrans(Run(INIT, actions).db, Run(INIT, before).db, Run(INIT, actions + more).db);
    }
  }

  /** A session's pin is set once, and what it names is there for good. */
  lemma {:induction false} PinsLast(actions: seq<Action>, more: seq<Action>, session: Id)
    requires session in Run(INIT, actions).sessions
    ensures var s, t := Run(INIT, actions), Run(INIT, actions + more);
            var pin := s.sessions[session];
            && session in t.sessions && t.sessions[session] == pin
            && pin.agent in s.db && pin.revision in s.db[pin.agent].revisions
            && pin.agent in t.db && pin.revision in t.db[pin.agent].revisions
            && t.db[pin.agent].revisions[pin.revision] == s.db[pin.agent].revisions[pin.revision]
    decreases |more|
  {
    RunOk(actions);
    HistoryOnlyGrows(actions, more);
    PinKept(actions, more, session);
  }

  lemma {:induction false} PinKept(actions: seq<Action>, more: seq<Action>, session: Id)
    requires session in Run(INIT, actions).sessions
    ensures SamePin(Run(INIT, actions), Run(INIT, actions + more), session)
    decreases |more|
  {
    if more == [] {
      assert actions + more == actions;
    } else {
      var n := |more| - 1;
      PinKept(actions, more[..n], session);
      assert (actions + more)[..|actions| + n] == actions + more[..n];
      StepKeepsPin(Run(INIT, actions + more[..n]), more[n], session, Run(INIT, actions + more));
    }
  }

  predicate SamePin(s: State, t: State, session: Id)
    requires session in s.sessions
  {
    session in t.sessions && t.sessions[session] == s.sessions[session]
  }

  lemma StepKeepsPin(s: State, a: Action, session: Id, t: State)
    requires session in s.sessions && t == Step(s, a)
    ensures SamePin(s, t, session)
  {
  }

  /** What a write commits: the next revision after the one that was current when it began, as it was
      asked for, and the revisions before it stay. */
  ghost predicate WrittenOnBase(s: State, t: State) {
    s.work.Writing? &&
    var w, id := s.work, s.work.id;
    var before := At(s.db, id);
    && before.current == w.base
    && AsAsked(before, w.base, w.request, w.revision.definition)
    && (w.request.Save? ==> w.request.base == w.base)
    && (w.request.Restore? ==> w.request.base == w.base && w.revision.restoredFrom == Some(w.request.revision))
    && id in t.db && t.db == s.db[id := t.db[id]]
    && t.db[id].current == w.base + 1 && t.db[id].revisions == before.revisions[w.base + 1 := w.revision]
    && !t.db[id].archived && !t.db[id].broken && t.db[id].fileHash == Some(w.revision.yaml)
  }

  lemma CommitWrites(s: State, t: State)
    requires WorkOk(s.db, s.disk, s.work) && s.work.Writing? && s.work.written && t == Step(s, Commit)
    ensures WrittenOnBase(s, t)
  {
    assert t.db == s.db[s.work.id := Append(At(s.db, s.work.id), s.work.revision)];
  }

  /** A write commits the revision after the one that was current when it began, whatever was edited
      meanwhile; for a save and a restore that one is the revision their caller based them on. */
  lemma WritesOnBase(actions: seq<Action>)
    requires Run(INIT, actions).work.Writing? && Run(INIT, actions).work.written
    ensures WrittenOnBase(Run(INIT, actions), Step(Run(INIT, actions), Commit))
  {
    RunOk(actions);
    CommitWrites(Run(INIT, actions), Step(Run(INIT, actions), Commit));
  }

  /** The file that an agent without issues had when it was last read or written spells its current
      revision. */
  lemma CurrentIsTheFile(actions: seq<Action>, id: Id)
    requires id in Run(INIT, actions).db && !Run(INIT, actions).db[id].archived && !Run(INIT, actions).db[id].broken
    ensures var a := Run(INIT, actions).db[id];
            a.current in a.revisions && a.fileHash.Some? && a.fileHash.value.Spells? &&
              a.fileHash.value.definition == a.revisions[a.current].definition
  {
    RunOk(actions);
  }

  // ---------- syncs that are skipped ----------

  /** A sync is skipped when the stamps it took are those that the Host remembers. If they were taken of
      the same texts, the full sync it stands for would change nothing exactly when the sync that recorded
      the stamps had read the very texts it took them of; that is, when each stored hash is that of the
      text, and every agent without a text is archived. */
  lemma SkipIsFullIff(actions: seq<Action>, good: set<Id>)
    requires Skips(Run(INIT, actions)) && Run(INIT, actions).work.texts == Run(INIT, actions).last.texts
    ensures var s := Run(INIT, actions);
            && (FullSync(s.db, s.work.texts, good) == s.db <==> s.last.read == s.last.texts)
            && (FullSync(s.db, s.work.texts, good) == s.db <==> Mirror(s.db) == s.work.texts)
  {
    RunOk(actions);
    var s := Run(INIT, actions);
    NothingToDoIff(s.db, s.work.texts, good);
  }

  /** The sync whose stamps were all taken before step i took these, of these texts. */
  ghost predicate Took(actions: seq<Action>, i: nat, trusted: bool, stamps: Stamps, texts: map<Id, Text>) {
    i < |actions| && actions[i] == StampEnd(trusted) &&
    var w := Run(INIT, actions[..i]).work;
    w.Stamping? && w.stamps.Keys == w.names && stamps == w.stamps && texts == w.texts
  }

  /** Stamps that were old enough to trust, whenever a sync took them, tell the texts apart. */
  ghost predicate Honest(actions: seq<Action>) {
    forall i: nat, j: nat, stamps: Stamps, texts: map<Id, Text>, others: map<Id, Text> ::
      Took(actions, i, true, stamps, texts) && Took(actions, j, true, stamps, others) ==> texts == others
  }

  ghost predicate StampsTaken(actions: seq<Action>, s: State) {
    (s.work.Syncing? ==> exists i :: Took(actions, i, s.work.trusted, s.work.stamps, s.work.texts)) &&
    (s.syncedTree.Some? ==> exists i :: Took(actions, i, true, s.syncedTree.value, s.last.texts))
  }

  lemma TookBefore(actions: seq<Action>, n: nat, i: nat, trusted: bool, stamps: Stamps, texts: map<Id, Text>)
    requires n <= |actions| && Took(actions[..n], i, trusted, stamps, texts)
    ensures Took(actions, i, trusted, stamps, texts)
  {
    assert actions[..n][..i] == actions[..i];
  }

  /** What the Host remembers was taken by a sync. */
  lemma {:induction false} Remembered(actions: seq<Action>)
    ensures StampsTaken(actions, Run(INIT, actions))
    decreases |actions|
  {
    if actions != [] {
      var n := |actions| - 1;
      var s := Run(INIT, actions[..n]);
      Remembered(actions[..n]);
      StillTaken(actions, n, s);
      if actions[n].StampEnd? && s.work.Stamping? && s.work.stamps.Keys == s.work.names {
        assert Took(actions, n, actions[n].trusted, s.work.stamps, s.work.texts);
      }
      StepRemembers(actions, s, actions[n], Run(INIT, actions));
    }
  }

  lemma StillTaken(actions: seq<Action>, n: nat, s: State)
    requires n <= |actions| && StampsTaken(actions[..n], s)
    ensures StampsTaken(actions, s)
  {
    if s.work.Syncing? {
      var i :| Took(actions[..n], i, s.work.trusted, s.work.stamps, s.work.texts);
      TookBefore(actions, n, i, s.work.trusted, s.work.stamps, s.work.texts);
    }
    if s.syncedTree.Some? {
      var i :| Took(actions[..n], i, true, s.syncedTree.value, s.last.texts);
      TookBefore(actions, n, i, true, s.syncedTree.value, s.last.texts);
    }
  }

  /** What a step does to the memory of stamps: it keeps it, forgets it, or records what a sync took. */
  predicate StampsFrom(s: State, t: State) {
    t.syncedTree.Some? ==>
      (t.syncedTree == s.syncedTree && t.last == s.last) ||
      (s.work.Syncing? && s.work.trusted && t.syncedTree == Some(s.work.stamps) && t.last.texts == s.work.texts)
  }

  /** A sync that goes on has the stamps it had, or those it has just taken. */
  predicate SyncFrom(s: State, a: Action, t: State) {
    t.work.Syncing? ==>
      (s.work.Syncing? && t.work.trusted == s.work.trusted && t.work.stamps == s.work.stamps &&
       t.work.texts == s.work.texts) ||
      (a == StampEnd(t.work.trusted) && s.work.Stamping? && s.work.stamps.Keys == s.work.names &&
       t.work.stamps == s.work.stamps && t.work.texts == s.work.texts)
  }

  lemma StepStamps(s: State, a: Action, t: State)
    requires t == Step(s, a)
    ensures StampsFrom(s, t)
  {
  }

  lemma StepSync(s: State, a: Action, t: State)
    requires t == Step(s, a)
    ensures SyncFrom(s, a, t)
  {
  }

  lemma StepRemembers(actions: seq<Action>, s: State, a: Action, t: State)
    requires StampsTaken(actions, s) && t == Step(s, a)
    requires a.StampEnd? && s.work.Stamping? && s.work.stamps.Keys == s.work.names ==>
               exists i :: Took(actions, i, a.trusted, s.work.stamps, s.work.texts)
    ensures StampsTaken(actions, t)
  {
    StepStamps(s, a, t);
    StepSync(s, a, t);
  }

  /** Provided that trusted stamps tell the texts apart and that no one edited a file while the sync ran
      that recorded them, a sync that is skipped leaves what a full one would, of the texts its stamps
      were taken of; and those are the files as they are, if no one edited one since it began. */
  lemma SkipIsFull(actions: seq<Action>, n: nat, good: set<Id>)
    requires n < |actions| && actions[n] == StampEnd(true) && Honest(actions)
    requires Skips(Run(INIT, actions[..n])) && !Run(INIT, actions[..n]).last.disturbed
    ensures var s := Run(INIT, actions[..n]);
            && FullSync(s.db, s.work.texts, good) == s.db
            && (!s.work.disturbed ==> s.work.texts == TextsOf(s.disk))
  {
    var s := Run(INIT, actions[..n]);
    Remembered(actions[..n]);
    var i :| Took(actions[..n], i, true, s.syncedTree.value, s.last.texts);
    TookBefore(actions, n, i, true, s.syncedTree.value, s.last.texts);
    assert Took(actions, n, true, s.work.stamps, s.work.texts);
    RunOk(actions[..n]);
    SkipIsFullIff(actions[..n], good);
    if !s.work.disturbed {
      StampsTexts(s.work, s.disk);
    }
  }

  function PutBack(x: Id, text: Text, other: Text): seq<Action> {
    [Edit(map[x := File(text, 1)]), SyncBegin, Stat(x), StampEnd(true), SyncList, Edit(map[x := File(other, 2)]),
     SyncRead(x, true), SyncEnd, Edit(map[x := File(text, 1)]), SyncBegin, Stat(x)]
  }

  /** One file and its stamp, taken. */
  function Taken(x: Id, text: Text): Work { Stamping({x}, map[x := Some(1)], map[x := text], false) }

  /** From any state with that file, the steps up to the end of the stamps. */
  lemma TakesStamp(s: State, x: Id, text: Text)
    requires s.work == Idle && s.disk == map[x := File(text, 1)]
    ensures Step(Step(s, SyncBegin), Stat(x)) == s.(work := Taken(x, text))
  {
    assert s.disk.Keys == {x};
  }

  /** The sync has listed the file that is then replaced. */
  function Replaced(x: Id, text: Text, other: Text): State {
    State(map[], map[x := File(other, 2)], None, Sync(map[], map[], false),
          Syncing(map[x := Some(1)], map[x := text], true, Some({x}), map[], true), map[])
  }

  lemma PutBackTakes(x: Id, text: Text, other: Text)
    ensures Run(INIT, PutBack(x, text, other)[..3]) == INIT.(disk := map[x := File(text, 1)], work := Taken(x, text))
  {
    var run := PutBack(x, text, other);
    RunSnoc(run, 0);
    assert run[..0] == [];
    RunSnoc(run, 1);
    RunSnoc(run, 2);
    TakesStamp(INIT.(disk := map[x := File(text, 1)]), x, text);
  }

  /** From the stamps on, up to the replacing. */
  lemma TakenThenReplaced(x: Id, text: Text, other: Text)
    ensures var s := INIT.(disk := map[x := File(text, 1)], work := Taken(x, text));
            Step(Step(Step(s, StampEnd(true)), SyncList), Edit(map[x := File(other, 2)])) == Replaced(x, text, other)
  {
    var s := INIT.(disk := map[x := File(text, 1)], work := Taken(x, text));
    assert s.work.stamps.Keys == {x} && s.disk.Keys == {x};
  }

  lemma PutBackLists(x: Id, text: Text, other: Text)
    ensures Run(INIT, PutBack(x, text, other)[..5]) ==
            Step(Step(INIT.(disk := map[x := File(text, 1)], work := Taken(x, text)), StampEnd(true)), SyncList)
  {
    PutBackTakes(x, text, other);
    RunSnoc(PutBack(x, text, other), 3);
    RunSnoc(PutBack(x, text, other), 4);
  }

  lemma PutBackBegins(x: Id, text: Text, other: Text)
    ensures Run(INIT, PutBack(x, text, other)[..6]) == Replaced(x, text, other)
  {
    PutBackLists(x, text, other);
    RunSnoc(PutBack(x, text, other), 5);
    TakenThenReplaced(x, text, other);
  }

  lemma PutBackReads(x: Id, text: Text, other: Text)
    ensures var s := Run(INIT, PutBack(x, text, other)[..9]);
            s.work == Idle && s.disk == map[x := File(text, 1)] && s.syncedTree == Some(map[x := Some(1)]) &&
            s.last == Sync(map[x := text], map[x := other], true)
  {
    var run := PutBack(x, text, other);
    PutBackBegins(x, text, other);
    RunSnoc(run, 6);
    var s7 := Run(INIT, run[..7]);
    assert s7.work == Syncing(map[x := Some(1)], map[x := text], true, Some({x}), map[x := other], true);
    RunSnoc(run, 7);
    assert s7.work.read.Keys == {x};
    RunSnoc(run, 8);
  }

  lemma PutBackEnds(x: Id, text: Text, other: Text)
    ensures var s := Run(INIT, PutBack(x, text, other));
            s.work == Taken(x, text) && s.disk == map[x := File(text, 1)] && s.syncedTree == Some(map[x := Some(1)]) &&
            s.last == Sync(map[x := text], map[x := other], true)
  {
    var run := PutBack(x, text, other);
    PutBackReads(x, text, other);
    RunSnoc(run, 9);
    RunSnoc(run, 10);
    TakesStamp(Run(INIT, run[..9]), x, text);
    assert run[..11] == run;
  }

  /** The second condition is needed: a file that is replaced while a sync reads it, and then put back
      as it was, is skipped although the database stands for the other text. */
  lemma PutBackIsMissed(x: Id, text: Text, other: Text)
    requires text != other
    ensures var s := Run(INIT, PutBack(x, text, other));
            && Skips(s) && s.disk == map[x := File(text, 1)] && s.work.texts == s.last.texts == TextsOf(s.disk)
            && Mirror(s.db) == map[x := other] && FullSync(s.db, TextsOf(s.disk), {x}) != s.db
  {
    var run := PutBack(x, text, other);
    PutBackEnds(x, text, other);
    var s := Run(INIT, run);
    assert TextsOf(s.disk) == map[x := text];
    RunOk(run);
    assert map[x := other][x] != map[x := text][x];
    SkipIsFullIff(run, {x});
  }

  lemma RunSnoc(actions: seq<Action>, n: nat)
    requires n < |actions|
    ensures Run(INIT, actions[..n + 1]) == Step(Run(INIT, actions[..n]), actions[n])
  {
    assert actions[..n + 1][..n] == actions[..n];
  }
}
