/** The service of src/agents/service.ts: the parts of its operations make the steps of the machine in
    Revisions, and the steps of a sync that no one disturbs make a full sync. */
module AgentService {
  import opened Options
  import opened AgentFiles
  import opened Revisions

  // ---------- the steps of an operation ----------

  function Reads(names: seq<Id>, good: set<Id>): seq<Action> {
    seq(|names|, i requires 0 <= i < |names| => SyncRead(names[i], names[i] in good))
  }

  function Stats(names: seq<Id>): seq<Action> {
    seq(|names|, i requires 0 <= i < |names| => Stat(names[i]))
  }

  /** The stamps of the files, in the order of `names`. */
  function StampSteps(names: seq<Id>, trusted: bool): seq<Action> {
    [SyncBegin] + Stats(names) + [StampEnd(trusted)]
  }

  /** The rest of a sync that is not skipped. */
  function ReadSteps(names: seq<Id>, good: set<Id>): seq<Action> {
    [SyncList] + Reads(names, good) + [SyncEnd]
  }

  /** The stamps on disk are old enough to trust and are those that the Host remembers. */
  predicate Unchanged(s: State, trusted: bool) {
    trusted && s.syncedTree == Some(StampsOf(s.disk))
  }

  function SyncSteps(s: State, names: seq<Id>, trusted: bool, good: set<Id>): seq<Action> {
    StampSteps(names, trusted) + if Unchanged(s, trusted) then [] else ReadSteps(names, good)
  }

  predicate Distinct(names: seq<Id>) {
    forall i, j :: 0 <= i < j < |names| ==> names[i] != names[j]
  }

  function Part(names: seq<Id>): set<Id> { set id | id in names }

  function Read(texts: map<Id, Text>, names: seq<Id>): map<Id, Text> {
    map id | id in texts && id in names :: texts[id]
  }

  lemma RunPush(s: State, actions: seq<Action>, a: Action)
    ensures Run(s, actions + [a]) == Step(Run(s, actions), a)
  {
    assert (actions + [a])[..|actions|] == actions;
  }

  lemma {:induction false} RunAppend(s: State, actions: seq<Action>, more: seq<Action>)
    ensures Run(s, actions + more) == Run(Run(s, actions), more)
    decreases |more|
  {
    if more == [] {
      assert actions + more == actions;
    } else {
      var n := |more| - 1;
      assert (actions + more)[..|actions| + n] == actions + more[..n];
      RunAppend(s, actions, more[..n]);
    }
  }

  /** A sync in the middle of its reads. */
  predicate Reading(s: State) {
    s.work.Syncing? && s.work.listed == Some(s.disk.Keys) && s.work.read == map[]
  }

  function AfterReads(s: State, names: seq<Id>, good: set<Id>): State
    requires Reading(s) && Part(names) <= s.disk.Keys
  {
    s.(db := ReadSome(s.db, Part(names), TextsOf(s.disk), good), work := s.work.(read := Read(TextsOf(s.disk), names)))
  }

  lemma ReadNext(s: State, names: seq<Id>, id: Id, good: set<Id>)
    requires Reading(s) && Part(names) <= s.disk.Keys && id in s.disk && id !in names
    ensures Part(names + [id]) == Part(names) + {id}
    ensures Step(AfterReads(s, names, good), SyncRead(id, id in good)) == AfterReads(s, names + [id], good)
  {
    var texts := TextsOf(s.disk);
    assert Part(names + [id]) == Part(names) + {id};
    ReadOneMore(s.db, Part(names), texts, good, id);
    assert Read(texts, names + [id]) == Read(texts, names)[id := texts[id]];
  }

  lemma {:induction false} ReadsAll(s: State, names: seq<Id>, good: set<Id>)
    requires Reading(s) && Distinct(names) && Part(names) <= s.disk.Keys
    ensures Run(s, Reads(names, good)) == AfterReads(s, names, good)
    decreases |names|
  {
    if names == [] {
      assert Read(TextsOf(s.disk), names) == map[] && ReadSome(s.db, Part(names), TextsOf(s.disk), good) == s.db;
    } else {
      var n := |names| - 1;
      var id := names[n];
      assert id in Part(names) && names == names[..n] + [id];
      assert Part(names[..n]) <= Part(names);
      assert Reads(names, good) == Reads(names[..n], good) + [SyncRead(id, id in good)];
      ReadsAll(s, names[..n], good);
      RunPush(s, Reads(names[..n], good), SyncRead(id, id in good));
      ReadNext(s, names[..n], id, good);
    }
  }

  // ---------- the stamps ----------

  function AfterStats(s: State, names: seq<Id>): State {
    s.(work := Stamping(s.disk.Keys, StampsFor(s.disk, names), Read(TextsOf(s.disk), names), false))
  }

  function StampsFor(disk: Disk, names: seq<Id>): Stamps {
    map id | id in disk && id in names :: Some(disk[id].stamp)
  }

  lemma StatNext(s: State, names: seq<Id>, id: Id)
    requires id in s.disk && id !in names
    ensures Step(AfterStats(s, names), Stat(id)) == AfterStats(s, names + [id])
  {
    var texts := TextsOf(s.disk);
    assert Read(texts, names + [id]) == Read(texts, names)[id := texts[id]];
    assert StampsFor(s.disk, names + [id]) == StampsFor(s.disk, names)[id := Some(s.disk[id].stamp)];
  }

  lemma StatsSnoc(names: seq<Id>, id: Id)
    ensures [SyncBegin] + Stats(names + [id]) == [SyncBegin] + Stats(names) + [Stat(id)]
  {
    assert Stats(names + [id]) == Stats(names) + [Stat(id)];
  }

  lemma PartSnoc(names: seq<Id>, id: Id, ids: set<Id>)
    requires Distinct(names + [id]) && Part(names + [id]) <= ids
    ensures Distinct(names) && Part(names) <= ids && id in ids && id !in names
  {
    var all := names + [id];
    assert all[|names|] == id && id in Part(all);
    forall i, j | 0 <= i < j < |names| ensures names[i] != names[j] { assert all[i] == names[i] && all[j] == names[j]; }
    forall k | k in Part(names) ensures k in ids { assert k in Part(all); }
    forall i | 0 <= i < |names| ensures names[i] != id { assert all[i] == names[i]; }
  }

  lemma {:induction false} StatsAll(s: State, names: seq<Id>)
    requires s.work == Idle && Distinct(names) && Part(names) <= s.disk.Keys
    ensures Run(s, [SyncBegin] + Stats(names)) == AfterStats(s, names)
    decreases |names|
  {
    if names == [] {
      assert [SyncBegin] + Stats(names) == [] + [SyncBegin];
      RunPush(s, [], SyncBegin);
      assert StampsFor(s.disk, names) == map[] && Read(TextsOf(s.disk), names) == map[];
    } else {
      var rest, id := names[..|names| - 1], names[|names| - 1];
      assert names == rest + [id];
      PartSnoc(rest, id, s.disk.Keys);
      StatsAll(s, rest);
      StatsSnoc(rest, id);
      RunPush(s, [SyncBegin] + Stats(rest), Stat(id));
      StatNext(s, rest, id);
    }
  }

  /** A sync whose stamps are all taken. */
  lemma StampsEnd(s: State, names: seq<Id>, trusted: bool)
    requires s.work == Idle && Distinct(names) && Part(names) == s.disk.Keys
    ensures Run(s, StampSteps(names, trusted)) ==
            if Unchanged(s, trusted) then s
            else s.(syncedTree := None, work := Syncing(StampsOf(s.disk), TextsOf(s.disk), trusted, None, map[], false))
  {
    StatsAll(s, names);
    RunPush(s, [SyncBegin] + Stats(names), StampEnd(trusted));
    assert forall id <- s.disk :: id in Part(names);
    assert StampsFor(s.disk, names) == StampsOf(s.disk) && Read(TextsOf(s.disk), names) == TextsOf(s.disk);
    assert StampsOf(s.disk).Keys == s.disk.Keys;
  }

  // ---------- the whole sync ----------

  /** What a sync leaves that no one disturbs. */
  function Synced(s: State, trusted: bool, good: set<Id>): State {
    var texts := TextsOf(s.disk);
    if Unchanged(s, trusted) then s
    else
      s.(db := FullSync(s.db, texts, good),
         syncedTree := if trusted then Some(StampsOf(s.disk)) else None,
         last := if trusted then Sync.Sync(texts, texts, false) else s.last)
  }

  /** Its steps, in any order of the names, make a full sync, or nothing when it is skipped. */
  lemma SyncStepsAreFullSync(s: State, names: seq<Id>, trusted: bool, good: set<Id>)
    requires s.work == Idle && Distinct(names) && Part(names) == s.disk.Keys
    ensures Run(s, SyncSteps(s, names, trusted, good)) == Synced(s, trusted, good)
  {
    StampsEnd(s, names, trusted);
    if Unchanged(s, trusted) {
      assert SyncSteps(s, names, trusted, good) == StampSteps(names, trusted);
    } else {
      RunAppend(s, StampSteps(names, trusted), ReadSteps(names, good));
      ReadsAreFullSync(s, names, trusted, good);
    }
  }

  lemma ReadsAreFullSync(s: State, names: seq<Id>, trusted: bool, good: set<Id>)
    requires s.work == Idle && !Unchanged(s, trusted) && Distinct(names) && Part(names) == s.disk.Keys
    ensures var t := s.(syncedTree := None,
                        work := Syncing(StampsOf(s.disk), TextsOf(s.disk), trusted, None, map[], false));
            Run(t, ReadSteps(names, good)) == Synced(s, trusted, good)
  {
    var t := s.(syncedTree := None, work := Syncing(StampsOf(s.disk), TextsOf(s.disk), trusted, None, map[], false));
    var u := t.(work := t.work.(listed := Some(s.disk.Keys)));
    assert [SyncList] == [] + [SyncList];
    RunPush(t, [], SyncList);
    assert Run(t, [SyncList]) == u;
    RunAppend(t, [SyncList], Reads(names, good));
    ReadsAll(u, names, good);
    RunPush(t, [SyncList] + Reads(names, good), SyncEnd);
    EndIsFull(s, u, names, trusted, good);
  }

  lemma EndIsFull(s: State, t: State, names: seq<Id>, trusted: bool, good: set<Id>)
    requires s.work == Idle && Part(names) == s.disk.Keys && !Unchanged(s, trusted)
    requires t == s.(syncedTree := None,
                     work := Syncing(StampsOf(s.disk), TextsOf(s.disk), trusted, Some(s.disk.Keys), map[], false))
    ensures EndSync(AfterReads(t, names, good)) == Synced(s, trusted, good)
  {
    var texts := TextsOf(s.disk);
    assert forall id <- texts :: id in Part(names);
    assert Read(texts, names) == texts && texts.Keys == s.disk.Keys;
    ReadAll(s.db, texts, good);
  }

  // ---------- the service ----------

  class Service {
    const tables: AgentTables
    var disk: Disk
    var syncedTree: Option<Stamps>
    var sessions: map<Id, Pin>
    var work: Work
    ghost var last: Sync

    ghost function View(): State
      reads this, tables
    {
      State(tables.db, disk, syncedTree, last, work, sessions)
    }

    constructor ()
      ensures View() == INIT && fresh(tables)
    {
      tables := new AgentTables();
      disk, syncedTree, sessions, work, last := map[], None, map[], Idle, Sync.Sync(map[], map[], false);
    }

    /** `sync`, when no one edits a file meanwhile. */
    method SyncFiles(names: seq<Id>, trusted: bool, good: set<Id>)
      requires StateOk(View()) && work == Idle && Distinct(names) && forall id :: id in names <==> id in disk
      modifies this, tables
      ensures StateOk(View()) && View() == Run(old(View()), SyncSteps(old(View()), names, trusted, good))
      ensures View() == old(View()) || Mirror(tables.db) == TextsOf(disk)
    {
      ghost var was := View();
      var before := StampsOf(disk);
      assert Part(names) == disk.Keys;
      SyncStepsAreFullSync(was, names, trusted, good);
      if trusted && syncedTree == Some(before) { return; }
      FullSyncOk(was.db, TextsOf(disk), good);
      SyncedOk(was, names, trusted, good);
      syncedTree := None;
      tables.Sync(names, TextsOf(disk), good);
      if trusted {
        syncedTree := Some(before);
        last := Sync.Sync(TextsOf(disk), TextsOf(disk), false);
      }
    }

    /** The checks of `create`, `save`, `setEnabled` and `restore`, after their sync; true when there is
        something to write. */
    method BeginChange(r: Request) returns (result: Result<bool, Error>)
      requires StateOk(View()) && work == Idle
      modifies this
      ensures StateOk(View()) && View() == Step(old(View()), Begin(r))
      ensures result == Begun(Outcome(tables.db, disk, r))
      ensures if result == Ok(true) then IsBegun(work, Outcome(tables.db, disk, r)) else View() == old(View())
    {
      ghost var was := View();
      var checked := Check(tables.db, disk, r);
      BeginsAs(was, r, checked, Step(was, Begin(r)));
      BeginOk(was, r, Step(was, Begin(r)));
      if checked.Err? { return Err(checked.error); }
      if checked.value.None? { return Ok(false); }
      var (id, revision) := checked.value.value;
      work := Writing(r, id, revision, At(tables.db, id).current, false);
      return Ok(true);
    }

    /** The file of `writeRevision`, renamed into place. */
    method PutFile(stamp: nat)
      requires StateOk(View()) && work.Writing? && !work.written
      modifies this
      ensures StateOk(View()) && View() == Step(old(View()), WriteFile(stamp))
    {
      StepOk(View(), WriteFile(stamp), Step(View(), WriteFile(stamp)));
      disk := disk[work.id := File(work.revision.yaml, stamp)];
      work := Writing(work.request, work.id, work.revision, work.base, true);
    }

    /** The rest of `writeRevision`, whatever has been edited meanwhile. */
    method CommitChange() returns (revision: nat)
      requires StateOk(View()) && work.Writing? && work.written
      modifies this, tables
      ensures StateOk(View()) && View() == Step(old(View()), Commit)
      ensures revision == old(work).base + 1 && WrittenOnBase(old(View()), View())
    {
      StepOk(View(), Commit, Step(View(), Commit));
      CommitWrites(View(), Step(View(), Commit));
      syncedTree := None;
      revision := tables.AppendRevision(work.id, work.revision);
      work := Idle;
    }

    /** Someone else edits the files, between any two of these calls. */
    method EditFiles(disk: Disk)
      requires StateOk(View()) && !work.Stamping? && !work.Syncing?
      modifies this
      ensures StateOk(View()) && View() == Step(old(View()), Edit(disk))
    {
      StepOk(View(), Edit(disk), Step(View(), Edit(disk)));
      this.disk := disk;
    }

    /** `writeRevision`, when nothing disturbs it. */
    method WriteRevision(stamp: nat) returns (revision: nat)
      requires StateOk(View()) && work.Writing? && !work.written
      modifies this, tables
      ensures StateOk(View()) && View() == Step(Step(old(View()), WriteFile(stamp)), Commit)
      ensures revision == old(work).base + 1
    {
      PutFile(stamp);
      revision := CommitChange();
    }

    /** A change that nothing disturbs; returns the revision written. */
    method Write(r: Request, stamp: nat) returns (result: Result<Option<nat>, Error>)
      requires StateOk(View()) && work == Idle
      modifies this, tables
      ensures StateOk(View()) && View() == Step(Step(Step(old(View()), Begin(r)), WriteFile(stamp)), Commit)
      ensures result == Outcome(old(tables.db), old(disk), r)
    {
      ghost var outcome := Outcome(tables.db, disk, r);
      var begun := BeginChange(r);
      ghost var begins := View();
      if begun == Ok(true) {
        var n := WriteRevision(stamp);
        assert outcome == Ok(Some(n));
        return Ok(Some(n));
      }
      IdleStays(begins, stamp);
      return if begun.Ok? then Ok(None) else Err(begun.error);
    }

    /** `openSession`, after its sync; `session` is the new id. */
    method OpenPinned(session: Id, id: Id, isEval: bool, wanted: Option<nat>) returns (result: Result<Pin, Error>)
      requires session !in sessions && work == Idle
      modifies this
      ensures View() == Step(old(View()), OpenSession(session, id, isEval, wanted))
      ensures result == match PinFor(tables.db, id, isEval, wanted) case Ok(n) => Ok(Pin(id, n)) case Err(e) => Err(e)
      ensures result.Ok? ==>
                result.value.agent == id && id in tables.db && session in sessions && sessions[session] == result.value
      ensures result.Ok? ==>
                result.value.revision == if isEval && wanted.Some? then wanted.value else tables.db[id].current
    {
      match PinFor(tables.db, id, isEval, wanted)
      case Err(e) => return Err(e);
      case Ok(n) =>
        sessions := sessions[session := Pin(id, n)];
        result := Ok(Pin(id, n));
    }
  }

  lemma {:induction false} ManyOk(s: State, actions: seq<Action>)
    requires StateOk(s)
    ensures StateOk(Run(s, actions))
    decreases |actions|
  {
    if actions != [] {
      ManyOk(s, actions[..|actions| - 1]);
      StepOk(Run(s, actions[..|actions| - 1]), actions[|actions| - 1], Run(s, actions));
    }
  }

  lemma SyncedOk(s: State, names: seq<Id>, trusted: bool, good: set<Id>)
    requires StateOk(s) && s.work == Idle && Distinct(names) && Part(names) == s.disk.Keys
    ensures StateOk(Synced(s, trusted, good))
  {
    SyncStepsAreFullSync(s, names, trusted, good);
    ManyOk(s, SyncSteps(s, names, trusted, good));
  }

  /** The number of the revision that a change writes, if it writes one. */
  function Outcome(db: Database, disk: Disk, r: Request): Result<Option<nat>, Error> {
    match Check(db, disk, r)
    case Err(e) => Err(e)
    case Ok(None) => Ok(None)
    case Ok(Some((id, _))) => Ok(Some(At(db, id).current + 1))
  }

  function Begun(outcome: Result<Option<nat>, Error>): Result<bool, Error> {
    match outcome
    case Err(e) => Err(e)
    case Ok(n) => Ok(n.Some?)
  }

  /** A write under way that will have this outcome. */
  predicate IsBegun(w: Work, outcome: Result<Option<nat>, Error>) {
    w.Writing? && !w.written && outcome == Ok(Some(w.base + 1))
  }

  /** What the checks of a change come to. */
  lemma BeginsAs(s: State, r: Request, checked: Result<Option<(Id, Revision)>, Error>, t: State)
    requires s.work == Idle && checked == Check(s.db, s.disk, r) && t == Step(s, Begin(r))
    ensures match checked
            case Err(e) => t == s && Outcome(s.db, s.disk, r) == Err(e)
            case Ok(None) => t == s && Outcome(s.db, s.disk, r) == Ok(None)
            case Ok(Some((id, revision))) =>
              t == s.(work := Writing(r, id, revision, At(s.db, id).current, false)) &&
              Outcome(s.db, s.disk, r) == Ok(Some(At(s.db, id).current + 1))
  {
  }

  lemma IdleStays(s: State, stamp: nat)
    requires s.work == Idle
    ensures Step(Step(s, WriteFile(stamp)), Commit) == s
  {
  }
}
