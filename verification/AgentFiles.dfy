/** Agent definitions, their files and their revisions: the tables behind
    `appendRevision` and `updateDefinitionState` of src/agents/store.ts, and what reading a file does to
    them (`applyFile`, `fullSync` of src/agents/service.ts). */
module AgentFiles {
  import opened Options

  type Id = string

  /** A parsed definition; `rest` is all of it but the id and the switch. */
  datatype Definition = Definition(id: Id, enabled: bool, rest: string)

  /** The text of a file, by what it parses to. Two texts are equal exactly when their hashes are. */
  datatype Text = Spells(definition: Definition, layout: string) | Malformed(content: string)

  /** `serializeAgentDefinition`: the text that a definition is saved as. */
  function Serialize(d: Definition): Text { Spells(d, "") }

  datatype Source = Console | FromFile | Author | Restored | Api

  datatype Revision = Revision(definition: Definition, yaml: Text, source: Source, restoredFrom: Option<nat>)

  /** The definition row of an agent with its revision rows; `broken` says that the row has issues. */
  datatype Agent = Agent(current: nat, archived: bool, fileHash: Option<Text>, broken: bool,
                         revisions: map<nat, Revision>)

  type Database = map<Id, Agent>

  const NO_AGENT := Agent(0, true, None, false, map[])

  function At(db: Database, id: Id): Agent { if id in db then db[id] else NO_AGENT }

  /** `appendRevision`: the next revision becomes the current one. */
  function Append(a: Agent, r: Revision): Agent {
    Agent(a.current + 1, false, Some(r.yaml), false, a.revisions[a.current + 1 := r])
  }

  /** A file that can become a revision; `memories` says that the memories it names are there. */
  predicate Acceptable(id: Id, text: Text, memories: bool) {
    text.Spells? && text.definition.id == id && memories
  }

  /** One turn of the first loop of `fullSync`, with `applyFile`. */
  function Apply(a: Agent, id: Id, text: Text, memories: bool): Agent {
    if a.fileHash == Some(text) && !a.archived then a
    else if !Acceptable(id, text, memories) then a.(fileHash := Some(text), broken := true, archived := false)
    else if a.current in a.revisions && a.revisions[a.current].definition == text.definition then
      a.(fileHash := Some(text), broken := false, archived := false)
    else Append(a, Revision(text.definition, text, FromFile, None))
  }

  /** Its second loop, and what archiving does. */
  function Archive(a: Agent): Agent {
    if a.archived then a else a.(archived := true, fileHash := None)
  }

  /** A full sync that no edit disturbs; `good` are the files whose memories are there. */
  function FullSync(db: Database, files: map<Id, Text>, good: set<Id>): Database {
    map id | id in db.Keys + files.Keys ::
      if id in files then Apply(At(db, id), id, files[id], id in good) else Archive(db[id])
  }

  // ---------- what holds of every agent ----------

  predicate RevisionOk(id: Id, r: Revision) {
    r.definition.id == id && r.yaml.Spells? && r.yaml.definition == r.definition
  }

  /** Revisions are numbered 1 to the current one, each with a text that spells it; an agent has a file
      hash exactly while it is not archived; and the file of an agent without issues spells its current
      revision. */
  ghost predicate AgentOk(id: Id, a: Agent) {
    && (forall n :: n in a.revisions <==> 1 <= n <= a.current)
    && (forall n <- a.revisions :: RevisionOk(id, a.revisions[n]))
    && (a.archived <==> a.fileHash.None?)
    && (!a.archived && !a.broken ==>
          a.current > 0 && a.fileHash.value.Spells? && a.fileHash.value.definition == a.revisions[a.current].definition)
  }

  ghost predicate DatabaseOk(db: Database) {
    forall id <- db :: AgentOk(id, db[id])
  }

  lemma AppendOk(id: Id, a: Agent, r: Revision)
    requires AgentOk(id, a) && RevisionOk(id, r)
    ensures AgentOk(id, Append(a, r))
  {
  }

  lemma ApplyOk(id: Id, a: Agent, text: Text, memories: bool)
    requires AgentOk(id, a)
    ensures AgentOk(id, Apply(a, id, text, memories))
    ensures var b := Apply(a, id, text, memories); !b.archived && b.fileHash == Some(text)
  {
    if Acceptable(id, text, memories) {
      AppendOk(id, a, Revision(text.definition, text, FromFile, None));
    }
  }

  lemma ArchiveOk(id: Id, a: Agent)
    requires AgentOk(id, a)
    ensures AgentOk(id, Archive(a)) && Archive(a).archived
  {
  }

  // ---------- the database and the files ----------

  /** The files that the database stands for. */
  function Mirror(db: Database): map<Id, Text> {
    map id | id in db && !db[id].archived && db[id].fileHash.Some? :: db[id].fileHash.value
  }

  lemma FullSyncOk(db: Database, files: map<Id, Text>, good: set<Id>)
    requires DatabaseOk(db)
    ensures DatabaseOk(FullSync(db, files, good))
    ensures Mirror(FullSync(db, files, good)) == files
  {
    var after := FullSync(db, files, good);
    forall id <- after ensures AgentOk(id, after[id]) &&
      (id in files ==> !after[id].archived && after[id].fileHash == Some(files[id])) &&
        (id !in files ==> after[id].archived) {
      if id in files { ApplyOk(id, At(db, id), files[id], id in good); } else { ArchiveOk(id, db[id]); }
    }
  }

  /** A full sync has nothing to do exactly when the database already stands for the files. */
  lemma NothingToDoIff(db: Database, files: map<Id, Text>, good: set<Id>)
    requires DatabaseOk(db)
    ensures FullSync(db, files, good) == db <==> Mirror(db) == files
  {
    FullSyncOk(db, files, good);
    if Mirror(db) == files {
      assert files.Keys <= db.Keys;
      forall id <- db ensures FullSync(db, files, good)[id] == db[id] {
        assert id in files <==> !db[id].archived;
      }
    }
  }

  /** A second full sync over the same files changes nothing, whatever memories have come or gone. */
  lemma SecondSyncChangesNothing(db: Database, files: map<Id, Text>, good: set<Id>, later: set<Id>)
    requires DatabaseOk(db)
    ensures FullSync(FullSync(db, files, good), files, later) == FullSync(db, files, good)
  {
    FullSyncOk(db, files, good);
    NothingToDoIff(FullSync(db, files, good), files, later);
  }

  /** What a full sync makes of a file that the database does not stand for yet. One that cannot become a
      revision only marks the agent. Any other is the agent's current definition from then on, in one new
      revision with the file's text unless it was so already. */
  lemma FullSyncReads(db: Database, files: map<Id, Text>, good: set<Id>, id: Id)
    requires DatabaseOk(db) && id in files && (id !in db || db[id].archived || db[id].fileHash != Some(files[id]))
    ensures var a, b, text := At(db, id), FullSync(db, files, good)[id], files[id];
            var same := a.current > 0 && text.Spells? && a.revisions[a.current].definition == text.definition;
            && (b.broken <==> !Acceptable(id, text, id in good))
            && (b.broken || same ==> b.current == a.current && b.revisions == a.revisions)
            && (!b.broken ==> b.current in b.revisions && b.revisions[b.current].definition == text.definition)
            && (!b.broken && !same ==> b.current == a.current + 1 && b.revisions[b.current].yaml == text &&
                                       forall n <- a.revisions :: n in b.revisions && b.revisions[n] == a.revisions[n])
  {
    assert AgentOk(id, At(db, id));
  }

  // ---------- history only grows ----------

  predicate Extends(a: Agent, b: Agent) {
    a.current <= b.current && forall n <- a.revisions :: n in b.revisions && b.revisions[n] == a.revisions[n]
  }

  /** No agent and no revision is lost or changed. */
  ghost predicate Grows(db: Database, after: Database) {
    forall id <- db :: id in after && Extends(db[id], after[id])
  }

  lemma AppendExtends(id: Id, a: Agent, r: Revision)
    requires AgentOk(id, a)
    ensures Extends(a, Append(a, r))
  {
  }

  lemma ApplyExtends(id: Id, a: Agent, text: Text, memories: bool)
    requires AgentOk(id, a)
    ensures Extends(a, Apply(a, id, text, memories))
  {
    if Acceptable(id, text, memories) {
      AppendExtends(id, a, Revision(text.definition, text, FromFile, None));
    }
  }

  // ---------- the tables, changed in place ----------

  /** The stored definitions and revisions of one project. */
  class AgentTables {
    var db: Database

    constructor ()
      ensures db == map[]
    {
      db := map[];
    }

    /** `appendRevision`; returns the new revision's number. */
    method AppendRevision(id: Id, r: Revision) returns (revision: nat)
      requires DatabaseOk(db) && RevisionOk(id, r)
      modifies this
      ensures db == old(db)[id := Append(At(old(db), id), r)]
      ensures revision == At(old(db), id).current + 1 && DatabaseOk(db)
    {
      var a := At(db, id);
      revision := a.current + 1;
      AppendOk(id, a, r);
      db := db[id := Agent(revision, false, Some(r.yaml), false, a.revisions[revision := r])];
    }

    /** `applyFile`, for a text that the row does not stand for yet. */
    method ApplyFile(id: Id, text: Text, memories: bool)
      requires DatabaseOk(db) && !(At(db, id).fileHash == Some(text) && !At(db, id).archived)
      modifies this
      ensures db == old(db)[id := Apply(At(old(db), id), id, text, memories)] && DatabaseOk(db)
    {
      var a := At(db, id);
      ApplyOk(id, a, text, memories);
      if !Acceptable(id, text, memories) {
        db := db[id := a.(fileHash := Some(text), broken := true, archived := false)];
      } else if a.current > 0 && a.revisions[a.current].definition == text.definition {
        db := db[id := a.(fileHash := Some(text), broken := false, archived := false)];
      } else {
        var _ := AppendRevision(id, Revision(text.definition, text, FromFile, None));
      }
    }

    /** `fullSync` while no one edits the files: every file is read, whatever the order of their names,
        then the agents without a file are archived. */
    method Sync(names: seq<Id>, files: map<Id, Text>, good: set<Id>)
      requires DatabaseOk(db)
      requires (forall i, j :: 0 <= i < j < |names| ==> names[i] != names[j]) &&
               forall id :: id in names <==> id in files
      modifies this
      ensures db == FullSync(old(db), files, good) && DatabaseOk(db)
    {
      ghost var was := db;
      ReadFiles(names, files, good);
      FullSyncOk(was, files, good);
      ReadAll(was, files, good);
      ArchiveMissing(files.Keys);
    }

    /** The first loop. */
    method ReadFiles(names: seq<Id>, files: map<Id, Text>, good: set<Id>)
      requires DatabaseOk(db)
      requires (forall i, j :: 0 <= i < j < |names| ==> names[i] != names[j]) &&
               forall id :: id in names <==> id in files
      modifies this
      ensures db == ReadSome(old(db), files.Keys, files, good)
    {
      ghost var was := db;
      ghost var done: set<Id> := {};
      for i := 0 to |names|
        invariant done <= files.Keys && forall j :: 0 <= j < |names| ==> (names[j] in done <==> j < i)
        invariant DatabaseOk(db) && db == ReadSome(was, done, files, good)
      {
        var id := names[i];
        ReadOneMore(was, done, files, good, id);
        ReadFile(id, files[id], id in good);
        done := done + {id};
      }
      assert done == files.Keys by {
        forall id <- files ensures id in done {
          var j :| 0 <= j < |names| && names[j] == id;
        }
      }
    }

    /** One turn of the first loop. */
    method ReadFile(id: Id, text: Text, memories: bool)
      requires DatabaseOk(db)
      modifies this
      ensures db == old(db)[id := Apply(At(old(db), id), id, text, memories)] && DatabaseOk(db)
    {
      if !(id in db && db[id].fileHash == Some(text) && !db[id].archived) {
        ApplyFile(id, text, memories);
      }
    }

    /** The second loop. */
    method ArchiveMissing(seen: set<Id>)
      modifies this
      ensures db == map id <- old(db) :: if id in seen then old(db)[id] else Archive(old(db)[id])
    {
      var gone := set id | id in db && id !in seen && !db[id].archived;
      db := map id <- db :: if id in gone then db[id].(archived := true, fileHash := None) else db[id];
    }
  }

  // ---------- the first loop of a full sync ----------

  /** Some of the files are read. */
  function ReadSome(db: Database, done: set<Id>, files: map<Id, Text>, good: set<Id>): Database
    requires done <= files.Keys
  {
    map id | id in db.Keys + done :: if id in done then Apply(At(db, id), id, files[id], id in good) else db[id]
  }

  lemma ReadOneMore(db: Database, done: set<Id>, files: map<Id, Text>, good: set<Id>, id: Id)
    requires done <= files.Keys && id in files && id !in done
    ensures var part := ReadSome(db, done, files, good);
            At(part, id) == At(db, id) &&
            ReadSome(db, done + {id}, files, good) == part[id := Apply(At(db, id), id, files[id], id in good)]
  {
  }

  lemma ReadAll(db: Database, files: map<Id, Text>, good: set<Id>)
    ensures var read := ReadSome(db, files.Keys, files, good);
            FullSync(db, files, good) == map id <- read :: if id in files then read[id] else Archive(read[id])
  {
  }
}
