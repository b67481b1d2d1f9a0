/** Concrete commands whose ids are not derived: a replay that fails and work that dangles. */
module ReplayExamples {
  import opened Wrappers
  import opened IngestionModels
  import opened IngestionWork
  import opened WorkPayloadCodec
  import opened Deduplication
  import opened IngestionTables
  import opened AtomicCommit
  import opened CollectionCommits
  import opened CollectionReplay
  import Text

  const ENV := Env(x => x, x => x, x => true)

  function Filing(id: Id, externalId: string): RawDocument {
    RawDocument(id, "s", externalId, "u", "t", "t", "m", "h", Some("c"), None, None, "n", "1", [], SCHEMA_VERSION)
  }

  function Known(revision: Option<int>): Option<IngestionCheckpoint> {
    match revision
    case None => None
    case Some(r) => Some(IngestionCheckpoint("s", None, None, None, "1", r, SCHEMA_VERSION))
  }

  /** A batch of one document, with work for it or without. */
  function One(d: RawDocument, revision: Option<int>, work: seq<WorkItem>): CollectionCommitCommand {
    CollectionCommitCommand(
      WorkItem(CollectionPayload("s", "n", "1", Known(revision), 1), "w", "k", "t", SCHEMA_VERSION),
      CollectionBatch([d], "t", None, None, false), revision,
      IngestionCheckpoint("s", None, None, None, "1", 0, SCHEMA_VERSION), work)
  }

  const WORK := WorkItem(DocumentPayload("a"), "v", "j", "t", SCHEMA_VERSION)

  lemma CommitOne(db: Database, d: RawDocument, revision: Option<int>, work: seq<WorkItem>, after: Database,
                  table: WorkTable)
    requires ValidCommand(ENV, One(d, revision, work))
    requires StoreRecord(ENV, db, d).Ok? && StoreRecord(ENV, db, d).value.0 == after
    requires StoreWork(ENV, after.work, work).Ok? && StoreWork(ENV, after.work, work).value.tables == table
    requires Precheck(One(d, revision, work)).Ok?
    ensures StoreRecords(ENV, db, [d]).Ok? && StoreRecords(ENV, db, [d]).value.tables == after
    ensures RowAfter(after, One(d, revision, work)).Ok? ==>
              Commit(ENV, db, One(d, revision, work)).Ok?
              && Commit(ENV, db, One(d, revision, work)).value.0
              == Database(after.documents, after.claims, table,
                          after.checkpoints["s" := RowAfter(after, One(d, revision, work)).value])
  {
    hide StoreRecord, StoreWork, ValidCommand, Precheck;
    var records := [d];
    assert records[..0] == [];
    assert StoreRecords(ENV, db, []) == Ok(Progress(db, 0, 0));
  }

  /** The table with one document and its claims. */
  lemma StoreFirst(db: Database, d: RawDocument)
    requires Consistent(ENV, db) && d == Filing(d.id, d.externalId) && d.id != "" && d.externalId in {"x", "y"}
    requires d.id !in db.documents.rows && DocumentKeyOf(d) !in db.documents.index
    requires CollectionIdentity(ENV, "s", d.externalId).value !in db.claims.index
    ensures StoreRecord(ENV, db, d).Ok?
    ensures StoreRecord(ENV, db, d).value.0.documents == WithDocument(db.documents, d)
    ensures StoreRecord(ENV, db, d).value.0
         == db.(documents := WithDocument(db.documents, d), claims := StoreRecord(ENV, db, d).value.0.claims)
    ensures StoreRecord(ENV, db, d).value.0.claims.index
         == db.claims.index[CollectionIdentity(ENV, "s", d.externalId).value := d.id]
  {
    Identity(d.externalId);
    NewClaims(ENV, db.documents.rows, db.claims, Stored(d));
    StoredIdempotent(d);
  }

  lemma Identity(externalId: string)
    requires externalId in {"x", "y"}
    ensures CollectionIdentity(ENV, "s", externalId)
         == Some(IDENTITY_VERSION + NUL + ("s" + NUL + externalId))
  {
    Text.StripOfTrimmed(externalId);
  }

  const FIRST := One(Filing("b", "x"), None, [])
  const SECOND := One(Filing("a", "x"), Some(0), [WORK])
  const THIRD := One(Filing("a", "y"), Some(1), [])
  const REPLAY := One(Filing("a", "x"), Some(2), [WORK])

  function After(db: Database, c: CollectionCommitCommand): Database {
    match Commit(ENV, db, c)
    case Ok((after, _)) => after
    case Err(_) => db
  }

  /** A reachable state: the stored documents and the source's revision. */
  ghost predicate State(db: Database, documents: DocumentTable, claimed: set<string>, revision: int) {
    && Consistent(ENV, db) && db.documents == documents && db.claims.index.Keys == claimed
    && "s" in db.checkpoints
    && db.checkpoints["s"] == CheckpointRow(None, None, None, "n", "1", revision, SCHEMA_VERSION)
  }

  const TABLE := WithDocument(DocumentTable(map[], map[]), Filing("b", "x"))
  const LATER := WithDocument(TABLE, Filing("a", "y"))

  function Key(externalId: string): string {
    IDENTITY_VERSION + NUL + ("s" + NUL + externalId)
  }

  lemma FirstCommit()
    ensures Commit(ENV, EMPTY, FIRST).Ok? && State(After(EMPTY, FIRST), TABLE, {Key("x")}, 0)
    ensures After(EMPTY, FIRST).work == EMPTY.work
  {
    hide StoreRecord, Consistent, ValidCommand, CollectionIdentity, Commit, WithDocument, CommitStored, StoreWork,
      StoreRecords;
    var d := Filing("b", "x");
    NoWork(EMPTY.work);
    ExamplesValid();
    EmptyConsistent(ENV);
    Identity("x");
    StoreFirst(EMPTY, d);
    var stored := StoreRecord(ENV, EMPTY, d).value.0;
    CommitOne(EMPTY, d, None, [], stored, stored.work);
    CommitConsistent(EMPTY, FIRST);
  }

  lemma CommitConsistent(db: Database, c: CollectionCommitCommand)
    requires Consistent(ENV, db) && ValidCommand(ENV, c) && Commit(ENV, db, c).Ok?
    ensures Consistent(ENV, Commit(ENV, db, c).value.0)
  {
    hide Consistent, ValidCommand, Commit, Extends, CheckpointMoved;
    CommitStoresAll(ENV, db, c);
  }

  lemma SecondWork()
    ensures StoreWork(ENV, EMPTY.work, [WORK]).Ok?
    ensures StoreWork(ENV, EMPTY.work, [WORK]).value.tables == WithWork(EMPTY.work, WORK)
  {
    hide RowOf, ValidWork, InsertWork, WithWork, WorkKeyOf, WorkOk;
    ExamplesValid();
    NothingStored();
    NewWork(ENV, EMPTY.work, WORK);
    assert [WORK][..0] == [];
    assert StoreWork(ENV, EMPTY.work, []) == Ok(Progress(EMPTY.work, 0, 0));
  }

  lemma NothingStored()
    ensures WorkOk(ENV, EMPTY.work) && EMPTY.work.rows == map[] && EMPTY.work.index == map[]
  {
    EmptyConsistent(ENV);
  }

  lemma SecondCommit(db: Database)
    requires State(db, TABLE, {Key("x")}, 0) && db.work == EMPTY.work
    ensures Commit(ENV, db, SECOND).Ok? && State(After(db, SECOND), TABLE, {Key("x")}, 1)
    ensures "v" in After(db, SECOND).work.rows && "a" !in After(db, SECOND).documents.rows
  {
    hide StoreRecord, ValidCommand, Commit, ValidWork, CommitStored, Consistent, StoreWork, Bound, OwnsId, Precheck,
      RowAfter, StoreRecords;
    var d := Filing("a", "x");
    OneAccepted(db, d, 0, [WORK]);
    ExamplesValid();
    BoundAgain(TABLE);
    BoundRecord(ENV, db, d);
    SecondWork();
    CommitOne(db, d, Some(0), [WORK], db, WithWork(db.work, WORK));
    CommitConsistent(db, SECOND);
  }

  lemma BoundAgain(t: DocumentTable)
    requires t in {TABLE, LATER}
    ensures Bound(t, Filing("a", "x"))
    ensures OwnsId(t, Filing("a", "x")) <==> t == TABLE
    ensures "a" in t.rows <==> t == LATER
  {
    assert Stored(Filing("b", "x")) == Filing("b", "x");
    assert Stored(Filing("a", "x")) == Filing("a", "x");
    assert Stored(Filing("a", "y")) == Filing("a", "y");
    assert "a" !in TABLE.rows && "a" in LATER.rows;
  }

  lemma ThirdCommit(db: Database)
    requires State(db, TABLE, {Key("x")}, 1)
    ensures Commit(ENV, db, THIRD).Ok? && State(After(db, THIRD), LATER, {Key("x"), Key("y")}, 2)
  {
    hide StoreRecord, Consistent, ValidCommand, CollectionIdentity, Commit, CommitStored, StoreWork, StoreRecords,
      WithDocument, Key, Extends, Bound, One, Precheck, RowAfter, Filing;
    var d := Filing("a", "y");
    ExamplesValid();
    KeysDiffer();
    ThirdIsNew();
    StoreFirst(db, d);
    NoWork(StoreRecord(ENV, db, d).value.0.work);
    OneAccepted(StoreRecord(ENV, db, d).value.0, d, 1, []);
    var stored := StoreRecord(ENV, db, d).value.0;
    CommitOne(db, d, Some(1), [], stored, stored.work);
    CommitConsistent(db, THIRD);
  }

  lemma KeysDiffer()
    ensures Key("x") != Key("y") && CollectionIdentity(ENV, "s", "y") == Some(Key("y"))
  {
    hide CollectionIdentity;
    Identity("y");
    assert Key("x")[|Key("x")| - 1] != Key("y")[|Key("y")| - 1];
  }

  lemma ThirdIsNew()
    ensures "a" !in TABLE.rows && DocumentKeyOf(Filing("a", "y")) !in TABLE.index
    ensures LATER == WithDocument(TABLE, Filing("a", "y")) && THIRD == One(Filing("a", "y"), Some(1), [])
    ensures Filing("a", "y").id == "a" && Filing("a", "y").externalId == "y"
  {
  }

  lemma NoWork(t: WorkTable)
    ensures StoreWork(ENV, t, []) == Ok(Progress(t, 0, 0))
  {
  }

  /** A command for the stored revision passes the checks and raises it by one. */
  lemma OneAccepted(db: Database, d: RawDocument, revision: int, work: seq<WorkItem>)
    requires work in {[], [WORK]} && "s" in db.checkpoints
    requires db.checkpoints["s"] == CheckpointRow(None, None, None, "n", "1", revision, SCHEMA_VERSION)
    ensures Precheck(One(d, Some(revision), work)).Ok?
    ensures RowAfter(db, One(d, Some(revision), work))
         == Ok(CheckpointRow(None, None, None, "n", "1", revision + 1, SCHEMA_VERSION))
  {
  }

  lemma ReplayRefused(db: Database)
    requires State(db, LATER, {Key("x"), Key("y")}, 2)
    ensures Commit(ENV, db, REPLAY).Err?
  {
    hide StoreRecord, Consistent, StoreRecords;
    BoundAgain(LATER);
    BoundRecords(ENV, db, [Filing("a", "x")]);
  }

  /**
   * The source is collected three times: document "x" under id "b"; then again under id "a",
   * which resolves to the stored row; then "y" under id "a". Every commit succeeds, but the
   * work of the second one names no stored document until the third, and replaying the second
   * batch after the third is refused.
   */
  lemma RebindingBreaksReplay()
    ensures ValidCommand(ENV, FIRST) && ValidCommand(ENV, SECOND) && ValidCommand(ENV, THIRD)
    ensures ValidCommand(ENV, REPLAY) && REPLAY.batch == SECOND.batch
    ensures REPLAY.documentWorkItems == SECOND.documentWorkItems
    ensures var r0 := Commit(ENV, EMPTY, FIRST);
      && r0.Ok?
      && var r1 := Commit(ENV, r0.value.0, SECOND);
      && r1.Ok? && "v" in r1.value.0.work.rows && "a" !in r1.value.0.documents.rows
      && var r2 := Commit(ENV, r1.value.0, THIRD);
      && r2.Ok? && Commit(ENV, r2.value.0, REPLAY).Err?
  {
    hide Commit, ValidCommand, State;
    ExamplesValid();
    FirstCommit();
    var db0 := After(EMPTY, FIRST);
    SecondCommit(db0);
    var db1 := After(db0, SECOND);
    ThirdCommit(db1);
    ReplayRefused(After(db1, THIRD));
  }

  lemma ExamplesValid()
    ensures CollisionFree(ENV)
    ensures ValidCommand(ENV, FIRST) && ValidCommand(ENV, SECOND) && ValidCommand(ENV, THIRD)
    ensures ValidCommand(ENV, REPLAY) && ValidWork(ENV, WORK)
  {
    ExampleValid("b", "x", None, []);
    ExampleValid("a", "x", Some(0), [WORK]);
    ExampleValid("a", "y", Some(1), []);
    ExampleValid("a", "x", Some(2), [WORK]);
  }

  lemma ExampleValid(id: Id, externalId: string, revision: Option<int>, work: seq<WorkItem>)
    requires id != "" && externalId != "" && (revision.Some? ==> revision.value >= 0)
    requires work == [] || (work == [WORK] && id == "a")
    ensures ValidCommand(ENV, One(Filing(id, externalId), revision, work))
  {
    assert One(Filing(id, externalId), revision, work).batch.records[0] == Filing(id, externalId);
  }
}
