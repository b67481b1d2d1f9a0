/** What is stored of the filing manifests, in every run of the system. */
module ExactlyOnce {
  import opened Wrappers
  import opened IngestionModels
  import opened Deduplication
  import opened IngestionTables
  import opened AtomicCommit
  import opened CollectionCommits
  import opened CollectionRunner
  import opened CollectionReplay
  import opened ContentText
  import opened CheckpointHistory
  import opened IngestionSystem
  import opened FilingFixture
  import opened Sorting
  import opened TextSorting

  // ---- what every run keeps ----

  /** The position a source has reached: that of its stored cursor, 0 if there is none. */
  function Position(db: Database, sourceId: Id): nat {
    match GetCheckpoint(db, sourceId)
    case None => 0
    case Some(c) => match CursorPosition(c.cursor) case Ok(p) => p case Err(_) => 0
  }

  ghost predicate PositionsOk(world: World, db: Database) {
    forall s :: s in db.checkpoints && world.HasManifest(s) ==>
      CursorPosition(db.checkpoints[s].cursor).Ok? && Position(db, s) <= |Filings(world.FixtureOf(s))|
  }

  /** The command is what the connector and the runner make of the checkpoint it carries. */
  ghost predicate Prepared(world: World, sourceId: Id, c: CollectionCommitCommand) {
    && world.HasManifest(sourceId)
    && c.collectionWork.payload.CollectionPayload?
    && RunFixture(world, sourceId, Basis(c), c.collectionWork.payload.limit, c.batch.collectedAt,
                  c.collectionWork.createdAt) == Ok(c)
  }

  /** A coordinator that is ready with a manifest has a command of the connector. */
  ghost predicate PhaseOk(world: World, phase: Phase) {
    phase.Ready? && world.HasManifest(phase.sourceId) ==> Prepared(world, phase.sourceId, phase.command)
  }

  /** The row is manifest record `i` of the source, retrieved at the time the row says. */
  ghost predicate IsFiling(world: World, sourceId: Id, i: nat, row: RawDocument)
    requires world.HasManifest(sourceId) && i < |Filings(world.FixtureOf(sourceId))|
  {
    var fixture := world.FixtureOf(sourceId);
    var d := ToDocument(world.env, fixture.files, sourceId, Filings(fixture)[i], row.retrievedAt);
    d.Ok? && row == Stored(d.value)
  }

  function FilingKey(world: World, sourceId: Id, i: nat): (Id, string)
    requires world.HasManifest(sourceId) && i < |Filings(world.FixtureOf(sourceId))|
  {
    (sourceId, ExternalId(Filings(world.FixtureOf(sourceId))[i]))
  }

  /** Record `i` is stored under its own identity. */
  ghost predicate FilingStored(world: World, db: Database, sourceId: Id, i: nat)
    requires world.HasManifest(sourceId) && i < |Filings(world.FixtureOf(sourceId))|
  {
    var key := FilingKey(world, sourceId, i);
    && key in db.documents.index && db.documents.index[key] in db.documents.rows
    && IsFiling(world, sourceId, i, db.documents.rows[db.documents.index[key]])
  }

  /** Some record before the source's position has the key. */
  ghost predicate Reached(world: World, db: Database, key: (Id, string)) {
    && world.HasManifest(key.0)
    && exists i: nat :: i < Position(db, key.0) && i < |Filings(world.FixtureOf(key.0))| && FilingKey(world, key.0, i) == key
  }

  /** The stored documents of manifests are exactly the records before each source's position. */
  ghost predicate DocumentsExact(world: World, db: Database) {
    && (forall key :: key in db.documents.index && world.HasManifest(key.0) ==> Reached(world, db, key))
    && (forall s, i: nat :: world.HasManifest(s) && i < Position(db, s) && i < |Filings(world.FixtureOf(s))| ==>
          FilingStored(world, db, s, i))
  }

  ghost predicate FilingInv(world: World, s: System) {
    && PositionsOk(world, s.db)
    && (forall i :: i in s.phases ==> PhaseOk(world, s.phases[i]))
    && DocumentsExact(world, s.db)
    && (forall x :: world.HasManifest(x) ==> PagesTotal(s.log, x) == Position(s.db, x))
  }

  // ---- what a prepared command is ----

  /** The batch is the page of the manifest from `start` on, and the work is one item for each record. */
  ghost predicate IsPage(world: World, sourceId: Id, c: CollectionCommitCommand, start: nat) {
    && world.HasManifest(sourceId)
    && (c.batch.records != [] ==> start + |c.batch.records| <= |Filings(world.FixtureOf(sourceId))|)
    && (forall i :: 0 <= i < |c.batch.records| ==>
          Ok(c.batch.records[i])
          == ToDocument(world.env, world.FixtureOf(sourceId).files, sourceId,
                        Filings(world.FixtureOf(sourceId))[start + i], c.batch.collectedAt))
    && c.documentWorkItems == DocumentWorkItems(world.env, c.batch.records, c.collectionWork.createdAt)
    && CursorPosition(c.nextCheckpoint.cursor) == Ok(start + |c.batch.records|)
  }

  lemma PreparedCommand(world: World, sourceId: Id, c: CollectionCommitCommand)
    requires Prepared(world, sourceId, c)
    ensures world.HasManifest(sourceId) && c.nextCheckpoint.sourceId == sourceId
    ensures RunnerMade(world.env, CONNECTOR, sourceId, c)
    ensures ValidCommand(world.env, c) && DerivedCommand(world.env, c)
    ensures c.expectedRevision == if Basis(c).None? then None else Some(Basis(c).value.revision)
    ensures CursorPosition(CursorOf(Basis(c))).Ok?
    ensures IsPage(world, sourceId, c, CursorPosition(CursorOf(Basis(c))).value)
  {
    hide Collect, ToDocument, CursorPosition, ValidCommand, DocumentKey, SortBy, DerivedId, PrepareCommand, Basis,
      FirstOccurrences, IsDocumentWork, RunnerMade;
    var fixture, limit := world.FixtureOf(sourceId), c.collectionWork.payload.limit;
    MadeOfBatch(world.env, CONNECTOR, sourceId, Basis(c), limit,
                Collect(world.env, fixture, sourceId, Basis(c), limit, c.batch.collectedAt), c.collectionWork.createdAt);
    MadeParts(world.env, CONNECTOR, sourceId, c);
    MadeWork(world.env, CONNECTOR, sourceId, c);
    CollectedPage(world.env, fixture, sourceId, Basis(c), limit, c.batch.collectedAt);
    var start := CursorPosition(CursorOf(Basis(c))).value;
    forall d | d in c.batch.records
      ensures DerivedId(world.env, d)
    {
      var i :| 0 <= i < |c.batch.records| && c.batch.records[i] == d;
      FilingDerived(world.env, fixture.files, sourceId, Filings(fixture)[start + i], c.batch.collectedAt);
    }
  }

  // ---- a successful commit ----

  lemma PositionIsCursor(db: Database, sourceId: Id)
    requires CursorPosition(CursorOf(GetCheckpoint(db, sourceId))).Ok?
    ensures CursorPosition(CursorOf(GetCheckpoint(db, sourceId))) == Ok(Position(db, sourceId))
  {
  }

  lemma PositionMoves(db: Database, c: CollectionCommitCommand, after: Database, stored: IngestionCheckpoint)
    requires CheckpointMoved(db, c, after, stored) && CursorPosition(c.nextCheckpoint.cursor).Ok?
    ensures forall s :: s != c.nextCheckpoint.sourceId ==> Position(after, s) == Position(db, s)
    ensures Position(after, c.nextCheckpoint.sourceId) == CursorPosition(c.nextCheckpoint.cursor).value
  {
    hide CursorPosition, CheckpointMoved, GetCheckpoint;
    CheckpointAfter(db, c, after, stored);
  }

  /** The commit of a coordinator that is ready with a manifest succeeds. */
  ghost predicate PageLands(world: World, s: System, sourceId: Id, c: CollectionCommitCommand,
                            after: Database, r: CollectionCommitResult) {
    && FilingInv(world, s) && Prepared(world, sourceId, c)
    && Lands(world.env, world.Connectors(), s, sourceId, c, after, r)
  }

  lemma PagePrepared(world: World, s: System, sourceId: Id, c: CollectionCommitCommand,
                     after: Database, r: CollectionCommitResult)
    requires PageLands(world, s, sourceId, c, after, r)
    ensures Lands(world.env, world.Connectors(), s, sourceId, c, after, r)
    ensures world.HasManifest(sourceId) && CursorPosition(CursorOf(Basis(c))).Ok?
    ensures IsPage(world, sourceId, c, CursorPosition(CursorOf(Basis(c))).value)
  {
    hide Lands, Prepared, ValidCommand, CursorPosition, IsPage, FilingInv, RunnerMade, Basis, DerivedCommand;
    PreparedCommand(world, sourceId, c);
  }

  /** The page starts at the stored position, and the position moves past it. */
  lemma PageMoves(world: World, s: System, sourceId: Id, c: CollectionCommitCommand,
                  after: Database, r: CollectionCommitResult)
    requires PageLands(world, s, sourceId, c, after, r)
    ensures Lands(world.env, world.Connectors(), s, sourceId, c, after, r)
    ensures ValidCommand(world.env, c) && DerivedCommand(world.env, c)
    ensures c.nextCheckpoint.sourceId == sourceId && world.HasManifest(sourceId)
    ensures IsPage(world, sourceId, c, Position(s.db, sourceId))
    ensures CommitStored(world.env, s.db, c, after, r) && CheckpointMoved(s.db, c, after, r.checkpoint)
    ensures forall x :: Position(after, x) == Position(s.db, x) + if x == sourceId then |c.batch.records| else 0
  {
    hide PageLands, Lands, ValidCommand, DerivedCommand, IsPage, CursorPosition, CommitStored, CheckpointMoved,
      GetCheckpoint, Basis;
    PagePrepared(world, s, sourceId, c, after, r);
    LandsOnCurrent(world.env, world.Connectors(), s, sourceId, c, after, r);
    PositionIsCursor(s.db, sourceId);
    CursorOfPage(world, sourceId, c, Position(s.db, sourceId));
    PositionMoves(s.db, c, after, r.checkpoint);
  }

  lemma CursorOfPage(world: World, sourceId: Id, c: CollectionCommitCommand, start: nat)
    requires IsPage(world, sourceId, c, start)
    ensures CursorPosition(c.nextCheckpoint.cursor) == Ok(start + |c.batch.records|)
    ensures c.batch.records != [] ==> start + |c.batch.records| <= |Filings(world.FixtureOf(sourceId))|
  {
    hide SortBy, ToDocument, CursorPosition;
  }

  lemma PositionsStay(world: World, s: System, sourceId: Id, c: CollectionCommitCommand,
                      after: Database, r: CollectionCommitResult)
    requires PageLands(world, s, sourceId, c, after, r)
    ensures PositionsOk(world, after)
  {
    hide PageLands, Lands, ValidCommand, DerivedCommand, CursorPosition, CommitStored, IsPage, SortBy, CheckpointMoved,
      GetCheckpoint, Position;
    PageMoves(world, s, sourceId, c, after, r);
    CursorOfPage(world, sourceId, c, Position(s.db, sourceId));
    PositionsBefore(world, s, sourceId, c, after, r);
    CheckpointAfter(s.db, c, after, r.checkpoint);
    forall x | x in after.checkpoints && world.HasManifest(x)
      ensures CursorPosition(after.checkpoints[x].cursor).Ok? && Position(after, x) <= |Filings(world.FixtureOf(x))|
    {
      CursorOfRow(after, x);
      if x != sourceId {
        CursorOfRow(s.db, x);
      }
    }
  }

  lemma PositionsBefore(world: World, s: System, sourceId: Id, c: CollectionCommitCommand,
                        after: Database, r: CollectionCommitResult)
    requires PageLands(world, s, sourceId, c, after, r)
    ensures PositionsOk(world, s.db)
    ensures forall x :: world.HasManifest(x) ==> Position(s.db, x) <= |Filings(world.FixtureOf(x))|
  {
    hide Lands, PhaseOk, DocumentsExact, PagesTotal, CursorPosition, SortBy, Prepared;
    forall x | world.HasManifest(x)
      ensures Position(s.db, x) <= |Filings(world.FixtureOf(x))|
    {
      assert x !in s.db.checkpoints ==> Position(s.db, x) == 0;
    }
  }

  /** Keys of a page are those of its manifest records. */
  lemma PageKeys(world: World, sourceId: Id, c: CollectionCommitCommand, start: nat)
    requires IsPage(world, sourceId, c, start)
    ensures world.HasManifest(sourceId)
    ensures c.batch.records != [] ==> start + |c.batch.records| <= |Filings(world.FixtureOf(sourceId))|
    ensures forall i :: 0 <= i < |c.batch.records| ==>
              DocumentKeyOf(c.batch.records[i]) == FilingKey(world, sourceId, start + i)
              && c.batch.records[i].retrievedAt == c.batch.collectedAt
  {
    hide ToDocument, DocumentWorkItems, SortBy;
    forall i | 0 <= i < |c.batch.records|
      ensures DocumentKeyOf(c.batch.records[i]) == FilingKey(world, sourceId, start + i)
      ensures c.batch.records[i].retrievedAt == c.batch.collectedAt
    {
      var d := c.batch.records[i];
      FilingDerived(world.env, world.FixtureOf(sourceId).files, sourceId,
                     Filings(world.FixtureOf(sourceId))[start + i], c.batch.collectedAt);
    }
  }

  lemma ReachedStays(world: World, db: Database, after: Database, key: (Id, string))
    requires Reached(world, db, key) && Position(db, key.0) <= Position(after, key.0)
    ensures Reached(world, after, key)
  {
    hide Position;
    var i: nat :| i < Position(db, key.0) && i < |Filings(world.FixtureOf(key.0))| && FilingKey(world, key.0, i) == key;
  }

  lemma KeysReached(world: World, s: System, sourceId: Id, c: CollectionCommitCommand,
                    after: Database, r: CollectionCommitResult)
    requires PageLands(world, s, sourceId, c, after, r)
    ensures forall key :: key in after.documents.index && world.HasManifest(key.0) ==> Reached(world, after, key)
  {
    hide Lands, ValidCommand, DerivedCommand, Prepared, PhaseOk, Position, FilingKey, PagesTotal, CommitStored,
      CheckpointMoved, IsPage, DocumentKeyOf, Reached, PositionsOk, FilingStored;
    PageMoves(world, s, sourceId, c, after, r);
    CommitAdds(world.env, world.Connectors(), s, sourceId, c, after, r);
    var start := Position(s.db, sourceId);
    PageKeys(world, sourceId, c, start);
    forall key | key in after.documents.index && world.HasManifest(key.0)
      ensures Reached(world, after, key)
    {
      if key in s.db.documents.index {
        ReachedStays(world, s.db, after, key);
      } else {
        NewKeyReached(world, c, after, sourceId, start, key);
      }
    }
  }

  lemma NewKeyReached(world: World, c: CollectionCommitCommand, after: Database, sourceId: Id, start: nat,
                      key: (Id, string))
    requires world.HasManifest(sourceId) && start + |c.batch.records| <= Position(after, sourceId)
    requires start + |c.batch.records| <= |Filings(world.FixtureOf(sourceId))|
    requires forall j: nat :: j < |c.batch.records| ==>
               FilingKey(world, sourceId, start + j) == DocumentKeyOf(c.batch.records[j])
    requires exists j :: 0 <= j < |c.batch.records| && DocumentKeyOf(c.batch.records[j]) == key
    ensures Reached(world, after, key)
  {
    hide Position, FilingKey, SortBy, DocumentKeyOf, Reached;
    var j: nat :| j < |c.batch.records| && DocumentKeyOf(c.batch.records[j]) == key;
    KeyReached(world, after, sourceId, start + j, key);
  }

  lemma KeyReached(world: World, db: Database, sourceId: Id, i: nat, key: (Id, string))
    requires world.HasManifest(sourceId) && i < |Filings(world.FixtureOf(sourceId))| && i < Position(db, sourceId)
    requires FilingKey(world, sourceId, i) == key
    ensures Reached(world, db, key)
  {
    hide Position;
  }

  lemma FilingStays(world: World, db: Database, after: Database, sourceId: Id, i: nat)
    requires world.HasManifest(sourceId) && i < |Filings(world.FixtureOf(sourceId))|
    requires FilingStored(world, db, sourceId, i) && DocumentsExtend(db.documents, after.documents)
    ensures FilingStored(world, after, sourceId, i)
  {
    hide IsFiling;
  }

  lemma PageStored(world: World, sourceId: Id, c: CollectionCommitCommand, start: nat, after: Database, i: nat)
    requires IsPage(world, sourceId, c, start) && i < |c.batch.records|
    requires var d := c.batch.records[i];
      && d.id in after.documents.rows && after.documents.rows[d.id] == Stored(d)
      && DocumentKeyOf(d) in after.documents.index && after.documents.index[DocumentKeyOf(d)] == d.id
    ensures FilingStored(world, after, sourceId, start + i)
  {
    hide ToDocument, DocumentWorkItems, SortBy;
    PageKeys(world, sourceId, c, start);
  }

  lemma FilingsStored(world: World, s: System, sourceId: Id, c: CollectionCommitCommand,
                      after: Database, r: CollectionCommitResult)
    requires PageLands(world, s, sourceId, c, after, r)
    ensures forall x, i: nat :: world.HasManifest(x) && i < Position(after, x) && i < |Filings(world.FixtureOf(x))| ==>
              FilingStored(world, after, x, i)
  {
    hide Lands, ValidCommand, DerivedCommand, Prepared, PhaseOk, Position, FilingStored, PagesTotal, CommitStored,
      CheckpointMoved, IsPage, DocumentKeyOf, Reached, DocumentsExtend, PositionsOk;
    PageMoves(world, s, sourceId, c, after, r);
    CommitAdds(world.env, world.Connectors(), s, sourceId, c, after, r);
    var start := Position(s.db, sourceId);
    forall x, i: nat | world.HasManifest(x) && i < Position(after, x) && i < |Filings(world.FixtureOf(x))|
      ensures FilingStored(world, after, x, i)
    {
      if i < Position(s.db, x) {
        FilingStays(world, s.db, after, x, i);
      } else {
        assert c.batch.records[i - start] in c.batch.records;
        PageStored(world, sourceId, c, start, after, i - start);
      }
    }
  }

  // ---- a commit of a feed ----

  /** A commit of another connector's source leaves everything about the manifests as it was. */
  lemma OtherCommit(world: World, s: System, sourceId: Id, after: Database, log: seq<Committed>)
    requires FilingInv(world, s) && !world.HasManifest(sourceId) && OthersStay(s.db, sourceId, after)
    requires log != [] && log[..|log| - 1] == s.log && log[|log| - 1].sourceId == sourceId
    ensures PositionsOk(world, after) && DocumentsExact(world, after)
    ensures forall x :: world.HasManifest(x) ==> PagesTotal(log, x) == Position(after, x)
  {
    hide CursorPosition, SortBy, Reached, FilingStored, PhaseOk, GetCheckpoint, DocumentsExact;
    OtherPositions(world, s.db, sourceId, after);
    OtherDocuments(world, s.db, sourceId, after);
  }

  lemma OtherPositions(world: World, db: Database, sourceId: Id, after: Database)
    requires PositionsOk(world, db) && !world.HasManifest(sourceId) && OthersStay(db, sourceId, after)
    ensures PositionsOk(world, after)
    ensures forall x :: world.HasManifest(x) ==> Position(after, x) == Position(db, x)
  {
    hide CursorPosition, SortBy, GetCheckpoint, DocumentsExtend;
    forall x | x in after.checkpoints && world.HasManifest(x)
      ensures CursorPosition(after.checkpoints[x].cursor).Ok? && Position(after, x) <= |Filings(world.FixtureOf(x))|
    {
      CursorOfRow(after, x);
      CursorOfRow(db, x);
    }
  }

  lemma OtherDocuments(world: World, db: Database, sourceId: Id, after: Database)
    requires DocumentsExact(world, db) && !world.HasManifest(sourceId) && OthersStay(db, sourceId, after)
    requires forall x :: world.HasManifest(x) ==> Position(after, x) == Position(db, x)
    ensures DocumentsExact(world, after)
  {
    hide Position, SortBy, Reached, FilingStored, GetCheckpoint, DocumentsExtend;
    forall key | key in after.documents.index && world.HasManifest(key.0)
      ensures Reached(world, after, key)
    {
      ReachedStays(world, db, after, key);
    }
    forall x, i: nat | world.HasManifest(x) && i < Position(after, x) && i < |Filings(world.FixtureOf(x))|
      ensures FilingStored(world, after, x, i)
    {
      FilingStays(world, db, after, x, i);
    }
  }

  // ---- every step, every run ----

  lemma OwnCommit(world: World, s: System, sourceId: Id, c: CollectionCommitCommand,
                  after: Database, r: CollectionCommitResult)
    requires PageLands(world, s, sourceId, c, after, r)
    ensures PositionsOk(world, after) && DocumentsExact(world, after)
    ensures forall x :: world.HasManifest(x) ==>
              PagesTotal(s.log + [EntryFor(sourceId, c, r.checkpoint)], x) == Position(after, x)
  {
    hide Lands, Prepared, ValidCommand, DerivedCommand, IsPage, CommitStored, CheckpointMoved, PositionsOk, Position,
      Reached, FilingStored;
    PageMoves(world, s, sourceId, c, after, r);
    PositionsStay(world, s, sourceId, c, after, r);
    KeysReached(world, s, sourceId, c, after, r);
    FilingsStored(world, s, sourceId, c, after, r);
    var entry := EntryFor(sourceId, c, r.checkpoint);
    assert (s.log + [entry])[..|s.log|] == s.log;
  }

  lemma CommitKeepsFilings(world: World, s: State, i: nat)
    requires BaseInv(world, s) && FilingInv(world, s.base) && PhaseOf(s.base, i).Ready?
    ensures FilingInv(world, Storing(world, s, i, PhaseOf(s.base, i)).base)
  {
    hide BaseInv, Commit, Lands, Prepared, PositionsOk, DocumentsExact, Position, PagesTotal, OthersStay;
    var (sourceId, c) := (PhaseOf(s.base, i).sourceId, PhaseOf(s.base, i).command);
    if Commit(world.env, s.base.db, c).Ok? {
      var (after, r) := Commit(world.env, s.base.db, c).value;
      SoundLands(world, s, i, sourceId, c);
      if world.HasManifest(sourceId) {
        OwnCommit(world, s.base, sourceId, c, after, r);
      } else {
        CommitIsLocal(world.env, world.Connectors(), s.base, sourceId, c, after, r);
        var longer := s.base.log + [EntryFor(sourceId, c, r.checkpoint)];
        assert longer[..|s.base.log|] == s.base.log;
        OtherCommit(world, s.base, sourceId, after, longer);
      }
    }
  }

  lemma CollectedPhase(world: World, phase: Phase, limit: int, collectedAt: string, preparedAt: string)
    requires phase.Planned? && world.HasManifest(phase.sourceId)
    requires RunFixture(world, phase.sourceId, phase.checkpoint, limit, collectedAt, preparedAt).Ok?
    ensures Prepared(world, phase.sourceId,
                     RunFixture(world, phase.sourceId, phase.checkpoint, limit, collectedAt, preparedAt).value)
  {
    hide Collect, ValidCommand, CollectionKey, DocumentWorkItems, FirstOccurrences;
    CollectedPage(world.env, world.FixtureOf(phase.sourceId), phase.sourceId, phase.checkpoint, limit, collectedAt);
  }

  lemma CollectingKeepsFilings(world: World, s: State, i: nat, phase: Phase, limit: int, fetch: Fetch,
                               collectedAt: string, preparedAt: string)
    requires FilingInv(world, s.base) && phase.Planned? && phase.sourceId in world.sources
    ensures FilingInv(world, Collecting(world, s, i, phase, limit, fetch, collectedAt, preparedAt).base)
  {
    hide RunFixture, RunRss, Prepared, PositionsOk, DocumentsExact, Position, PagesTotal;
    if world.HasManifest(phase.sourceId)
       && RunFixture(world, phase.sourceId, phase.checkpoint, limit, collectedAt, preparedAt).Ok?
    {
      CollectedPhase(world, phase, limit, collectedAt, preparedAt);
    }
  }

  lemma StepKeepsInv(world: World, s: State, step: Step)
    requires BaseInv(world, s) && FilingInv(world, s.base)
    ensures FilingInv(world, Take(world, s, step).base)
  {
    hide BaseInv, Prepared, PositionsOk, DocumentsExact, Position, PagesTotal, Collecting, Storing, GetCheckpoint;
    match step
    case Publish(sourceId, feed) =>
    case Read(i, sourceId) =>
    case RunConnector(i, limit, fetch, collectedAt, preparedAt) =>
      var phase := PhaseOf(s.base, i);
      if phase.Planned? && phase.sourceId in world.sources {
        CollectingKeepsFilings(world, s, i, phase, limit, fetch, collectedAt, preparedAt);
      }
    case CommitBatch(i) =>
      if PhaseOf(s.base, i).Ready? {
        CommitKeepsFilings(world, s, i);
      }
    case Crash(i) =>
  }

  lemma {:induction false} RunsKeepInv(world: World, steps: seq<Step>)
    ensures BaseInv(world, Run(world, steps)) && FilingInv(world, Run(world, steps).base)
  {
    hide Take, BaseInv, FilingInv;
    RunsKeepBase(world, steps);
    if steps == [] {
      StartOk(world);
    } else {
      RunsKeepInv(world, steps[..|steps| - 1]);
      StepKeepsInv(world, Run(world, steps[..|steps| - 1]), steps[|steps| - 1]);
    }
  }

  lemma StartOk(world: World)
    ensures FilingInv(world, START)
  {
    hide CursorPosition, SortBy;
  }

  // ---- exactness ----

  /** The stored documents of manifests are exactly the records before their sources' positions. */
  ghost predicate FilingsExact(world: World, db: Database) {
    && (forall key :: key in db.documents.index && world.HasManifest(key.0) ==> Reached(world, db, key))
    && (forall x :: world.HasManifest(x) ==> Position(db, x) <= |Filings(world.FixtureOf(x))|)
    && (forall x, i: nat :: world.HasManifest(x) && i < Position(db, x) ==> FilingStored(world, db, x, i))
  }

  /**
   * Exactly-once ingestion, for every interleaving with any coordinators and sources of either
   * connector. At any time the stored documents of a manifest are exactly its records before the
   * source's stored cursor, as the manifest has them; the claims are exactly those of the
   * documents; each has its work item and every work item has its document.
   */
  lemma StoredExactlyOnce(world: World, steps: seq<Step>)
    ensures FilingsExact(world, Run(world, steps).base.db) && TablesMatch(world, Run(world, steps).base.db)
  {
    hide Run, BaseInv, TablesMatch, Reached, FilingStored, PhaseOk, Position;
    RunsKeepInv(world, steps);
    InvTables(world, Run(world, steps));
    PositionsWithin(world, Run(world, steps).base.db);
  }

  /** The row of each stored manifest record says what the record and its file say. */
  ghost predicate RowsTell(world: World, db: Database) {
    forall x, i: nat :: world.HasManifest(x) && i < Position(db, x) ==>
      i < |Filings(world.FixtureOf(x))| && RowTells(world, db.documents, x, Filings(world.FixtureOf(x))[i])
  }

  ghost predicate RowTells(world: World, t: DocumentTable, x: Id, item: FilingRecord)
    requires world.HasManifest(x)
  {
    && (x, ExternalId(item)) in t.index && t.index[(x, ExternalId(item))] in t.rows
    && Tells(world.env, world.FixtureOf(x).files, x, item, t.rows[t.index[(x, ExternalId(item))]])
  }

  /**
   * What exactly-once ingestion stores, field by field: for every record before a manifest's
   * cursor a row under its key with the record's own address, time, title, media type and
   * versions, its file's text as content and its path as reference, and the text's hash.
   */
  lemma StoredAsRecorded(world: World, steps: seq<Step>)
    ensures RowsTell(world, Run(world, steps).base.db)
  {
    hide Run, BaseInv, TablesMatch, Reached, PhaseOk, Position, Tells, SortBy, FilingStored, RowTells;
    StoredExactlyOnce(world, steps);
    var db := Run(world, steps).base.db;
    forall x, i: nat | world.HasManifest(x) && i < Position(db, x)
      ensures i < |Filings(world.FixtureOf(x))| && RowTells(world, db.documents, x, Filings(world.FixtureOf(x))[i])
    {
      assert FilingStored(world, db, x, i);
      FilingTold(world, db, x, i);
    }
  }

  lemma FilingTold(world: World, db: Database, x: Id, i: nat)
    requires world.HasManifest(x) && i < |Filings(world.FixtureOf(x))| && FilingStored(world, db, x, i)
    ensures RowTells(world, db.documents, x, Filings(world.FixtureOf(x))[i])
  {
    hide ToDocument, SortBy, Tells, Stored;
    var fixture, item := world.FixtureOf(x), Filings(world.FixtureOf(x))[i];
    var row := db.documents.rows[db.documents.index[FilingKey(world, x, i)]];
    DocumentTells(world.env, fixture.files, x, item, row.retrievedAt);
    StoredTells(world.env, fixture.files, x, item, ToDocument(world.env, fixture.files, x, item, row.retrievedAt).value);
  }

  /** Sorting the metadata keeps what it says. */
  lemma StoredTells(env: Env, files: map<string, ContentFile>, x: Id, item: FilingRecord, d: RawDocument)
    requires Tells(env, files, x, item, d)
    ensures Tells(env, files, x, item, Stored(d))
  {
    hide SortBy, ContentHash, RawDocumentId;
    var sorted := Stored(d).providerMetadata;
    SortKeepsElements(BY_PAIR, d.providerMetadata);
    forall p
      ensures p in sorted <==> p in d.providerMetadata
    {
      assert p in sorted <==> p in multiset(sorted);
      assert p in d.providerMetadata <==> p in multiset(d.providerMetadata);
    }
    assert |sorted| == |multiset(sorted)|;
  }

  lemma PositionsWithin(world: World, db: Database)
    requires PositionsOk(world, db)
    ensures forall x :: world.HasManifest(x) ==> Position(db, x) <= |Filings(world.FixtureOf(x))|
  {
    hide CursorPosition, SortBy;
    forall x | world.HasManifest(x)
      ensures Position(db, x) <= |Filings(world.FixtureOf(x))|
    {
      assert x !in db.checkpoints ==> Position(db, x) == 0;
    }
  }

  /** The pages of a manifest's successful commits add up to its position. */
  lemma PagesAddUp(world: World, steps: seq<Step>, sourceId: Id)
    requires world.HasManifest(sourceId)
    ensures PagesTotal(Run(world, steps).base.log, sourceId) == Position(Run(world, steps).base.db, sourceId)
  {
    hide Run, BaseInv, PositionsOk, DocumentsExact, PhaseOk, Position, PagesTotal;
    RunsKeepInv(world, steps);
  }

  function Remaining(world: World, db: Database, sourceId: Id): int {
    if world.HasManifest(sourceId) then |Filings(world.FixtureOf(sourceId))| - Position(db, sourceId) else 0
  }

  /** The position stays, or the log has a new entry and the position moves forward by its page. */
  ghost predicate MovesForward(s: System, t: System, sourceId: Id) {
    if t.log == s.log then Position(t.db, sourceId) == Position(s.db, sourceId)
    else
      && |t.log| == |s.log| + 1 && t.log[..|s.log|] == s.log
      && var entry := t.log[|s.log|];
         Position(t.db, sourceId) == Position(s.db, sourceId) + if entry.sourceId == sourceId then entry.size else 0
  }

  /**
   * Each step leaves a manifest's position where it was, or is a successful commit that moves it
   * forward by the committed page: what remains of the manifest never grows, and shrinks
   * strictly with every page that is not empty.
   */
  lemma StepsMoveForward(world: World, steps: seq<Step>, step: Step, sourceId: Id)
    requires world.HasManifest(sourceId)
    ensures 0 <= Remaining(world, Take(world, Run(world, steps), step).base.db, sourceId)
    ensures MovesForward(Run(world, steps).base, Take(world, Run(world, steps), step).base, sourceId)
  {
    hide Take, Run, BaseInv, PositionsOk, DocumentsExact, PhaseOk, Position;
    var s, t := Run(world, steps), Take(world, Run(world, steps), step);
    RunsKeepInv(world, steps);
    StepKeepsInv(world, s, step);
    LogAppends(world, s, step);
    PositionsWithin(world, t.base.db);
    if t.base.log != s.base.log {
      assert t.base.log[..|t.base.log| - 1] == s.base.log;
    }
  }

  lemma LogAppends(world: World, s: State, step: Step)
    ensures var (before, after) := (s.base.log, Take(world, s, step).base.log);
      after == before || (|after| == |before| + 1 && after[..|before|] == before)
  {
    hide Commit, RunSource, GetCheckpoint;
  }

  // ---- counting ----

  ghost predicate DistinctFilings(fixture: Fixture) {
    forall i, j :: 0 <= i < j < |Filings(fixture)| ==> ExternalId(Filings(fixture)[i]) != ExternalId(Filings(fixture)[j])
  }

  /** Keys of the first `n` records. */
  function FirstKeys(world: World, sourceId: Id, n: nat): set<(Id, string)>
    requires world.HasManifest(sourceId) && n <= |Filings(world.FixtureOf(sourceId))|
  {
    set i | 0 <= i < n :: FilingKey(world, sourceId, i)
  }

  lemma {:induction false} FirstKeysCount(world: World, sourceId: Id, n: nat)
    requires world.HasManifest(sourceId) && n <= |Filings(world.FixtureOf(sourceId))|
    requires DistinctFilings(world.FixtureOf(sourceId))
    ensures |FirstKeys(world, sourceId, n)| == n
  {
    if n > 0 {
      hide DistinctFilings, SortBy, FilingKey, FirstKeys;
      FirstKeysCount(world, sourceId, n - 1);
      FirstKeysStep(world, sourceId, n - 1);
      forall i: nat | i < n - 1
        ensures FilingKey(world, sourceId, i) != FilingKey(world, sourceId, n - 1)
      {
        KeysDiffer(world, sourceId, i, n - 1);
      }
    } else {
      hide SortBy, FilingKey;
      assert FirstKeys(world, sourceId, 0) == {};
    }
  }

  lemma FirstKeysStep(world: World, sourceId: Id, n: nat)
    requires world.HasManifest(sourceId) && n < |Filings(world.FixtureOf(sourceId))|
    ensures FirstKeys(world, sourceId, n + 1) == FirstKeys(world, sourceId, n) + {FilingKey(world, sourceId, n)}
    ensures forall key :: key in FirstKeys(world, sourceId, n) ==> exists i: nat :: i < n && FilingKey(world, sourceId, i) == key
  {
    hide SortBy, FilingKey;
  }

  lemma KeysDiffer(world: World, sourceId: Id, i: nat, j: nat)
    requires world.HasManifest(sourceId) && i < j < |Filings(world.FixtureOf(sourceId))|
    requires DistinctFilings(world.FixtureOf(sourceId))
    ensures FilingKey(world, sourceId, i) != FilingKey(world, sourceId, j)
  {
    hide SortBy;
  }

  /** With distinct external ids, a manifest has as many stored documents as its cursor says. */
  lemma StoredCount(world: World, steps: seq<Step>, sourceId: Id)
    requires world.HasManifest(sourceId) && DistinctFilings(world.FixtureOf(sourceId))
    ensures |SourceKeys(Run(world, steps).base.db, sourceId)| == Position(Run(world, steps).base.db, sourceId)
  {
    hide Run, FilingsExact, TablesMatch, Position;
    StoredExactlyOnce(world, steps);
    ExactCount(world, Run(world, steps).base.db, sourceId);
  }

  lemma ExactCount(world: World, db: Database, sourceId: Id)
    requires world.HasManifest(sourceId) && DistinctFilings(world.FixtureOf(sourceId)) && FilingsExact(world, db)
    ensures |SourceKeys(db, sourceId)| == Position(db, sourceId)
  {
    hide Position, FilingKey, SortBy, IsFiling;
    var p := Position(db, sourceId);
    FirstKeysCount(world, sourceId, p);
    forall i: nat | i < p
      ensures FilingKey(world, sourceId, i) in SourceKeys(db, sourceId)
    {
      assert FilingStored(world, db, sourceId, i);
      KeySource(world, sourceId, i);
    }
    forall key | key in SourceKeys(db, sourceId)
      ensures key in FirstKeys(world, sourceId, p)
    {
      assert Reached(world, db, key);
    }
    assert SourceKeys(db, sourceId) == FirstKeys(world, sourceId, p);
  }

  lemma KeySource(world: World, sourceId: Id, i: nat)
    requires world.HasManifest(sourceId) && i < |Filings(world.FixtureOf(sourceId))|
    ensures FilingKey(world, sourceId, i).0 == sourceId
  {
  }
}
