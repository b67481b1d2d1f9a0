/** From every reachable state, an undisturbed collection succeeds and the manifest can be drained. */
module IngestionProgress {
  import opened Wrappers
  import opened IngestionModels
  import opened Deduplication
  import opened IngestionTables
  import opened AtomicCommit
  import opened CollectionCommits
  import opened CollectionRunner
  import opened CollectionReplay
  import opened CheckpointHistory
  import opened FreshCommits
  import opened FilingFixture
  import opened IngestionSystem
  import opened ExactlyOnce
  import opened Sorting
  import opened Text

  // ---- the fixture ----

  /**
   * A source whose manifest can be ingested whole: it has an id without NUL, every record
   * becomes a document whenever it is read, and no two records share an external id up to
   * outer space.
   */
  ghost predicate Ingestible(env: Env, fixture: Fixture, sourceId: Id) {
    && sourceId != "" && NoNul(sourceId)
    && (forall i, now: string :: 0 <= i < |Filings(fixture)| && env.Timestamp(now) ==>
          ToDocument(env, fixture.files, sourceId, Filings(fixture)[i], now).Ok?)
    && (forall i, j :: 0 <= i < j < |Filings(fixture)| ==>
          Strip(ExternalId(Filings(fixture)[i])) != Strip(ExternalId(Filings(fixture)[j])))
  }

  lemma {:induction false} DocumentsReadable(env: Env, files: map<string, ContentFile>, sourceId: Id,
                                             items: seq<FilingRecord>, now: string)
    requires forall i :: 0 <= i < |items| ==> ToDocument(env, files, sourceId, items[i], now).Ok?
    ensures ToDocuments(env, files, sourceId, items, now).Ok?
  {
    hide ToDocument;
    if items != [] {
      DocumentsReadable(env, files, sourceId, items[..|items| - 1], now);
    }
  }

  /** A document with a derived id that gets the id of a manifest's record is of its source and external id. */
  lemma SameIdSameFiling(env: Env, row: RawDocument, fixture: Fixture, sourceId: Id, i: nat, now: string)
    requires CollisionFree(env) && NoNul(row.sourceId) && NoNul(sourceId) && DerivedId(env, row)
    requires i < |Filings(fixture)| && ToDocument(env, fixture.files, sourceId, Filings(fixture)[i], now).Ok?
    requires ToDocument(env, fixture.files, sourceId, Filings(fixture)[i], now).value.id == row.id
    ensures row.sourceId == sourceId && Strip(row.externalId) == Strip(ExternalId(Filings(fixture)[i]))
  {
    hide ToDocument, RawDocumentId, SortBy, Strip;
    FilingDerived(env, fixture.files, sourceId, Filings(fixture)[i], now);
    RawDocumentIdInjective(env, row.sourceId, row.externalId, sourceId, ExternalId(Filings(fixture)[i]));
  }

  lemma PageDistinct(env: Env, fixture: Fixture, sourceId: Id, start: nat, documents: seq<RawDocument>, now: string)
    requires CollisionFree(env) && Ingestible(env, fixture, sourceId)
    requires start + |documents| <= |Filings(fixture)| || documents == []
    requires forall i :: 0 <= i < |documents| ==>
               Ok(documents[i]) == ToDocument(env, fixture.files, sourceId, Filings(fixture)[start + i], now)
    ensures DistinctIds(documents)
  {
    hide ToDocument, SortBy;
    forall i, j | 0 <= i < j < |documents|
      ensures documents[i].id != documents[j].id
    {
      assert Ok(documents[i]) == ToDocument(env, fixture.files, sourceId, Filings(fixture)[start + i], now);
      assert Ok(documents[j]) == ToDocument(env, fixture.files, sourceId, Filings(fixture)[start + j], now);
      FilingDerived(env, fixture.files, sourceId, Filings(fixture)[start + i], now);
      if documents[i].id == documents[j].id {
        SameIdSameFiling(env, documents[i], fixture, sourceId, start + j, now);
      }
    }
  }

  lemma PageReadable(env: Env, fixture: Fixture, sourceId: Id, start: nat, limit: nat, now: string)
    requires CollisionFree(env) && Ingestible(env, fixture, sourceId) && env.Timestamp(now)
    ensures var documents := ToDocuments(env, fixture.files, sourceId, Slice(Filings(fixture), start, start + limit), now);
            documents.Ok? && DistinctIds(documents.value)
  {
    hide ToDocument, SortBy, ToDocuments, DistinctIds;
    var filings := Filings(fixture);
    var selected := Slice(filings, start, start + limit);
    assert forall i :: 0 <= i < |selected| ==> start + i < |filings| && selected[i] == filings[start + i];
    DocumentsReadable(env, fixture.files, sourceId, selected, now);
    DocumentsOfItems(env, fixture.files, sourceId, selected, now);
    PageDistinct(env, fixture, sourceId, start, ToDocuments(env, fixture.files, sourceId, selected, now).value, now);
  }

  lemma FixtureCollects(env: Env, fixture: Fixture, sourceId: Id, checkpoint: Option<IngestionCheckpoint>,
                        limit: int, now: string)
    requires CollisionFree(env) && Ingestible(env, fixture, sourceId) && limit > 0 && env.Timestamp(now)
    requires checkpoint.Some? ==>
               checkpoint.value.sourceId == sourceId && checkpoint.value.connectorVersion == CONNECTOR.version
    requires CursorPosition(CursorOf(checkpoint)).Ok?
    ensures Collect(env, fixture, sourceId, checkpoint, limit, now).Ok?
  {
    hide ToDocuments, SortBy, CursorPosition, CursorAt, DistinctIds, Ingestible;
    PageReadable(env, fixture, sourceId, CursorPosition(CursorOf(checkpoint)).value, limit, now);
  }

  // ---- one undisturbed collection ----

  /** The runner turns every collected page into a command that its constructor accepts. */
  lemma CommandAccepted(world: World, db: Database, sourceId: Id, limit: int, now: string)
    requires CollisionFree(world.env) && world.HasManifest(sourceId) && PositionsOk(world, db)
    requires Ingestible(world.env, world.FixtureOf(sourceId), sourceId)
    requires BindingsOk(world.env, world.Connectors(), db)
    requires limit > 0 && world.env.Timestamp(now)
    ensures var r := RunFixture(world, sourceId, GetCheckpoint(db, sourceId), limit, now, now);
      && r.Ok? && r.value.batch.collectedAt == now && Basis(r.value) == GetCheckpoint(db, sourceId)
      && Prepared(world, sourceId, r.value)
      && |r.value.batch.records| == PageSize(world.FixtureOf(sourceId), Position(db, sourceId), limit)
  {
    hide Collect, CursorPosition, SortBy, PrepareCollectionWork, CommandOf, ValidCommand, PositionsOk, Ingestible,
      BoundDocument;
    var checkpoint := GetCheckpoint(db, sourceId);
    var fixture := world.FixtureOf(sourceId);
    CursorReadable(world, db, sourceId);
    SourceNamed(world.env, fixture, sourceId);
    FixtureCollects(world.env, fixture, sourceId, checkpoint, limit, now);
    CollectedPage(world.env, fixture, sourceId, checkpoint, limit, now);
    PageBound(world.env, fixture, sourceId, checkpoint, limit, now);
    var batch := Collect(world.env, fixture, sourceId, checkpoint, limit, now).value;
    CommandValid(world.env, CONNECTOR, sourceId, checkpoint, limit, batch, now);
    CommandParts(world.env, sourceId, checkpoint, limit, batch, now);
  }

  lemma CommandParts(env: Env, sourceId: Id, checkpoint: Option<IngestionCheckpoint>, limit: int,
                     batch: CollectionBatch, now: string)
    requires PrepareCollectionWork(env, sourceId, CONNECTOR, checkpoint, limit, now).Ok?
    ensures var work := PrepareCollectionWork(env, sourceId, CONNECTOR, checkpoint, limit, now).value;
      var c := CommandOf(env, sourceId, CONNECTOR, checkpoint, work, batch, now);
      && c.batch == batch && c.collectionWork == work && work.createdAt == now
      && work.payload.CollectionPayload?
      && work.payload.checkpoint == checkpoint && work.payload.limit == limit
  {
  }

  lemma SourceNamed(env: Env, fixture: Fixture, sourceId: Id)
    requires Ingestible(env, fixture, sourceId)
    ensures sourceId != "" && NoNul(sourceId)
  {
  }

  lemma CursorReadable(world: World, db: Database, sourceId: Id)
    requires PositionsOk(world, db) && world.HasManifest(sourceId)
    ensures CursorPosition(CursorOf(GetCheckpoint(db, sourceId))) == Ok(Position(db, sourceId))
  {
  }

  lemma PageBound(env: Env, fixture: Fixture, sourceId: Id, checkpoint: Option<IngestionCheckpoint>,
                  limit: int, now: string)
    requires Collect(env, fixture, sourceId, checkpoint, limit, now).Ok?
    ensures forall d :: d in Collect(env, fixture, sourceId, checkpoint, limit, now).value.records ==>
              BoundDocument(env, CONNECTOR, sourceId, d)
  {
    hide SortBy, CursorPosition, ValidDocument, Filings, Collect, ToDocument;
    CollectedPage(env, fixture, sourceId, checkpoint, limit, now);
    var batch := Collect(env, fixture, sourceId, checkpoint, limit, now).value;
    var start := CursorPosition(CursorOf(checkpoint)).value;
    forall d | d in batch.records
      ensures BoundDocument(env, CONNECTOR, sourceId, d)
    {
      var i :| 0 <= i < |batch.records| && batch.records[i] == d;
      DocumentBinding(env, fixture.files, sourceId, Filings(fixture)[start + i], now);
    }
  }

  lemma DocumentBinding(env: Env, files: map<string, ContentFile>, sourceId: Id, item: FilingRecord, now: string)
    requires ToDocument(env, files, sourceId, item, now).Ok?
    ensures BoundDocument(env, CONNECTOR, sourceId, ToDocument(env, files, sourceId, item, now).value)
  {
  }

  // ---- its commit ----

  /** The records at and after a manifest's position are not stored yet, under no source. */
  lemma NotStoredYet(world: World, db: Database, sourceId: Id, i: nat, now: string)
    requires NamedWorld(world) && world.HasManifest(sourceId) && DocumentsExact(world, db)
    requires Ingestible(world.env, world.FixtureOf(sourceId), sourceId)
    requires DocumentsOk(db.documents) && DerivedDocuments(world.env, db.documents)
    requires SourcesOk(world.Connectors(), db.documents)
    requires Position(db, sourceId) <= i < |Filings(world.FixtureOf(sourceId))|
    requires ToDocument(world.env, world.FixtureOf(sourceId).files, sourceId, Filings(world.FixtureOf(sourceId))[i], now).Ok?
    ensures ToDocument(world.env, world.FixtureOf(sourceId).files, sourceId, Filings(world.FixtureOf(sourceId))[i], now)
            .value.id !in db.documents.rows
  {
    hide ToDocument, SortBy, Position, Ingestible, DerivedId, Stored, FilingStored, Strip;
    var fixture := world.FixtureOf(sourceId);
    var d := ToDocument(world.env, fixture.files, sourceId, Filings(fixture)[i], now).value;
    if d.id in db.documents.rows {
      var row := db.documents.rows[d.id];
      SameIdSameFiling(world.env, row, fixture, sourceId, i, now);
      var key := DocumentKeyOf(row);
      assert key in db.documents.index;
      var j: nat :| j < Position(db, key.0) && j < |Filings(world.FixtureOf(key.0))| && FilingKey(world, key.0, j) == key;
      DifferentFilings(world.env, fixture, sourceId, j, i);
    }
  }

  lemma DifferentFilings(env: Env, fixture: Fixture, sourceId: Id, i: nat, j: nat)
    requires Ingestible(env, fixture, sourceId) && i < j < |Filings(fixture)|
    ensures Strip(ExternalId(Filings(fixture)[i])) != Strip(ExternalId(Filings(fixture)[j]))
  {
    hide SortBy, Strip;
  }

  lemma PageNotStored(world: World, db: Database, sourceId: Id, c: CollectionCommitCommand)
    requires NamedWorld(world) && world.HasManifest(sourceId) && DocumentsExact(world, db)
    requires Ingestible(world.env, world.FixtureOf(sourceId), sourceId)
    requires DocumentsOk(db.documents) && DerivedDocuments(world.env, db.documents)
    requires SourcesOk(world.Connectors(), db.documents)
    requires IsPage(world, sourceId, c, Position(db, sourceId))
    ensures forall d :: d in c.batch.records ==> d.id !in db.documents.rows
  {
    hide ToDocument, SortBy, Position, DocumentWorkItems, NamedWorld, DocumentsExact, DocumentsOk, DerivedDocuments,
      Ingestible, SourcesOk;
    var start := Position(db, sourceId);
    forall d | d in c.batch.records
      ensures d.id !in db.documents.rows
    {
      var i :| 0 <= i < |c.batch.records| && c.batch.records[i] == d;
      NotStoredYet(world, db, sourceId, start + i, c.batch.collectedAt);
    }
  }

  lemma FreshPageCommits(world: World, s: State, sourceId: Id, c: CollectionCommitCommand)
    requires NamedWorld(world) && BaseInv(world, s) && FilingInv(world, s.base) && Prepared(world, sourceId, c)
    requires Ingestible(world.env, world.FixtureOf(sourceId), sourceId)
    requires Basis(c) == GetCheckpoint(s.base.db, sourceId)
    ensures Commit(world.env, s.base.db, c).Ok?
    ensures Commit(world.env, s.base.db, c).value.1.documentsInserted == |c.batch.records|
    ensures Commit(world.env, s.base.db, c).value.1.workCreated == |c.batch.records|
  {
    hide Commit, Consistent, Derived, ValidCommand, DerivedCommand, PhaseOk, DocumentsExact, WorkExact, LogOk, PhaseSound,
      IsPage, Prepared, BindingsOk, SourcesOk, Position, CursorPosition, GetCheckpoint, RunnerMade, Basis, HistoryOk,
      Ingestible, PositionsOk, PagesTotal;
    PreparedCommand(world, sourceId, c);
    CheckpointAccepted(world.env, world.Connectors(), s.base.db, sourceId, c);
    CursorReadable(world, s.base.db, sourceId);
    DocumentsPart(world.env, s.base.db);
    DerivedPart(world.env, s.base.db);
    PageNotStored(world, s.base.db, sourceId, c);
    FreshCommit(world.env, s.base.db, c);
    PageItems(world, sourceId, c, Position(s.base.db, sourceId));
  }

  lemma PageItems(world: World, sourceId: Id, c: CollectionCommitCommand, start: nat)
    requires IsPage(world, sourceId, c, start)
    ensures |c.documentWorkItems| == |c.batch.records|
  {
  }

  /** The state in front of the commit. */
  lemma CollectionSteps(world: World, s: State, i: nat, sourceId: Id, limit: int, fetch: Fetch, now: string,
                        c: CollectionCommitCommand)
    requires world.HasManifest(sourceId) && PhaseOf(s.base, i) == Idle
    requires RunFixture(world, sourceId, GetCheckpoint(s.base.db, sourceId), limit, now, now) == Ok(c)
    ensures var t := Take(world, Take(world, s, Read(i, sourceId)), RunConnector(i, limit, fetch, now, now));
      && t.base.db == s.base.db && t.base.log == s.base.log && t.feeds == s.feeds
      && (forall j :: PhaseOf(t.base, j) == if j == i then Ready(sourceId, c) else PhaseOf(s.base, j))
      && Take(world, t, CommitBatch(i)).base == Committing(world.env, t.base, i, sourceId, c)
      && Take(world, t, CommitBatch(i)).feeds == s.feeds
  {
    hide RunFixture, RunRss, GetCheckpoint, Committing, Commit;
    ReadAndRun(world, s, i, sourceId, limit, fetch, now);
  }

  /** The next page of the manifest was stored with its work, and the source stands behind it. */
  ghost predicate PageIngested(world: World, s: System, t: System, sourceId: Id, limit: int)
    requires world.HasManifest(sourceId)
  {
    var size := PageSize(world.FixtureOf(sourceId), Position(s.db, sourceId), limit);
    && |t.log| == |s.log| + 1 && t.log[|s.log|].sourceId == sourceId && t.log[|s.log|].size == size
    && Position(t.db, sourceId) == Position(s.db, sourceId) + size
    && |t.db.documents.rows| == |s.db.documents.rows| + size
    && |t.db.work.rows| == |s.db.work.rows| + size
  }

  /**
   * Whatever the other coordinators and the feeds have done so far, a manifest's collection that
   * runs undisturbed stores the next page of new documents with its work, and advances the source
   * past it.
   */
  lemma UndisturbedCollection(world: World, steps: seq<Step>, i: nat, sourceId: Id, limit: int, fetch: Fetch, now: string)
    requires NamedWorld(world) && world.HasManifest(sourceId) && limit > 0 && world.env.Timestamp(now)
    requires Ingestible(world.env, world.FixtureOf(sourceId), sourceId)
    requires PhaseOf(Run(world, steps).base, i) == Idle
    ensures Run(world, steps + Collection(i, sourceId, limit, fetch, now)).feeds == Run(world, steps).feeds
    ensures forall j :: PhaseOf(Run(world, steps + Collection(i, sourceId, limit, fetch, now)).base, j)
                        == PhaseOf(Run(world, steps).base, j)
    ensures PageIngested(world, Run(world, steps).base, Run(world, steps + Collection(i, sourceId, limit, fetch, now)).base,
                         sourceId, limit)
  {
    hide Run, Take, RunFixture, Prepared, NamedWorld, Ingestible, Commit, BaseInv, FilingInv, Basis, GetCheckpoint,
      PageIngested;
    var s := Run(world, steps);
    RunsKeepInv(world, steps);
    CurrentCommand(world, s, sourceId, limit, now);
    var c := RunFixture(world, sourceId, GetCheckpoint(s.base.db, sourceId), limit, now, now).value;
    CollectionSteps(world, s, i, sourceId, limit, fetch, now, c);
    ThreeSteps(world, steps, Read(i, sourceId), RunConnector(i, limit, fetch, now, now), CommitBatch(i));
    FreshPageCommits(world, s, sourceId, c);
    var t := Take(world, Take(world, s, Read(i, sourceId)), RunConnector(i, limit, fetch, now, now));
    PageIsIngested(world, s, sourceId, c, limit, Committing(world.env, t.base, i, sourceId, c));
  }

  lemma CurrentCommand(world: World, s: State, sourceId: Id, limit: int, now: string)
    requires NamedWorld(world) && world.HasManifest(sourceId) && limit > 0 && world.env.Timestamp(now)
    requires Ingestible(world.env, world.FixtureOf(sourceId), sourceId)
    requires BaseInv(world, s) && FilingInv(world, s.base)
    ensures var r := RunFixture(world, sourceId, GetCheckpoint(s.base.db, sourceId), limit, now, now);
      && r.Ok? && Basis(r.value) == GetCheckpoint(s.base.db, sourceId) && Prepared(world, sourceId, r.value)
      && |r.value.batch.records| == PageSize(world.FixtureOf(sourceId), Position(s.base.db, sourceId), limit)
  {
    hide Ingestible, RunFixture, Prepared, PositionsOk, DocumentsExact, PhaseOk, PhaseSound, Position, Consistent, Derived,
      WorkExact, LogOk, BindingsOk, SourcesOk, HistoryOk, Basis, GetCheckpoint, PagesTotal, CollisionFree;
    CommandAccepted(world, s.base.db, sourceId, limit, now);
  }

  lemma PageIsIngested(world: World, s: State, sourceId: Id, c: CollectionCommitCommand, limit: int, t: System)
    requires BaseInv(world, s) && FilingInv(world, s.base) && Prepared(world, sourceId, c)
    requires Basis(c) == GetCheckpoint(s.base.db, sourceId) && Commit(world.env, s.base.db, c).Ok?
    requires var (after, r) := Commit(world.env, s.base.db, c).value;
      && t.db == after && t.log == s.base.log + [EntryFor(sourceId, c, r.checkpoint)]
      && r.documentsInserted == |c.batch.records| && r.workCreated == |c.batch.records|
    requires world.HasManifest(sourceId)
    requires |c.batch.records| == PageSize(world.FixtureOf(sourceId), Position(s.base.db, sourceId), limit)
    ensures PageIngested(world, s.base, t, sourceId, limit)
  {
    hide BaseInv, FilingInv, Commit, Prepared, ValidCommand, DerivedCommand, IsPage, CheckpointMoved, GetCheckpoint,
      Extends, Bound, WorkBound, Consistent, Lands, Position, Basis, PageSize;
    var (after, r) := Commit(world.env, s.base.db, c).value;
    ReadyToCommit(world, s, sourceId, c);
    PageMoves(world, s.base, sourceId, c, after, r);
    PageItems(world, sourceId, c, Position(s.base.db, sourceId));
  }

  lemma ReadyToCommit(world: World, s: State, sourceId: Id, c: CollectionCommitCommand)
    requires BaseInv(world, s) && FilingInv(world, s.base) && Prepared(world, sourceId, c)
    requires Basis(c) == GetCheckpoint(s.base.db, sourceId) && Commit(world.env, s.base.db, c).Ok?
    ensures PageLands(world, s.base, sourceId, c, Commit(world.env, s.base.db, c).value.0,
                      Commit(world.env, s.base.db, c).value.1)
  {
    hide Commit, Prepared, FilingInv, HistoryInv, PhaseSound, RunnerMade, DerivedId, IsDocumentWork, Basis, GetCheckpoint,
      WasCommitted, ValidCommand, CursorPosition, IsPage;
    PreparedCommand(world, sourceId, c);
    ReadSound(world, s, sourceId);
    var (after, r) := Commit(world.env, s.base.db, c).value;
    assert Commit(world.env, s.base.db, c) == Ok((after, r));
    CurrentCommitted(world, s, sourceId);
  }

  /** Pages of at most `limit` records that what remains takes. */
  function PagesLeft(remaining: int, limit: int): nat
    requires limit > 0
  {
    if remaining <= limit then (if remaining <= 0 then 0 else 1) else 1 + PagesLeft(remaining - limit, limit)
  }

  /** Every reachable state can be driven to the end of a manifest, page by page. */
  lemma {:induction false} ManifestCanBeDrained(world: World, steps: seq<Step>, i: nat, sourceId: Id, limit: int,
                                               fetch: Fetch, now: string)
    returns (more: seq<Step>)
    requires NamedWorld(world) && world.HasManifest(sourceId) && limit > 0 && world.env.Timestamp(now)
    requires Ingestible(world.env, world.FixtureOf(sourceId), sourceId)
    requires PhaseOf(Run(world, steps).base, i) == Idle
    ensures Position(Run(world, steps + more).base.db, sourceId) == |Filings(world.FixtureOf(sourceId))|
    ensures |more| == 3 * PagesLeft(Remaining(world, Run(world, steps).base.db, sourceId), limit)
    decreases Remaining(world, Run(world, steps).base.db, sourceId)
  {
    hide Run, Take, NamedWorld, Ingestible, BaseInv, Position, SortBy, FilingInv;
    RunsKeepInv(world, steps);
    PositionWithin(world, Run(world, steps), sourceId);
    if Position(Run(world, steps).base.db, sourceId) == |Filings(world.FixtureOf(sourceId))| {
      more := [];
      assert steps + more == steps;
    } else {
      var page := Collection(i, sourceId, limit, fetch, now);
      UndisturbedCollection(world, steps, i, sourceId, limit, fetch, now);
      var rest := ManifestCanBeDrained(world, steps + page, i, sourceId, limit, fetch, now);
      more := page + rest;
      assert steps + more == steps + page + rest;
    }
  }

  lemma PositionWithin(world: World, s: State, sourceId: Id)
    requires FilingInv(world, s.base) && world.HasManifest(sourceId)
    ensures Position(s.base.db, sourceId) <= |Filings(world.FixtureOf(sourceId))|
  {
    hide PositionsOk, DocumentsExact, PhaseOk, Position, PagesTotal, SortBy;
    PositionsWithin(world, s.base.db);
  }
}
