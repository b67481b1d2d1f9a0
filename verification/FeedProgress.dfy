/** When the collection of a feed succeeds, in every reachable state, and how far a feed can be delivered. */
module FeedProgress {
  import opened Wrappers
  import opened IngestionModels
  import opened Deduplication
  import opened IngestionTables
  import opened AtomicCommit
  import opened CollectionCommits
  import opened CollectionRunner
  import opened CollectionReplay
  import opened CheckpointHistory
  import opened FreshCommits
  import opened IngestionSystem
  import opened RssCursor
  import opened RssConnector
  import opened FeedDraining
  import opened FeedDocuments
  import opened FeedIngestion
  import opened FeedLosses
  import opened GrowingFeeds
  import opened Sorting
  import opened Text
  import opened TextOrder
  import WorkPayloadCodec

  // ---- what can go wrong with a page ----

  /** Every entry becomes a document. */
  ghost predicate Readable(env: Env, sourceId: Id, page: seq<FeedEntry>, now: string) {
    forall i :: 0 <= i < |page| ==> ToDocument(env, sourceId, page[i], now).Ok?
  }

  /** No external id is repeated, up to outer space. */
  predicate NoRepeats(page: seq<FeedEntry>) {
    forall i, j :: 0 <= i < j < |page| ==> Strip(page[i].externalId) != Strip(page[j].externalId)
  }

  /** No external id is that of a stored document of the source, up to outer space. */
  ghost predicate NoneStored(t: DocumentTable, sourceId: Id, page: seq<FeedEntry>) {
    forall id, i :: id in t.rows && t.rows[id].sourceId == sourceId && 0 <= i < |page| ==>
      Strip(t.rows[id].externalId) != Strip(page[i].externalId)
  }

  /** The whole feed arrives. */
  const FETCHED := Fetch(200, None, None, None)

  /** The feed is unchanged, or arrives and can be parsed. */
  predicate Fetched(fetch: Fetch) {
    fetch.status == 304 || (200 <= fetch.status < 300 && fetch.unparsed.None?)
  }

  lemma {:induction false} ReadableIff(env: Env, sourceId: Id, page: seq<FeedEntry>, now: string)
    ensures ToDocuments(env, sourceId, page, now).Ok? <==> Readable(env, sourceId, page, now)
  {
    hide ToDocument;
    if page != [] {
      var last := |page| - 1;
      ReadableIff(env, sourceId, page[..last], now);
      assert forall i :: 0 <= i < last ==> page[..last][i] == page[i];
    }
  }

  lemma DistinctIff(env: Env, sourceId: Id, page: seq<FeedEntry>, now: string)
    requires CollisionFree(env) && NoNul(sourceId) && ToDocuments(env, sourceId, page, now).Ok?
    ensures DistinctIds(ToDocuments(env, sourceId, page, now).value) <==> NoRepeats(page)
  {
    hide ToDocuments, ToDocument, Strip, RawDocumentId, CollisionFree;
    MappedEntries(env, sourceId, page, now);
    var records := ToDocuments(env, sourceId, page, now).value;
    forall i, j | 0 <= i < |page| && 0 <= j < |page|
      ensures records[i].id == records[j].id <==> Strip(page[i].externalId) == Strip(page[j].externalId)
    {
      DocumentOfEntry(env, sourceId, page[i], now);
      ExternalIdKept(records[i]);
      SameIdIff(env, records[i], sourceId, page[j], now);
    }
  }

  /** A document with a derived id has the id of an entry exactly when it has its source and external id. */
  lemma SameIdIff(env: Env, row: RawDocument, sourceId: Id, e: FeedEntry, now: string)
    requires CollisionFree(env) && NoNul(row.sourceId) && NoNul(sourceId)
    requires DerivedId(env, row) && ToDocument(env, sourceId, e, now).Ok?
    ensures row.id == ToDocument(env, sourceId, e, now).value.id
       <==> row.sourceId == sourceId && Strip(row.externalId) == Strip(e.externalId)
  {
    hide ToDocument, RawDocumentId, CollisionFree, Strip;
    IdOfEntry(env, sourceId, e, now);
    RawDocumentIdInjective(env, row.sourceId, row.externalId, sourceId, e.externalId);
  }

  // ---- the stored rows ----

  /** A stored row of a feed is the document of an entry that was delivered. */
  lemma RowIsEntry(world: World, s: State, id: Id)
    requires BaseInv(world, s) && FeedInv(world, s) && id in s.base.db.documents.rows
    requires world.HasFeed(s.base.db.documents.rows[id].sourceId)
    ensures var row := s.base.db.documents.rows[id];
      && row.id == id && IsEntry(world.env, row.sourceId, EntryOf(row), row)
      && EntryOf(row) in DeliveredOf(s, row.sourceId)
  {
    hide BaseInv, PhaseOk, DeliveredIn, DecodeCursor, GetCheckpoint, EntryOf, IsEntry, Ascending, PagesTotal, EntriesExact,
      DocumentsOk, Consistent, Derived, SourcesOk;
    InvDocuments(world, s);
    var sourceId := s.base.db.documents.rows[id].sourceId;
    assert SourceOk(world.env, s.base.db, s.base.log, s.committed, sourceId);
    RowOfEntry(world.env, s.base.db.documents, sourceId, DeliveredOf(s, sourceId), id);
  }

  lemma RowOfEntry(env: Env, t: DocumentTable, sourceId: Id, entries: seq<FeedEntry>, id: Id)
    requires DocumentsOk(t) && EntriesExact(env, t, sourceId, entries)
    requires id in t.rows && t.rows[id].sourceId == sourceId
    ensures t.rows[id].id == id && IsEntry(env, sourceId, EntryOf(t.rows[id]), t.rows[id])
    ensures EntryOf(t.rows[id]) in entries
  {
    hide EntryOf, IsEntry;
    var key := DocumentKeyOf(t.rows[id]);
    assert key in t.index && t.index[key] == id;
    var e :| e in entries && e.externalId == key.1;
    assert EntryStored(env, t, sourceId, e);
    RowTellsEntry(env, sourceId, e, t.rows[id]);
  }

  lemma RowTellsEntry(env: Env, sourceId: Id, e: FeedEntry, row: RawDocument)
    requires IsEntry(env, sourceId, e, row)
    ensures EntryOf(row) == e && row.sourceId == sourceId
  {
    hide ToDocument, EntryOf;
    DocumentOfEntry(env, sourceId, e, row.retrievedAt);
  }

  lemma ExternalIdKept(d: RawDocument)
    ensures EntryOf(d).externalId == d.externalId && EntryOf(d).publishedAt == d.publishedAt
  {
  }

  lemma RowDerived(world: World, s: State, id: Id)
    requires BaseInv(world, s) && id in s.base.db.documents.rows
    ensures var row := s.base.db.documents.rows[id];
            row.id == id && DerivedId(world.env, row) && row.sourceId in world.sources
  {
    hide BaseInv, DerivedId, Consistent;
    InvDocuments(world, s);
  }

  lemma NoneStoredIff(world: World, s: State, sourceId: Id, page: seq<FeedEntry>, now: string)
    requires BaseInv(world, s) && NamedWorld(world) && sourceId in world.sources
    requires ToDocuments(world.env, sourceId, page, now).Ok?
    ensures NoneStored(s.base.db.documents, sourceId, page)
       <==> forall d :: d in ToDocuments(world.env, sourceId, page, now).value ==> d.id !in s.base.db.documents.rows
  {
    hide BaseInv, ToDocuments, ToDocument, Strip, CollisionFree, DerivedId;
    MappedEntries(world.env, sourceId, page, now);
    var records := ToDocuments(world.env, sourceId, page, now).value;
    var rows := s.base.db.documents.rows;
    forall id, i | id in rows && 0 <= i < |page|
      ensures id == records[i].id
         <==> rows[id].sourceId == sourceId && Strip(rows[id].externalId) == Strip(page[i].externalId)
    {
      RowDerived(world, s, id);
      SameIdIff(world.env, rows[id], sourceId, page[i], now);
    }
    if NoneStored(s.base.db.documents, sourceId, page) {
      forall d | d in records
        ensures d.id !in rows
      {
        var i :| 0 <= i < |records| && records[i] == d;
      }
    } else {
      var id, i :| id in rows && rows[id].sourceId == sourceId && 0 <= i < |page|
                   && Strip(rows[id].externalId) == Strip(page[i].externalId);
      assert records[i] in records;
    }
  }

  /** What lies beyond the cursor differs from everything that is stored: its key does. */
  lemma BeyondDiffers(world: World, s: State, sourceId: Id, e: FeedEntry, now: string)
    requires BaseInv(world, s) && FeedInv(world, s) && world.HasFeed(sourceId)
    requires ToDocument(world.env, sourceId, e, now).Ok? && Beyond(e, PositionIn(s.base.db, sourceId))
    ensures var d := ToDocument(world.env, sourceId, e, now).value;
            d.id in s.base.db.documents.rows ==> !Equivalent(s.base.db.documents.rows[d.id], d)
  {
    hide BaseInv, FeedInv, ToDocument, DeliveredOf, PositionIn, PairAtMost, EntryOf, Ascending, Equivalent;
    var d := ToDocument(world.env, sourceId, e, now).value;
    DocumentOfEntry(world.env, sourceId, e, now);
    if d.id in s.base.db.documents.rows && Equivalent(s.base.db.documents.rows[d.id], d) {
      var row := s.base.db.documents.rows[d.id];
      SameKey(row, d);
      RowIsEntry(world, s, d.id);
      ExternalIdKept(row);
      ExternalIdKept(d);
      SourceInv(world, s, sourceId);
      NoneBeyondEnd(DeliveredOf(s, sourceId));
      assert false;
    }
  }

  lemma SameKey(a: RawDocument, b: RawDocument)
    requires Equivalent(a, b)
    ensures a.sourceId == b.sourceId && a.externalId == b.externalId && a.publishedAt == b.publishedAt
  {
    hide SortBy;
    var x, y := Stored(a).(id := ""), Stored(b).(id := "");
    assert x.publishedAt == a.publishedAt && y.publishedAt == b.publishedAt;
    assert x.sourceId == a.sourceId && x.externalId == a.externalId;
    assert y.sourceId == b.sourceId && y.externalId == b.externalId;
  }

  // ---- the connector run of an undisturbed collection ----

  /** What a run sees of the feed as it is now. */
  function CurrentPage(s: State, sourceId: Id, limit: nat, fetch: Fetch): seq<FeedEntry> {
    PageSeen(Sight(FeedOf(s, sourceId), limit, fetch), PositionIn(s.base.db, sourceId))
  }

  /** The connector and the runner, on the stored checkpoint and the current feed. */
  function CurrentRun(env: Env, s: State, sourceId: Id, limit: int, fetch: Fetch, now: string)
    : Result<CollectionCommitCommand, CollectionFailure>
  {
    RunRss(env, sourceId, FeedOf(s, sourceId), GetCheckpoint(s.base.db, sourceId), limit, fetch, now, now)
  }

  lemma CollectsIff(env: Env, sourceId: Id, feed: seq<FeedEntry>, checkpoint: Option<IngestionCheckpoint>, limit: int,
                    fetch: Fetch, now: string)
    requires CollisionFree(env) && NoNul(sourceId) && limit > 0 && env.Timestamp(now)
    requires checkpoint.Some? ==>
               checkpoint.value.sourceId == sourceId && checkpoint.value.connectorVersion == CONNECTOR.version
    requires WatermarkOf(checkpoint) == None && DecodeCursor(CursorOf(checkpoint)).Ok?
    ensures var page := PageSeen(Sight(feed, limit, fetch), PositionAt(CursorOf(checkpoint)));
      CollectSpec(env, sourceId, ResponseOf(fetch, feed), checkpoint, limit, now).Ok?
      <==> Fetched(fetch) && Readable(env, sourceId, page, now) && NoRepeats(page)
  {
    hide DecodeCursor, EncodeCursor, ToDocuments, Page, Readable, NoRepeats, DistinctIds, CollisionFree;
    var page := PageSeen(Sight(feed, limit, fetch), PositionAt(CursorOf(checkpoint)));
    ReadableIff(env, sourceId, page, now);
    if ToDocuments(env, sourceId, page, now).Ok? {
      DistinctIff(env, sourceId, page, now);
    }
    NothingRepeats(env, sourceId, now);
  }

  lemma NothingRepeats(env: Env, sourceId: Id, now: string)
    ensures Readable(env, sourceId, [], now) && NoRepeats([]) && DistinctIds([])
  {
  }

  /** The runner accepts whatever the connector collected. */
  lemma RunnerAccepts(env: Env, sourceId: Id, checkpoint: Option<IngestionCheckpoint>, limit: int, response: Response,
                      now: string)
    requires sourceId != "" && limit > 0
    requires checkpoint.Some? ==>
               && ValidCheckpoint(env, checkpoint.value) && checkpoint.value.sourceId == sourceId
               && checkpoint.value.connectorVersion == CONNECTOR.version
    ensures var collected := CollectSpec(env, sourceId, response, checkpoint, limit, now);
            PrepareCommand(env, sourceId, CONNECTOR, checkpoint, limit, collected, now).Ok? <==> collected.Ok?
  {
    hide CollectSpec, ValidCheckpoint, ValidCommand, CommandOf, ValidBatch, PrepareCollectionWork, BoundDocument;
    if CollectSpec(env, sourceId, response, checkpoint, limit, now).Ok? {
      BatchBound(env, sourceId, response, checkpoint, limit, now);
      CommandValid(env, CONNECTOR, sourceId, checkpoint, limit,
                   CollectSpec(env, sourceId, response, checkpoint, limit, now).value, now);
    }
  }

  lemma BatchBound(env: Env, sourceId: Id, response: Response, checkpoint: Option<IngestionCheckpoint>, limit: int,
                   now: string)
    requires CollectSpec(env, sourceId, response, checkpoint, limit, now).Ok?
    ensures var batch := CollectSpec(env, sourceId, response, checkpoint, limit, now).value;
      && ValidBatch(env, batch) && !batch.isPartial
      && forall d :: d in batch.records ==> BoundDocument(env, CONNECTOR, sourceId, d)
  {
    hide DecodeCursor, EncodeCursor, ToDocuments, ToDocument, Page, DistinctIds, BoundDocument;
    if response.status != 304 {
      var page := Page(response.entries.value, WatermarkOf(checkpoint), DecodeCursor(CursorOf(checkpoint)).value, limit);
      MappedEntries(env, sourceId, page, now);
      var records := ToDocuments(env, sourceId, page, now).value;
      forall d | d in records
        ensures BoundDocument(env, CONNECTOR, sourceId, d)
      {
        var i :| 0 <= i < |records| && records[i] == d;
        EntryBound(env, sourceId, page[i], now);
      }
    }
  }

  lemma EntryBound(env: Env, sourceId: Id, e: FeedEntry, now: string)
    requires ToDocument(env, sourceId, e, now).Ok?
    ensures BoundDocument(env, CONNECTOR, sourceId, ToDocument(env, sourceId, e, now).value)
  {
    hide ToDocument;
    DocumentOfEntry(env, sourceId, e, now);
  }

  /** A run on the stored checkpoint becomes a command exactly when its page can be read and repeats no id. */
  lemma RunSucceedsIff(world: World, s: State, sourceId: Id, limit: nat, fetch: Fetch, now: string)
    requires BaseInv(world, s) && FeedInv(world, s) && NamedWorld(world) && world.HasFeed(sourceId)
    requires limit > 0 && world.env.Timestamp(now)
    ensures var page := CurrentPage(s, sourceId, limit, fetch);
      CurrentRun(world.env, s, sourceId, limit, fetch, now).Ok?
      <==> Fetched(fetch) && Readable(world.env, sourceId, page, now) && NoRepeats(page)
  {
    hide BaseInv, FeedInv, DecodeCursor, CollectSpec, PrepareCommand, PageSeen, Readable, NoRepeats, ValidCheckpoint,
      CollisionFree, FeedOf, GetCheckpoint;
    CurrentCursor(world, s, sourceId);
    NoWatermark(world, s, sourceId);
    CurrentBinding(world, s, sourceId);
    var checkpoint := GetCheckpoint(s.base.db, sourceId);
    CollectsIff(world.env, sourceId, FeedOf(s, sourceId), checkpoint, limit, fetch, now);
    RunnerAccepts(world.env, sourceId, checkpoint, limit, ResponseOf(fetch, FeedOf(s, sourceId)), now);
  }

  lemma CurrentCursor(world: World, s: State, sourceId: Id)
    requires FeedInv(world, s) && world.HasFeed(sourceId)
    ensures DecodeCursor(CursorOf(GetCheckpoint(s.base.db, sourceId))).Ok?
  {
    hide PhaseOk, EntriesExact, DecodeCursor, GetCheckpoint, Ascending, DeliveredIn, PagesTotal;
    assert SourceOk(world.env, s.base.db, s.base.log, s.committed, sourceId);
  }

  lemma CurrentBinding(world: World, s: State, sourceId: Id)
    requires BaseInv(world, s) && world.HasFeed(sourceId)
    ensures BindingsOk(world.env, world.Connectors(), s.base.db)
    ensures var checkpoint := GetCheckpoint(s.base.db, sourceId);
      checkpoint.Some? ==>
        && ValidCheckpoint(world.env, checkpoint.value) && checkpoint.value.sourceId == sourceId
        && checkpoint.value.connectorVersion == CONNECTOR.version
  {
    hide Consistent, Derived, WorkExact, LogOk, HistoryOk, ValidCheckpoint, SourcesOk, PhaseSound;
    assert sourceId in s.base.db.checkpoints ==> BindingOk(world.env, world.Connectors(), s.base.db, sourceId);
  }

  // ---- its commit ----

  /** The command of a run on the stored checkpoint and the current feed. */
  ghost predicate Prepared(world: World, s: State, sourceId: Id, page: seq<FeedEntry>, c: CollectionCommitCommand) {
    && Live(s.base.db, sourceId, c) && RunnerMade(world.env, CONNECTOR, sourceId, c)
    && (forall d :: d in c.batch.records ==> DerivedId(world.env, d))
    && ToDocuments(world.env, sourceId, page, c.batch.collectedAt) == Ok(c.batch.records)
    && EndOf(c) == NextPosition(page, PositionIn(s.base.db, sourceId))
  }

  lemma RunIsPrepared(world: World, s: State, sourceId: Id, limit: nat, fetch: Fetch, now: string)
    requires BaseInv(world, s) && FeedInv(world, s) && world.HasFeed(sourceId) && limit > 0
    requires CurrentRun(world.env, s, sourceId, limit, fetch, now).Ok?
    ensures Prepared(world, s, sourceId, CurrentPage(s, sourceId, limit, fetch),
                     CurrentRun(world.env, s, sourceId, limit, fetch, now).value)
  {
    hide BaseInv, FeedInv, RunRss, GetCheckpoint, PageSeen, NextPosition, ToDocuments, RunnerMade, DerivedId, DecodeCursor,
      Basis, FeedOf;
    var c := CurrentRun(world.env, s, sourceId, limit, fetch, now).value;
    RunPrepares(world, s, sourceId, limit, fetch, now, now);
    RunDerived(world, FeedOf(s, sourceId), sourceId, GetCheckpoint(s.base.db, sourceId), limit, fetch, now, now);
  }

  /** What the commit needs of a prepared command, apart from fresh records. */
  lemma PreparedParts(world: World, s: State, sourceId: Id, page: seq<FeedEntry>, c: CollectionCommitCommand)
    requires BaseInv(world, s) && world.HasFeed(sourceId) && Prepared(world, s, sourceId, page, c)
    ensures ValidCommand(world.env, c) && DerivedCommand(world.env, c) && RowAfter(s.base.db, c).Ok? && Precheck(c).Ok?
    ensures |c.batch.records| == |page| && |c.documentWorkItems| == |page|
  {
    hide BaseInv, RunnerMade, DerivedId, ToDocuments, ValidCommand, RowAfter, Precheck, IsDocumentWork, NextCheckpoint,
      GetCheckpoint, Basis, NextPosition, EndOf;
    CurrentBinding(world, s, sourceId);
    CheckpointAccepted(world.env, world.Connectors(), s.base.db, sourceId, c);
    MadeParts(world.env, CONNECTOR, sourceId, c);
    MadeWork(world.env, CONNECTOR, sourceId, c);
    MappedEntries(world.env, sourceId, page, c.batch.collectedAt);
  }

  /** The commit stores every record and all work, or is refused because an id is taken. */
  ghost predicate CommitDecided(env: Env, db: Database, c: CollectionCommitCommand, allNew: bool) {
    if allNew then
      && Commit(env, db, c).Ok?
      && Commit(env, db, c).value.1.documentsInserted == |c.batch.records|
      && Commit(env, db, c).value.1.workCreated == |c.batch.records|
    else Commit(env, db, c) == Err(WorkPayloadCodec.DocumentConflict)
  }

  /**
   * The commit of an undisturbed collection succeeds exactly when no entry of the page has the id
   * of a stored document of the source; otherwise it is refused as a document conflict.
   */
  lemma CommitSucceedsIff(world: World, s: State, sourceId: Id, limit: nat, fetch: Fetch, c: CollectionCommitCommand)
    requires BaseInv(world, s) && FeedInv(world, s) && NamedWorld(world) && world.HasFeed(sourceId)
    requires Prepared(world, s, sourceId, CurrentPage(s, sourceId, limit, fetch), c)
    ensures CommitDecided(world.env, s.base.db, c,
                          NoneStored(s.base.db.documents, sourceId, CurrentPage(s, sourceId, limit, fetch)))
  {
    hide BaseInv, FeedInv, Live, Commit, ToDocuments, CurrentPage, ValidCommand, DerivedCommand, NoneStored, Consistent,
      Derived, Precheck, RowAfter, RunnerMade, NoneEquivalent, GoodHash, EndOf, NextPosition, PositionIn, DerivedId,
      DocumentsOk, SourcesOk;
    var page := CurrentPage(s, sourceId, limit, fetch);
    PreparedParts(world, s, sourceId, page, c);
    NoneStoredIff(world, s, sourceId, page, c.batch.collectedAt);
    InvDocuments(world, s);
    if NoneStored(s.base.db.documents, sourceId, page) {
      FreshCommit(world.env, s.base.db, c);
    } else {
      PageDiffers(world, s, sourceId, limit, fetch, c);
      ConflictingCommit(world.env, s.base.db, c);
    }
  }

  lemma PageDiffers(world: World, s: State, sourceId: Id, limit: nat, fetch: Fetch, c: CollectionCommitCommand)
    requires BaseInv(world, s) && FeedInv(world, s) && world.HasFeed(sourceId)
    requires Prepared(world, s, sourceId, CurrentPage(s, sourceId, limit, fetch), c)
    ensures NoneEquivalent(s.base.db.documents, c.batch.records)
  {
    hide BaseInv, FeedInv, Live, ToDocuments, ToDocument, PageSeen, PositionIn, Equivalent, Beyond, RunnerMade, DerivedId,
      FeedOf, EndOf;
    var page := CurrentPage(s, sourceId, limit, fetch);
    MappedEntries(world.env, sourceId, page, c.batch.collectedAt);
    PageEntries(Sight(FeedOf(s, sourceId), limit, fetch), PositionIn(s.base.db, sourceId));
    forall d | d in c.batch.records && d.id in s.base.db.documents.rows
      ensures !Equivalent(s.base.db.documents.rows[d.id], d)
    {
      var i :| 0 <= i < |c.batch.records| && c.batch.records[i] == d;
      BeyondDiffers(world, s, sourceId, page[i], c.batch.collectedAt);
    }
  }

  // ---- a whole undisturbed collection ----

  /** The state in front of the commit, and after a run that failed. */
  ghost predicate ReadyToCommit(world: World, s: State, t: State, i: nat, sourceId: Id,
                            made: Result<CollectionCommitCommand, CollectionFailure>) {
    && t.base.db == s.base.db && t.base.log == s.base.log && t.feeds == s.feeds && t.committed == s.committed
    && (forall j :: PhaseOf(t.base, j)
                    == if j != i then PhaseOf(s.base, j) else if made.Ok? then Ready(sourceId, made.value) else Idle)
    && Take(world, t, CommitBatch(i)).feeds == t.feeds
    && (made.Err? ==> Take(world, t, CommitBatch(i)) == t)
    && Take(world, t, CommitBatch(i)).base
       == if made.Ok? then Committing(world.env, t.base, i, sourceId, made.value) else t.base
  }

  lemma CollectionSteps(world: World, s: State, i: nat, sourceId: Id, limit: int, fetch: Fetch, now: string)
    requires world.HasFeed(sourceId) && PhaseOf(s.base, i) == Idle
    ensures ReadyToCommit(world, s, Take(world, Take(world, s, Read(i, sourceId)), RunConnector(i, limit, fetch, now, now)), i,
                      sourceId, CurrentRun(world.env, s, sourceId, limit, fetch, now))
  {
    hide Take, CurrentRun, GetCheckpoint, Collecting, Committing;
    ReadAndRun(world, s, i, sourceId, limit, fetch, now);
    RunsCurrent(world, s, i, sourceId, limit, fetch, now);
    CommitOrNot(world, Take(world, Take(world, s, Read(i, sourceId)), RunConnector(i, limit, fetch, now, now)), i);
  }

  lemma RunsCurrent(world: World, s: State, i: nat, sourceId: Id, limit: int, fetch: Fetch, now: string)
    requires world.HasFeed(sourceId)
    ensures var made := CurrentRun(world.env, s, sourceId, limit, fetch, now);
      var planned := Planned(sourceId, GetCheckpoint(s.base.db, sourceId));
      var t := Collecting(world, With(s, i, planned), i, planned, limit, fetch, now, now);
      && t.base.db == s.base.db && t.base.log == s.base.log && t.feeds == s.feeds && t.committed == s.committed
      && (forall j :: PhaseOf(t.base, j)
                      == if j != i then PhaseOf(s.base, j) else if made.Ok? then Ready(sourceId, made.value) else Idle)
  {
    hide RunRss, RunFixture, GetCheckpoint;
  }

  lemma CommitOrNot(world: World, s: State, i: nat)
    requires !PhaseOf(s.base, i).Planned?
    ensures var (t, phase) := (Take(world, s, CommitBatch(i)), PhaseOf(s.base, i));
      && t.feeds == s.feeds
      && if phase.Ready? then t.base == Committing(world.env, s.base, i, phase.sourceId, phase.command) else t == s
  {
    hide Collecting, GetCheckpoint, Committing, Commit;
  }

  /** A page that can be collected and stored. */
  ghost predicate Acceptable(env: Env, s: State, sourceId: Id, limit: nat, fetch: Fetch, now: string)
  {
    var page := CurrentPage(s, sourceId, limit, fetch);
    && Fetched(fetch) && Readable(env, sourceId, page, now)
    && NoRepeats(page) && NoneStored(s.base.db.documents, sourceId, page)
  }

  /** The page was stored with its work, and the source stands behind it. */
  ghost predicate PageCollected(s: System, t: System, sourceId: Id, page: seq<FeedEntry>) {
    && |t.log| == |s.log| + 1
    && t.log[|s.log|].sourceId == sourceId && t.log[|s.log|].size == |page|
    && PositionIn(t.db, sourceId) == NextPosition(page, PositionIn(s.db, sourceId))
    && |t.db.documents.rows| == |s.db.documents.rows| + |page|
    && |t.db.work.rows| == |s.db.work.rows| + |page|
  }

  /** How an undisturbed collection ends: the page is delivered and stored, or nothing changes. */
  ghost predicate CollectionEnds(env: Env, s: State, t: State, sourceId: Id, limit: nat, fetch: Fetch, now: string) {
    && (forall j :: PhaseOf(t.base, j) == PhaseOf(s.base, j)) && t.feeds == s.feeds
    && if Acceptable(env, s, sourceId, limit, fetch, now)
       then
         && PageCollected(s.base, t.base, sourceId, CurrentPage(s, sourceId, limit, fetch))
         && DeliveredOf(t, sourceId) == DeliveredOf(s, sourceId) + CurrentPage(s, sourceId, limit, fetch)
       else t.base.db == s.base.db && t.base.log == s.base.log
  }

  /**
   * Whatever the other coordinators have done so far, and whatever was published: a collection
   * of a feed that runs undisturbed succeeds exactly when the feed was fetched, every entry of the
   * page becomes a document, and no entry has an external id that is repeated in the page or
   * belongs to a stored document of the source, up to outer space. It then stores the page;
   * otherwise it changes neither the tables nor the log.
   */
  lemma UndisturbedFeedCollection(world: World, steps: seq<Step>, i: nat, sourceId: Id, limit: nat, fetch: Fetch,
                                  now: string)
    requires limit > 0 && world.env.Timestamp(now) && NamedWorld(world) && world.HasFeed(sourceId)
    requires PhaseOf(Run(world, steps).base, i) == Idle
    ensures CollectionEnds(world.env, Run(world, steps), Run(world, steps + Collection(i, sourceId, limit, fetch, now)),
                           sourceId, limit, fetch, now)
  {
    hide Run, Take, BaseInv, FeedInv, CurrentRun, CurrentPage, Commit, Readable, NoRepeats, NoneStored, Fetched, Prepared,
      PageCollected, NamedWorld;
    var s := Run(world, steps);
    FeedIngestion.RunsKeepInv(world, steps);
    RunSucceedsIff(world, s, sourceId, limit, fetch, now);
    CollectionSteps(world, s, i, sourceId, limit, fetch, now);
    ThreeSteps(world, steps, Read(i, sourceId), RunConnector(i, limit, fetch, now, now), CommitBatch(i));
    if CurrentRun(world.env, s, sourceId, limit, fetch, now).Ok? {
      var c := CurrentRun(world.env, s, sourceId, limit, fetch, now).value;
      RunIsPrepared(world, s, sourceId, limit, fetch, now);
      CommitSucceedsIff(world, s, sourceId, limit, fetch, c);
      if Commit(world.env, s.base.db, c).Ok? {
        var t := Take(world, Take(world, s, Read(i, sourceId)), RunConnector(i, limit, fetch, now, now));
        PreparedCommits(world, s, sourceId, CurrentPage(s, sourceId, limit, fetch), c,
                        Committing(world.env, t.base, i, sourceId, c));
        TwoStepsKeep(world, s, Read(i, sourceId), RunConnector(i, limit, fetch, now, now));
        PageDelivered(world, s, t, i, sourceId, CurrentPage(s, sourceId, limit, fetch), c);
      }
    }
  }

  lemma TwoStepsKeep(world: World, s: State, a: Step, b: Step)
    requires BaseInv(world, s) && FeedInv(world, s)
    ensures BaseInv(world, Take(world, Take(world, s, a), b)) && FeedInv(world, Take(world, Take(world, s, a), b))
  {
    hide Take, BaseInv, FeedInv;
    StepKeepsBase(world, s, a);
    FeedIngestion.StepKeepsInv(world, s, a);
    StepKeepsBase(world, Take(world, s, a), b);
    FeedIngestion.StepKeepsInv(world, Take(world, s, a), b);
  }

  lemma PageDelivered(world: World, s: State, t: State, i: nat, sourceId: Id, page: seq<FeedEntry>,
                      c: CollectionCommitCommand)
    requires BaseInv(world, t) && FeedInv(world, t) && PhaseOf(t.base, i) == Ready(sourceId, c) && world.HasFeed(sourceId)
    requires t.base.db == s.base.db && t.base.log == s.base.log && t.committed == s.committed
    requires Prepared(world, s, sourceId, page, c) && Commit(world.env, s.base.db, c).Ok?
    ensures DeliveredOf(Take(world, t, CommitBatch(i)), sourceId) == DeliveredOf(s, sourceId) + page
  {
    hide BaseInv, FeedInv, Take, Commit, DeliveredIn, ToDocuments, RunnerMade, DerivedId, EndOf, NextPosition, PositionIn,
      Live, EntriesOf;
    CommitDelivers(world, t, i, sourceId, c);
    EntriesOfPage(world.env, sourceId, page, c.batch.collectedAt);
  }

  lemma PreparedCommits(world: World, s: State, sourceId: Id, page: seq<FeedEntry>, c: CollectionCommitCommand, t: System)
    requires BaseInv(world, s) && world.HasFeed(sourceId) && Prepared(world, s, sourceId, page, c)
    requires Commit(world.env, s.base.db, c).Ok?
    requires var (after, r) := Commit(world.env, s.base.db, c).value;
      && t.db == after && t.log == s.base.log + [EntryFor(sourceId, c, r.checkpoint)]
      && r.documentsInserted == |c.batch.records| && r.workCreated == |c.batch.records|
    ensures PageCollected(s.base, t, sourceId, page)
  {
    hide BaseInv, Commit, ToDocuments, Lands, PositionIn, ValidCommand, DerivedCommand, Live, CheckpointMoved,
      GetCheckpoint, NextPosition, Consistent, Extends, Bound, WorkBound, RowAfter, Precheck, RunnerMade, EndOf, DerivedId;
    var (after, r) := Commit(world.env, s.base.db, c).value;
    PreparedParts(world, s, sourceId, page, c);
    PreparedLands(world, s, sourceId, page, c, after, r);
    LandsOnCurrent(world.env, world.Connectors(), s.base, sourceId, c, after, r);
    EndIsStored(world, s, sourceId, c, after, r);
  }

  lemma PreparedLands(world: World, s: State, sourceId: Id, page: seq<FeedEntry>, c: CollectionCommitCommand,
                      after: Database, r: CollectionCommitResult)
    requires BaseInv(world, s) && world.HasFeed(sourceId) && Prepared(world, s, sourceId, page, c)
    requires Commit(world.env, s.base.db, c) == Ok((after, r))
    ensures Lands(world.env, world.Connectors(), s.base, sourceId, c, after, r)
  {
    hide HistoryInv, Commit, ToDocuments, PositionIn, GetCheckpoint, NextPosition, RunnerMade, EndOf, DerivedId,
      WasCommitted, PhaseSound, Basis;
    CurrentCommitted(world, s, sourceId);
  }

  // ---- how far a feed can be delivered ----

  lemma DeliveredIsStored(world: World, s: State, sourceId: Id, page: seq<FeedEntry>, a: FeedEntry, i: nat)
    requires FeedInv(world, s) && world.HasFeed(sourceId) && a in DeliveredOf(s, sourceId)
    requires i < |page| && Strip(page[i].externalId) == Strip(a.externalId)
    ensures !NoneStored(s.base.db.documents, sourceId, page)
  {
    hide PhaseOk, DecodeCursor, GetCheckpoint, DeliveredIn, Ascending, PagesTotal, Strip, EntryOf;
    assert SourceOk(world.env, s.base.db, s.base.log, s.committed, sourceId);
    var t := s.base.db.documents;
    assert EntryStored(world.env, t, sourceId, a);
    var id := t.index[(sourceId, a.externalId)];
    RowTellsEntry(world.env, sourceId, a, t.rows[id]);
    ExternalIdKept(t.rows[id]);
  }

  /** The page could be collected, but entry `i` has the external id of a delivered one. */
  ghost predicate Republishes(env: Env, s: State, sourceId: Id, page: seq<FeedEntry>, now: string, a: FeedEntry, i: nat) {
    && a in DeliveredOf(s, sourceId) && i < |page| && Strip(page[i].externalId) == Strip(a.externalId)
    && Readable(env, sourceId, page, now) && NoRepeats(page)
  }

  ghost predicate EndsInConflict(env: Env, db: Database, made: Result<CollectionCommitCommand, CollectionFailure>) {
    made.Ok? && Commit(env, db, made.value) == Err(WorkPayloadCodec.DocumentConflict)
  }

  /**
   * An entry that is published again under the external id of a delivered one, later in the
   * order, is refused: a collection whose page has it ends in a document conflict.
   */
  lemma RepublishedEntryConflicts(world: World, steps: seq<Step>, sourceId: Id, limit: nat, fetch: Fetch, now: string,
                                  a: FeedEntry, i: nat)
    requires limit > 0 && world.env.Timestamp(now) && NamedWorld(world) && world.HasFeed(sourceId) && Fetched(fetch)
    requires Republishes(world.env, Run(world, steps), sourceId, CurrentPage(Run(world, steps), sourceId, limit, fetch),
                         now, a, i)
    ensures EndsInConflict(world.env, Run(world, steps).base.db,
                           CurrentRun(world.env, Run(world, steps), sourceId, limit, fetch, now))
  {
    hide Run, BaseInv, FeedInv, CurrentRun, CurrentPage, Commit, Readable, NoRepeats, NoneStored, Prepared, DeliveredOf,
      NamedWorld, Strip;
    var s := Run(world, steps);
    FeedIngestion.RunsKeepInv(world, steps);
    RunSucceedsIff(world, s, sourceId, limit, fetch, now);
    RunIsPrepared(world, s, sourceId, limit, fetch, now);
    CommitSucceedsIff(world, s, sourceId, limit, fetch, CurrentRun(world.env, s, sourceId, limit, fetch, now).value);
    DeliveredIsStored(world, s, sourceId, CurrentPage(s, sourceId, limit, fetch), a, i);
  }

  /** The page of a limit that reaches to entry `n` of the ordered feed. */
  lemma PageToward(feed: seq<FeedEntry>, position: Option<Position>, n: nat) returns (k: nat)
    requires |UpTo(feed, position)| < n <= |Ordered(feed)|
    ensures k == |UpTo(feed, position)| && UpTo(feed, position) == Ordered(feed)[..k]
    ensures PageSeen(Sight(feed, n - k, FETCHED), position) == Ordered(feed)[k..n]
  {
    hide Page, UpTo, After, Ordered, Beyond;
    k := CutExists(feed, position);
    CutAt(feed, position, k);
    PageIsSlice(feed, position, n - k);
    assert Ordered(feed)[k..][..n - k] == Ordered(feed)[k..n];
  }

  /** What is delivered of the beginning of a feed without repeats does not stand in the way of the rest. */
  lemma RestNotStored(world: World, s: State, sourceId: Id, first: seq<FeedEntry>, k: nat)
    requires BaseInv(world, s) && FeedInv(world, s) && world.HasFeed(sourceId) && NoRepeats(first) && k <= |first|
    requires DeliveredOf(s, sourceId) == first[..k]
    ensures NoneStored(s.base.db.documents, sourceId, first[k..])
  {
    hide BaseInv, FeedInv, DeliveredOf, Strip, EntryOf;
    var rows := s.base.db.documents.rows;
    forall id, i | id in rows && rows[id].sourceId == sourceId && 0 <= i < |first[k..]|
      ensures Strip(rows[id].externalId) != Strip(first[k..][i].externalId)
    {
      RowIsEntry(world, s, id);
      ExternalIdKept(rows[id]);
      var e := EntryOf(rows[id]);
      assert e in first[..k];
      var j :| 0 <= j < k && first[j] == e;
      assert first[k + i] == first[k..][i];
    }
  }

  /** The first `n` entries of the feed are not all delivered, become documents and repeat no id. */
  ghost predicate Deliverable(env: Env, s: State, sourceId: Id, n: nat, now: string) {
    var feed := FeedOf(s, sourceId);
    && |UpTo(feed, PositionIn(s.base.db, sourceId))| < n <= |Ordered(feed)|
    && Readable(env, sourceId, Ordered(feed)[..n], now) && NoRepeats(Ordered(feed)[..n])
  }

  ghost predicate FirstDelivered(s: State, sourceId: Id, n: nat) {
    var feed := FeedOf(s, sourceId);
    n <= |Ordered(feed)| && UpTo(feed, PositionIn(s.base.db, sourceId)) == Ordered(feed)[..n]
  }

  /**
   * Every state that is reached with careful publications and has not delivered the first `n`
   * entries of a feed can deliver exactly them in one collection, when they become documents and
   * no external id repeats.
   */
  lemma FeedCanBeDelivered(world: World, steps: seq<Step>, i: nat, sourceId: Id, n: nat, now: string)
    returns (limit: nat)
    requires world.env.Timestamp(now) && NamedWorld(world) && world.HasFeed(sourceId) && Careful(world, steps)
    requires PhaseOf(Run(world, steps).base, i) == Idle && Deliverable(world.env, Run(world, steps), sourceId, n, now)
    ensures var t := Run(world, steps + Collection(i, sourceId, limit, FETCHED, now));
            t.feeds == Run(world, steps).feeds && FirstDelivered(t, sourceId, n)
  {
    hide Run, BaseInv, FeedInv, Commit, UpTo, Ordered, PositionIn, PageSeen, NextPosition, NoneStored, NamedWorld,
      FeedDraining.DistinctKeys, Strip, ToDocument, DeliveredOf, GrowInv, Careful;
    var s := Run(world, steps);
    var feed, position := FeedOf(s, sourceId), PositionIn(s.base.db, sourceId);
    RunsKeepGrowing(world, steps);
    CompleteNow(world, s, sourceId);
    var k := PageToward(feed, position, n);
    limit := n - k;
    var first := Ordered(feed)[..n];
    assert Ordered(feed)[k..n] == first[k..] && Ordered(feed)[..k] == first[..k];
    RestNotStored(world, s, sourceId, first, k);
    UndisturbedFeedCollection(world, steps, i, sourceId, limit, FETCHED, now);
    PageSeenAppends(Sight(feed, limit, FETCHED), position);
    assert first[..k] + first[k..] == first;
  }

  lemma CompleteNow(world: World, s: State, sourceId: Id)
    requires GrowInv(world, s) && world.HasFeed(sourceId)
    ensures FeedDraining.DistinctKeys(FeedOf(s, sourceId))
    ensures DeliveredOf(s, sourceId) == UpTo(FeedOf(s, sourceId), PositionIn(s.base.db, sourceId))
  {
    hide DeliveredOf, UpTo, PositionIn, FeedOf, PageFits, IsLive, FeedDraining.DistinctKeys;
    assert Complete(s, sourceId);
  }

  ghost predicate RepeatsWithin(s: State, sourceId: Id, n: nat) {
    n <= |Ordered(FeedOf(s, sourceId))| && !NoRepeats(Ordered(FeedOf(s, sourceId))[..n])
  }

  /** No state that is reached with careful publications has delivered a beginning of a feed in which an id repeats. */
  lemma RepeatsAreNeverDelivered(world: World, steps: seq<Step>, sourceId: Id, n: nat)
    requires Careful(world, steps) && world.HasFeed(sourceId) && RepeatsWithin(Run(world, steps), sourceId, n)
    ensures |DeliveredOf(Run(world, steps), sourceId)| < n
  {
    hide Run, BaseInv, FeedInv, GrowInv, UpTo, Ordered, PositionIn, FeedDraining.DistinctKeys, Strip, Beyond, DeliveredOf,
      FeedOf, Careful;
    var s := Run(world, steps);
    var feed, position := FeedOf(s, sourceId), PositionIn(s.base.db, sourceId);
    RunsKeepGrowing(world, steps);
    CompleteNow(world, s, sourceId);
    OrderedDistinct(feed);
    var k := CutExists(feed, position);
    CutAt(feed, position, k);
    if k >= n {
      var first := Ordered(feed)[..n];
      var i, j :| 0 <= i < j < |first| && Strip(first[i].externalId) == Strip(first[j].externalId);
      var a, b := Ordered(feed)[i], Ordered(feed)[j];
      assert a == first[i] && b == first[j];
      InOrdered(feed, i);
      InOrdered(feed, j);
      KeysDifferAt(Ordered(feed), i, j);
      CursorStopsAtRepeat(world, steps, sourceId, a, b);
    }
  }

  lemma InOrdered(feed: seq<FeedEntry>, i: nat)
    requires i < |Ordered(feed)|
    ensures Ordered(feed)[i] in feed
  {
    hide SortBy;
    SortKeepsElements(BY_KEY, feed);
    assert Ordered(feed)[i] in multiset(Ordered(feed));
  }

  lemma KeysDifferAt(feed: seq<FeedEntry>, i: nat, j: nat)
    requires FeedDraining.DistinctKeys(feed) && i < j < |feed|
    ensures feed[i] != feed[j]
  {
  }
}
