/**
 * What is stored of the feeds, in every run of the system and however the feeds are published:
 * entries may be added anywhere, changed and dropped at any time.
 */
module FeedIngestion {
  import opened Wrappers
  import opened IngestionModels
  import opened Deduplication
  import opened IngestionTables
  import opened AtomicCommit
  import opened CollectionCommits
  import opened CollectionRunner
  import opened CollectionReplay
  import opened CheckpointHistory
  import opened IngestionSystem
  import opened RssCursor
  import opened RssConnector
  import opened FeedDraining
  import opened FeedDocuments
  import opened Sorting
  import opened Text
  import opened TextOrder

  /** Where a cursor stands; a cursor that cannot be decoded stands nowhere. */
  function PositionAt(cursor: Option<string>): Option<Position> {
    match DecodeCursor(cursor)
    case Ok(position) => position
    case Err(_) => None
  }

  function PositionIn(db: Database, sourceId: Id): Option<Position> {
    PositionAt(CursorOf(GetCheckpoint(db, sourceId)))
  }

  function StartOf(c: CollectionCommitCommand): Option<Position> {
    PositionAt(CursorOf(Basis(c)))
  }

  function EndOf(c: CollectionCommitCommand): Option<Position> {
    PositionAt(c.nextCheckpoint.cursor)
  }

  /** The command was prepared from the checkpoint that is still the stored one. */
  predicate Live(db: Database, sourceId: Id, c: CollectionCommitCommand) {
    Basis(c) == GetCheckpoint(db, sourceId)
  }

  // ---- what was delivered ----

  /** The entries that a run delivers from a position on: none of an unchanged feed. */
  function PageSeen(sight: Sight, position: Option<Position>): seq<FeedEntry> {
    if sight.fetch.status == 304 then [] else Page(sight.feed, None, position, sight.limit)
  }

  function PositionAfter(entries: seq<FeedEntry>): Option<Position> {
    NextPosition(entries, None)
  }

  /**
   * The entries of a source that the commits of the log delivered: each page is what its run saw
   * beyond the entries delivered before.
   */
  function DeliveredIn(log: seq<Committed>, sights: seq<Sight>, sourceId: Id): seq<FeedEntry>
    requires |log| == |sights|
  {
    if log == [] then []
    else
      var last := |log| - 1;
      var before := DeliveredIn(log[..last], sights[..last], sourceId);
      if log[last].sourceId == sourceId then before + PageSeen(sights[last], PositionAfter(before)) else before
  }

  function DeliveredOf(s: State, sourceId: Id): seq<FeedEntry> {
    if |s.base.log| == |s.committed| then DeliveredIn(s.base.log, s.committed, sourceId) else []
  }

  /** Each entry comes strictly after the ones before it. */
  ghost predicate Ascending(entries: seq<FeedEntry>) {
    forall i, j :: 0 <= i < j < |entries| ==> Beyond(entries[j], Some(KeyOf(entries[i])))
  }

  // ---- what every run keeps ----

  /** The batch is the page that the run saw, and the next cursor stands behind it. */
  ghost predicate FromSight(env: Env, sight: Sight, sourceId: Id, c: CollectionCommitCommand) {
    var page := PageSeen(sight, StartOf(c));
    && ToDocuments(env, sourceId, page, c.batch.collectedAt) == Ok(c.batch.records)
    && DecodeCursor(c.nextCheckpoint.cursor) == Ok(NextPosition(page, StartOf(c)))
  }

  /** A command of a feed that can still be committed delivers what its coordinator saw. */
  ghost predicate PhaseOk(world: World, db: Database, phase: Phase, sight: Sight) {
    phase.Ready? && world.HasFeed(phase.sourceId) && Live(db, phase.sourceId, phase.command) ==>
      FromSight(world.env, sight, phase.sourceId, phase.command)
  }

  /** The row is the document of this entry, retrieved at the time the row says. */
  ghost predicate IsEntry(env: Env, sourceId: Id, e: FeedEntry, row: RawDocument) {
    ToDocument(env, sourceId, e, row.retrievedAt) == Ok(row)
  }

  /** The entry is stored under its own identity. */
  ghost predicate EntryStored(env: Env, t: DocumentTable, sourceId: Id, e: FeedEntry) {
    && (sourceId, e.externalId) in t.index
    && t.index[(sourceId, e.externalId)] in t.rows
    && IsEntry(env, sourceId, e, t.rows[t.index[(sourceId, e.externalId)]])
  }

  ghost predicate HasExternalId(entries: seq<FeedEntry>, externalId: string) {
    exists e :: e in entries && e.externalId == externalId
  }

  /** The stored documents of the source are exactly these entries. */
  ghost predicate EntriesExact(env: Env, t: DocumentTable, sourceId: Id, entries: seq<FeedEntry>) {
    && (forall key :: key in t.index && key.0 == sourceId ==> HasExternalId(entries, key.1))
    && (forall e :: e in entries ==> EntryStored(env, t, sourceId, e))
  }

  /** The checkpoint of the source stands behind the delivered entries, which are stored, each once. */
  ghost predicate SourceOk(env: Env, db: Database, log: seq<Committed>, sights: seq<Sight>, sourceId: Id) {
    && |log| == |sights|
    && var entries := DeliveredIn(log, sights, sourceId);
    && DecodeCursor(CursorOf(GetCheckpoint(db, sourceId))) == Ok(PositionAfter(entries))
    && Ascending(entries) && |entries| == PagesTotal(log, sourceId)
    && EntriesExact(env, db.documents, sourceId, entries)
  }

  ghost predicate FeedInv(world: World, s: State) {
    && |s.base.log| == |s.committed|
    && (forall x :: world.HasFeed(x) ==> SourceOk(world.env, s.base.db, s.base.log, s.committed, x))
    && (forall i :: PhaseOk(world, s.base.db, PhaseOf(s.base, i), SightOf(s, i)))
  }

  // ---- pages ----

  lemma BeyondLater(e: FeedEntry, a: FeedEntry, b: FeedEntry)
    requires Beyond(e, Some(KeyOf(b))) && PairAtMost(KeyOf(a), KeyOf(b))
    ensures Beyond(e, Some(KeyOf(a)))
  {
    hide PairAtMost;
    if PairAtMost(KeyOf(e), KeyOf(a)) {
      PairAtMostTransitive(KeyOf(e), KeyOf(a), KeyOf(b));
    }
  }

  lemma BeyondIsLater(e: FeedEntry, a: FeedEntry)
    requires Beyond(e, Some(KeyOf(a)))
    ensures PairAtMost(KeyOf(a), KeyOf(e))
  {
    hide PairAtMost;
    PairAtMostTotal(KeyOf(a), KeyOf(e));
  }

  /** Ascending entries end with the position they reach, and none is beyond it. */
  lemma NoneBeyondEnd(entries: seq<FeedEntry>)
    requires Ascending(entries)
    ensures forall e :: e in entries ==> !Beyond(e, PositionAfter(entries))
  {
    hide PairAtMost, Beyond;
    forall i | 0 <= i < |entries|
      ensures !Beyond(entries[i], PositionAfter(entries))
    {
      NotBeyondEnd(entries, i);
    }
  }

  lemma NotBeyondEnd(entries: seq<FeedEntry>, i: nat)
    requires Ascending(entries) && i < |entries|
    ensures !Beyond(entries[i], PositionAfter(entries))
  {
    hide PairAtMost;
    var last := |entries| - 1;
    if i < last {
      BeyondIsLater(entries[last], entries[i]);
    } else {
      PairAtMostTotal(KeyOf(entries[last]), KeyOf(entries[last]));
    }
  }

  /** A page beyond what was delivered is appended in order. */
  lemma AscendingAppend(entries: seq<FeedEntry>, page: seq<FeedEntry>)
    requires Ascending(entries) && Ascending(page)
    requires forall i :: 0 <= i < |page| ==> Beyond(page[i], PositionAfter(entries))
    ensures Ascending(entries + page)
    ensures PositionAfter(entries + page) == NextPosition(page, PositionAfter(entries))
  {
    hide PairAtMost, Beyond;
    var all := entries + page;
    forall i, j | 0 <= i < j < |all|
      ensures Beyond(all[j], Some(KeyOf(all[i])))
    {
      if i < |entries| <= j {
        BeyondAll(entries, i, page[j - |entries|]);
      }
    }
  }

  lemma BeyondAll(entries: seq<FeedEntry>, i: nat, e: FeedEntry)
    requires Ascending(entries) && i < |entries| && Beyond(e, PositionAfter(entries))
    ensures Beyond(e, Some(KeyOf(entries[i])))
  {
    hide PairAtMost, Beyond;
    var last := |entries| - 1;
    if i < last {
      BeyondIsLater(entries[last], entries[i]);
      BeyondLater(e, entries[i], entries[last]);
    }
  }

  /** What a page is, in words about its entries. */
  lemma PageEntries(sight: Sight, position: Option<Position>)
    ensures var page := PageSeen(sight, position);
      && Sorted(BY_KEY, page)
      && forall i :: 0 <= i < |page| ==> page[i] in sight.feed && Beyond(page[i], position)
  {
    hide Page, Beyond, PairAtMost, IsDue;
    if sight.fetch.status != 304 {
      var page := PageSeen(sight, position);
      PageIsFirstDue(sight.feed, None, position, sight.limit);
      forall i | 0 <= i < |page|
        ensures page[i] in sight.feed && Beyond(page[i], position)
      {
        assert Placed(sight.feed, None, position, sight.limit, page, page[i]);
        DueIff(page[i], None, position);
        assert multiset(page)[page[i]] > 0;
      }
    }
  }

  /** Sorted entries with distinct external ids ascend. */
  lemma SortedAscends(page: seq<FeedEntry>)
    requires Sorted(BY_KEY, page)
    requires forall i, j :: 0 <= i < j < |page| ==> page[i].externalId != page[j].externalId
    ensures Ascending(page)
  {
    hide PairAtMost;
    forall i, j | 0 <= i < j < |page|
      ensures Beyond(page[j], Some(KeyOf(page[i])))
    {
      if PairAtMost(KeyOf(page[j]), KeyOf(page[i])) {
        assert BY_KEY(page[i], page[j]);
        PairAtMostAntisymmetric(KeyOf(page[i]), KeyOf(page[j]));
      }
    }
  }

  /** The documents of a batch have distinct ids, so its entries have distinct external ids. */
  lemma BatchAscends(env: Env, sight: Sight, position: Option<Position>, sourceId: Id, records: seq<RawDocument>,
                     now: string)
    requires ToDocuments(env, sourceId, PageSeen(sight, position), now) == Ok(records) && DistinctIds(records)
    ensures Ascending(PageSeen(sight, position))
  {
    hide ToDocuments, ToDocument, PageSeen, RawDocumentId;
    var page := PageSeen(sight, position);
    PageEntries(sight, position);
    MappedEntries(env, sourceId, page, now);
    forall i, j | 0 <= i < j < |page|
      ensures page[i].externalId != page[j].externalId
    {
      IdOfEntry(env, sourceId, page[i], now);
      IdOfEntry(env, sourceId, page[j], now);
    }
    SortedAscends(page);
  }

  lemma IdOfEntry(env: Env, sourceId: Id, e: FeedEntry, now: string)
    requires ToDocument(env, sourceId, e, now).Ok?
    ensures RawDocumentId(env, sourceId, e.externalId) == Some(ToDocument(env, sourceId, e, now).value.id)
  {
    hide RawDocumentId;
  }

  // ---- a connector run ----

  /** What a successful run on a checkpoint without a watermark returns. */
  lemma RunDelivers(env: Env, sourceId: Id, feed: seq<FeedEntry>, checkpoint: Option<IngestionCheckpoint>, limit: int,
                    fetch: Fetch, now: string)
    requires WatermarkOf(checkpoint) == None && DecodeCursor(CursorOf(checkpoint)).Ok?
    requires CollectSpec(env, sourceId, ResponseOf(fetch, feed), checkpoint, limit, now).Ok?
    ensures limit > 0
    ensures var batch := CollectSpec(env, sourceId, ResponseOf(fetch, feed), checkpoint, limit, now).value;
      var position := PositionAt(CursorOf(checkpoint));
      var page := PageSeen(Sight(feed, limit, fetch), position);
      && ToDocuments(env, sourceId, page, now) == Ok(batch.records) && batch.collectedAt == now
      && DecodeCursor(NextCheckpoint(sourceId, CONNECTOR, checkpoint, batch.nextCursor, now).cursor)
         == Ok(NextPosition(page, position))
  {
    hide DecodeCursor, EncodeCursor, ToDocuments, Page, ValidBatch;
    if fetch.status == 304 {
      NothingToMap(env, sourceId, now);
    } else {
      CursorOfPage(env, sourceId, PageSeen(Sight(feed, limit, fetch), PositionAt(CursorOf(checkpoint))), now,
                   CursorOf(checkpoint));
    }
  }

  lemma NothingToMap(env: Env, sourceId: Id, now: string)
    ensures ToDocuments(env, sourceId, [], now) == Ok([])
  {
  }

  /** The stored checkpoint has no watermark. */
  lemma NoWatermark(world: World, s: State, sourceId: Id)
    requires BaseInv(world, s)
    ensures WatermarkOf(GetCheckpoint(s.base.db, sourceId)) == None
  {
    hide Consistent, Derived, WorkExact, LogOk, BindingsOk, SourcesOk, PhaseSound, GetCheckpoint;
    assert HistoryOk(s.base.db, s.base.log, sourceId);
  }

  lemma NoCursor()
    ensures DecodeCursor(None) == Ok(None) && PositionAt(None) == None
  {
  }

  /** A command made by a run on the stored checkpoint delivers what the run saw. */
  lemma RunPrepares(world: World, s: State, sourceId: Id, limit: int, fetch: Fetch, collectedAt: string,
                    preparedAt: string)
    requires BaseInv(world, s) && FeedInv(world, s) && world.HasFeed(sourceId)
    requires RunRss(world.env, sourceId, FeedOf(s, sourceId), GetCheckpoint(s.base.db, sourceId), limit, fetch,
                    collectedAt, preparedAt).Ok?
    ensures limit > 0
    ensures var c := RunRss(world.env, sourceId, FeedOf(s, sourceId), GetCheckpoint(s.base.db, sourceId), limit, fetch,
                            collectedAt, preparedAt).value;
      FromSight(world.env, Sight(FeedOf(s, sourceId), limit, fetch), sourceId, c)
      && c.batch.collectedAt == collectedAt && Live(s.base.db, sourceId, c)
      && RunnerMade(world.env, CONNECTOR, sourceId, c)
  {
    hide DecodeCursor, CollectSpec, PrepareCommand, HistoryInv, RunnerMade, ToDocuments, PageSeen, Basis, NextPosition,
      NextCheckpoint, BaseInv, PhaseOk, EntriesExact, Ascending, GetCheckpoint, DeliveredIn, FeedOf;
    var feed, checkpoint := FeedOf(s, sourceId), GetCheckpoint(s.base.db, sourceId);
    var collected := CollectSpec(world.env, sourceId, ResponseOf(fetch, feed), checkpoint, limit, collectedAt);
    var c := RunRss(world.env, sourceId, feed, checkpoint, limit, fetch, collectedAt, preparedAt).value;
    MadeOfBatch(world.env, CONNECTOR, sourceId, checkpoint, limit, collected, preparedAt);
    MadeParts(world.env, CONNECTOR, sourceId, c);
    NoWatermark(world, s, sourceId);
    assert SourceOk(world.env, s.base.db, s.base.log, s.committed, sourceId);
    RunDelivers(world.env, sourceId, feed, checkpoint, limit, fetch, collectedAt);
  }

  // ---- a successful commit of a feed ----

  ghost predicate PageLands(world: World, s: State, i: nat, sourceId: Id, c: CollectionCommitCommand,
                            after: Database, r: CollectionCommitResult) {
    && FeedInv(world, s) && PhaseOf(s.base, i) == Ready(sourceId, c) && world.HasFeed(sourceId)
    && Lands(world.env, world.Connectors(), s.base, sourceId, c, after, r)
  }

  function PageOf(s: State, i: nat, sourceId: Id): seq<FeedEntry> {
    PageSeen(SightOf(s, i), PositionAfter(DeliveredOf(s, sourceId)))
  }

  /** The commit was prepared from the stored checkpoint, and its batch is the page behind what was delivered. */
  lemma PageMoves(world: World, s: State, i: nat, sourceId: Id, c: CollectionCommitCommand,
                  after: Database, r: CollectionCommitResult)
    requires PageLands(world, s, i, sourceId, c, after, r)
    ensures Live(s.base.db, sourceId, c) && StartOf(c) == PositionAfter(DeliveredOf(s, sourceId))
    ensures var page := PageOf(s, i, sourceId);
      && ToDocuments(world.env, sourceId, page, c.batch.collectedAt) == Ok(c.batch.records)
      && DecodeCursor(CursorOf(GetCheckpoint(after, sourceId))) == Ok(NextPosition(page, StartOf(c)))
    ensures DistinctIds(c.batch.records)
  {
    hide Lands, EntriesExact, FromSight, DecodeCursor, CheckpointMoved, GetCheckpoint, Basis, ValidCommand,
      DerivedCommand, CommitStored, DeliveredIn, PageSeen, Ascending, ToDocuments, NextPosition, DistinctIds;
    LandsOnCurrent(world.env, world.Connectors(), s.base, sourceId, c, after, r);
    CheckpointAfter(s.base.db, c, after, r.checkpoint);
    CommandDistinct(world.env, c);
    assert SourceOk(world.env, s.base.db, s.base.log, s.committed, sourceId);
    assert PhaseOk(world, s.base.db, PhaseOf(s.base, i), SightOf(s, i));
    SightPage(world.env, SightOf(s, i), sourceId, c);
  }

  lemma SightPage(env: Env, sight: Sight, sourceId: Id, c: CollectionCommitCommand)
    requires FromSight(env, sight, sourceId, c)
    ensures ToDocuments(env, sourceId, PageSeen(sight, StartOf(c)), c.batch.collectedAt) == Ok(c.batch.records)
    ensures DecodeCursor(c.nextCheckpoint.cursor) == Ok(NextPosition(PageSeen(sight, StartOf(c)), StartOf(c)))
  {
    hide ToDocuments, PageSeen, DecodeCursor, NextPosition;
  }

  /** A longer log, with what the run behind the new entry had seen. */
  lemma DeliveredNext(log: seq<Committed>, sights: seq<Sight>, entry: Committed, sight: Sight, x: Id)
    requires |log| == |sights|
    ensures var before := DeliveredIn(log, sights, x);
      DeliveredIn(log + [entry], sights + [sight], x)
      == if entry.sourceId == x then before + PageSeen(sight, PositionAfter(before)) else before
    ensures PagesTotal(log + [entry], x) == PagesTotal(log, x) + if entry.sourceId == x then entry.size else 0
  {
    hide PageSeen;
    assert (log + [entry])[..|log|] == log && (sights + [sight])[..|sights|] == sights;
  }

  /** The page's documents are stored as its entries. */
  lemma PageStored(env: Env, sourceId: Id, page: seq<FeedEntry>, now: string, records: seq<RawDocument>,
                   before: DocumentTable, after: DocumentTable)
    requires ToDocuments(env, sourceId, page, now) == Ok(records) && BatchAdded(before, records, after)
    ensures forall e :: e in page ==> EntryStored(env, after, sourceId, e)
    ensures forall key :: key in after.index && key !in before.index ==> HasExternalId(page, key.1)
  {
    hide ToDocuments, ToDocument, EntryOf, DocumentKeyOf, DerivedId, Stored, DocumentsExtend;
    EntriesOfPage(env, sourceId, page, now);
    forall e | e in page
      ensures EntryStored(env, after, sourceId, e)
    {
      var j :| 0 <= j < |page| && page[j] == e;
      assert EntriesOf(records)[j] == e;
      assert records[j] in records;
    }
    forall key | key in after.index && key !in before.index
      ensures HasExternalId(page, key.1)
    {
      var j :| 0 <= j < |records| && DocumentKeyOf(records[j]) == key;
      assert records[j] in records && EntriesOf(records)[j] == page[j];
    }
  }

  lemma EntryStays(env: Env, a: DocumentTable, b: DocumentTable, sourceId: Id, e: FeedEntry)
    requires EntryStored(env, a, sourceId, e) && DocumentsExtend(a, b)
    ensures EntryStored(env, b, sourceId, e)
  {
    hide IsEntry;
  }

  lemma ExactGrows(env: Env, before: DocumentTable, after: DocumentTable, sourceId: Id, entries: seq<FeedEntry>,
                   page: seq<FeedEntry>)
    requires EntriesExact(env, before, sourceId, entries) && DocumentsExtend(before, after)
    requires forall e :: e in page ==> EntryStored(env, after, sourceId, e)
    requires forall key :: key in after.index && key !in before.index && key.0 == sourceId ==> HasExternalId(page, key.1)
    ensures EntriesExact(env, after, sourceId, entries + page)
  {
    hide EntryStored, DocumentsExtend;
    forall e | e in entries + page
      ensures EntryStored(env, after, sourceId, e)
    {
      if e in entries {
        EntryStays(env, before, after, sourceId, e);
      }
    }
    forall key | key in after.index && key.0 == sourceId
      ensures HasExternalId(entries + page, key.1)
    {
      if key in before.index {
        var e :| e in entries && e.externalId == key.1;
        assert e in entries + page;
      } else {
        var e :| e in page && e.externalId == key.1;
        assert e in entries + page;
      }
    }
  }

  /** The committed source: what was delivered grows by the page. */
  lemma OwnSource(world: World, s: State, i: nat, sourceId: Id, c: CollectionCommitCommand,
                  after: Database, r: CollectionCommitResult)
    requires PageLands(world, s, i, sourceId, c, after, r)
    ensures SourceOk(world.env, after, s.base.log + [EntryFor(sourceId, c, r.checkpoint)],
                     s.committed + [SightOf(s, i)], sourceId)
  {
    hide Lands, EntriesExact, DecodeCursor, GetCheckpoint, Basis, DeliveredIn, PageSeen, Ascending, ToDocuments,
      NextPosition, PagesTotal, PhaseOk, BatchAdded, StartOf, DistinctIds, Live, EntryStored;
    PageMoves(world, s, i, sourceId, c, after, r);
    assert SourceOk(world.env, s.base.db, s.base.log, s.committed, sourceId);
    var entries, page := DeliveredOf(s, sourceId), PageOf(s, i, sourceId);
    DeliveredNext(s.base.log, s.committed, EntryFor(sourceId, c, r.checkpoint), SightOf(s, i), sourceId);
    BatchAscends(world.env, SightOf(s, i), PositionAfter(entries), sourceId, c.batch.records, c.batch.collectedAt);
    PageEntries(SightOf(s, i), PositionAfter(entries));
    AscendingAppend(entries, page);
    MappedEntries(world.env, sourceId, page, c.batch.collectedAt);
    CommitAdds(world.env, world.Connectors(), s.base, sourceId, c, after, r);
    PageStored(world.env, sourceId, page, c.batch.collectedAt, c.batch.records, s.base.db.documents, after.documents);
    AddedExtends(s.base.db.documents, c.batch.records, after.documents);
    ExactGrows(world.env, s.base.db.documents, after.documents, sourceId, entries, page);
  }

  lemma AddedExtends(before: DocumentTable, records: seq<RawDocument>, after: DocumentTable)
    requires BatchAdded(before, records, after)
    ensures DocumentsExtend(before, after)
  {
  }

  /** Any other source: nothing changes. */
  lemma OtherSource(env: Env, db: Database, log: seq<Committed>, sights: seq<Sight>, entry: Committed, sight: Sight,
                    after: Database, x: Id)
    requires |log| == |sights| && SourceOk(env, db, log, sights, x)
    requires x != entry.sourceId && OthersStay(db, entry.sourceId, after)
    ensures SourceOk(env, after, log + [entry], sights + [sight], x)
  {
    hide EntriesExact, DecodeCursor, GetCheckpoint, DeliveredIn, PageSeen, Ascending, NextPosition, PagesTotal,
      DocumentsExtend;
    DeliveredNext(log, sights, entry, sight, x);
    var entries := DeliveredIn(log, sights, x);
    ExactGrows(env, db.documents, after.documents, x, entries, []);
    assert entries + [] == entries;
  }

  // ---- every step, every run ----

  /** After a commit, the commands of its source that were prepared before are stale. */
  lemma PhaseStays(world: World, s: State, sourceId: Id, c: CollectionCommitCommand, after: Database,
                   r: CollectionCommitResult, phase: Phase, sight: Sight)
    requires PhaseSound(world, s.base.log, phase) && PhaseOk(world, s.base.db, phase, sight)
    requires Lands(world.env, world.Connectors(), s.base, sourceId, c, after, r)
    ensures PhaseOk(world, after, phase, sight)
  {
    hide Lands, RunnerMade, DerivedId, WasCommitted, FromSight, GetCheckpoint, Basis, OthersStay;
    BasisPassed(world.env, world.Connectors(), s.base, sourceId, c, after, r);
    CommitIsLocal(world.env, world.Connectors(), s.base, sourceId, c, after, r);
    OtherCheckpoints(s.base.db, sourceId, after);
  }

  lemma OtherCheckpoints(db: Database, sourceId: Id, after: Database)
    requires OthersStay(db, sourceId, after)
    ensures forall x :: x != sourceId ==> GetCheckpoint(after, x) == GetCheckpoint(db, x)
  {
    hide GetCheckpoint, DocumentsExtend;
  }

  lemma SourcesStay(world: World, s: State, i: nat, sourceId: Id, c: CollectionCommitCommand,
                    after: Database, r: CollectionCommitResult)
    requires FeedInv(world, s) && PhaseOf(s.base, i) == Ready(sourceId, c)
    requires Lands(world.env, world.Connectors(), s.base, sourceId, c, after, r)
    ensures forall x :: world.HasFeed(x) ==>
              SourceOk(world.env, after, s.base.log + [EntryFor(sourceId, c, r.checkpoint)],
                       s.committed + [SightOf(s, i)], x)
  {
    hide Lands, SourceOk, PhaseOk, OthersStay;
    CommitIsLocal(world.env, world.Connectors(), s.base, sourceId, c, after, r);
    forall x | world.HasFeed(x)
      ensures SourceOk(world.env, after, s.base.log + [EntryFor(sourceId, c, r.checkpoint)],
                       s.committed + [SightOf(s, i)], x)
    {
      if x == sourceId {
        OwnSource(world, s, i, sourceId, c, after, r);
      } else {
        OtherSource(world.env, s.base.db, s.base.log, s.committed, EntryFor(sourceId, c, r.checkpoint), SightOf(s, i),
                    after, x);
      }
    }
  }

  lemma OtherPhases(world: World, s: State, i: nat, j: nat)
    requires BaseInv(world, s) && FeedInv(world, s) && PhaseOf(s.base, i).Ready? && j != i
    ensures var t := Storing(world, s, i, PhaseOf(s.base, i));
            PhaseOk(world, t.base.db, PhaseOf(t.base, j), SightOf(t, j))
  {
    hide BaseInv, Commit, Lands, SourceOk, PhaseOk;
    var (sourceId, c) := (PhaseOf(s.base, i).sourceId, PhaseOf(s.base, i).command);
    assert PhaseOk(world, s.base.db, PhaseOf(s.base, j), SightOf(s, j));
    if Commit(world.env, s.base.db, c).Ok? {
      var (after, r) := Commit(world.env, s.base.db, c).value;
      SoundLands(world, s, i, sourceId, c);
      SoundPhase(world, s, j);
      PhaseStays(world, s, sourceId, c, after, r, PhaseOf(s.base, j), SightOf(s, j));
    }
  }

  lemma CommitKeepsFeeds(world: World, s: State, i: nat)
    requires BaseInv(world, s) && FeedInv(world, s) && PhaseOf(s.base, i).Ready?
    ensures FeedInv(world, Storing(world, s, i, PhaseOf(s.base, i)))
  {
    hide BaseInv, Commit, Lands, SourceOk, PhaseOk;
    var (sourceId, c) := (PhaseOf(s.base, i).sourceId, PhaseOf(s.base, i).command);
    var t := Storing(world, s, i, PhaseOf(s.base, i));
    forall j
      ensures PhaseOk(world, t.base.db, PhaseOf(t.base, j), SightOf(t, j))
    {
      if j == i {
        IdleOk(world, t.base.db, SightOf(t, j));
      } else {
        OtherPhases(world, s, i, j);
      }
    }
    if Commit(world.env, s.base.db, c).Ok? {
      SoundLands(world, s, i, sourceId, c);
      SourcesStay(world, s, i, sourceId, c, t.base.db, Commit(world.env, s.base.db, c).value.1);
    }
  }

  lemma IdleOk(world: World, db: Database, sight: Sight)
    ensures PhaseOk(world, db, Idle, sight)
  {
  }

  /** A coordinator may move to any phase that is in order, with what it saw. */
  lemma PhaseChangesTo(world: World, s: State, t: State, i: nat)
    requires FeedInv(world, s) && t.base.db == s.base.db && t.base.log == s.base.log && t.committed == s.committed
    requires forall j :: j != i ==> PhaseOf(t.base, j) == PhaseOf(s.base, j) && SightOf(t, j) == SightOf(s, j)
    requires PhaseOk(world, s.base.db, PhaseOf(t.base, i), SightOf(t, i))
    ensures FeedInv(world, t)
  {
    hide SourceOk, PhaseOk, PhaseOf, SightOf;
    forall j
      ensures PhaseOk(world, t.base.db, PhaseOf(t.base, j), SightOf(t, j))
    {
      assert PhaseOk(world, s.base.db, PhaseOf(s.base, j), SightOf(s, j));
    }
  }

  /** The run of a connector, on the stored checkpoint or on an older one. */
  lemma RunPhase(world: World, s: State, phase: Phase, limit: int, fetch: Fetch, collectedAt: string, preparedAt: string)
    requires BaseInv(world, s) && FeedInv(world, s) && phase.Planned? && phase.sourceId in world.sources
    requires RunSource(world, FeedOf(s, phase.sourceId), phase.sourceId, phase.checkpoint, limit, fetch, collectedAt,
                       preparedAt).Ok?
    ensures PhaseOk(world, s.base.db,
                    Ready(phase.sourceId, RunSource(world, FeedOf(s, phase.sourceId), phase.sourceId, phase.checkpoint,
                                                    limit, fetch, collectedAt, preparedAt).value),
                    Sight(FeedOf(s, phase.sourceId), if limit < 0 then 0 else limit, fetch))
  {
    hide BaseInv, FeedInv, RunFixture, RunRss, RunnerMade, FromSight, GetCheckpoint, Basis, FeedOf, DerivedId;
    RunDerived(world, FeedOf(s, phase.sourceId), phase.sourceId, phase.checkpoint, limit, fetch, collectedAt, preparedAt);
    if world.HasFeed(phase.sourceId) && phase.checkpoint == GetCheckpoint(s.base.db, phase.sourceId) {
      RunPrepares(world, s, phase.sourceId, limit, fetch, collectedAt, preparedAt);
    }
  }

  lemma CollectingKeepsFeeds(world: World, s: State, i: nat, phase: Phase, limit: int, fetch: Fetch,
                             collectedAt: string, preparedAt: string)
    requires BaseInv(world, s) && FeedInv(world, s) && phase.Planned? && phase.sourceId in world.sources
    ensures FeedInv(world, Collecting(world, s, i, phase, limit, fetch, collectedAt, preparedAt))
  {
    hide BaseInv, FeedInv, RunSource, PhaseOk, FeedOf;
    var t := Collecting(world, s, i, phase, limit, fetch, collectedAt, preparedAt);
    if RunSource(world, FeedOf(s, phase.sourceId), phase.sourceId, phase.checkpoint, limit, fetch, collectedAt,
                 preparedAt).Ok?
    {
      RunPhase(world, s, phase, limit, fetch, collectedAt, preparedAt);
    } else {
      IdleOk(world, s.base.db, SightOf(s, i));
    }
    PhaseChangesTo(world, s, t, i);
  }

  lemma StepKeepsInv(world: World, s: State, step: Step)
    requires BaseInv(world, s) && FeedInv(world, s)
    ensures FeedInv(world, Take(world, s, step))
  {
    hide BaseInv, FeedInv, PhaseOk, Collecting, Storing, GetCheckpoint;
    match step
    case Publish(sourceId, feed) =>
      PhaseOfInv(world, s, 0);
      PhaseChangesTo(world, s, Take(world, s, step), 0);
    case Read(i, sourceId) =>
      PhaseOfInv(world, s, i);
      NotReadyOk(world, s.base.db, Planned(sourceId, GetCheckpoint(s.base.db, sourceId)), SightOf(s, i));
      PhaseChangesTo(world, s, Take(world, s, step), i);
    case RunConnector(i, limit, fetch, collectedAt, preparedAt) =>
      var phase := PhaseOf(s.base, i);
      if phase.Planned? && phase.sourceId in world.sources {
        CollectingKeepsFeeds(world, s, i, phase, limit, fetch, collectedAt, preparedAt);
      }
    case CommitBatch(i) =>
      if PhaseOf(s.base, i).Ready? {
        CommitKeepsFeeds(world, s, i);
      }
    case Crash(i) =>
      IdleOk(world, s.base.db, SightOf(s, i));
      PhaseChangesTo(world, s, Take(world, s, step), i);
  }

  lemma PhaseOfInv(world: World, s: State, i: nat)
    requires FeedInv(world, s)
    ensures PhaseOk(world, s.base.db, PhaseOf(s.base, i), SightOf(s, i))
  {
    hide SourceOk, PhaseOk;
  }

  lemma NotReadyOk(world: World, db: Database, phase: Phase, sight: Sight)
    requires !phase.Ready?
    ensures PhaseOk(world, db, phase, sight)
  {
  }

  lemma {:induction false} RunsKeepInv(world: World, steps: seq<Step>)
    ensures BaseInv(world, Run(world, steps)) && FeedInv(world, Run(world, steps))
  {
    hide Take, BaseInv, FeedInv;
    RunsKeepBase(world, steps);
    if steps == [] {
      StartOk(world);
    } else {
      RunsKeepInv(world, steps[..|steps| - 1]);
      StepKeepsInv(world, Run(world, steps[..|steps| - 1]), steps[|steps| - 1]);
    }
  }

  lemma StartOk(world: World)
    ensures FeedInv(world, Start(world))
  {
    NoCursor();
  }

  // ---- exactness ----

  /** For each feed, the stored documents are exactly the delivered entries. */
  ghost predicate FeedsExact(world: World, s: State) {
    forall x :: world.HasFeed(x) ==> EntriesExact(world.env, s.base.db.documents, x, DeliveredOf(s, x))
  }

  /**
   * Exactly-once ingestion of feeds, for every interleaving with any coordinators and sources of
   * either connector, and whatever is published. At any time the stored documents of a feed are
   * exactly the entries that its commits delivered; the claims are exactly those of the documents;
   * each has its work item and every work item has its document.
   */
  lemma FeedsStoredExactly(world: World, steps: seq<Step>)
    ensures FeedsExact(world, Run(world, steps)) && TablesMatch(world, Run(world, steps).base.db)
  {
    hide Run, BaseInv, PhaseOk, EntriesExact, Ascending, DeliveredIn, DecodeCursor, TablesMatch;
    RunsKeepInv(world, steps);
    InvTables(world, Run(world, steps));
    var s := Run(world, steps);
    forall x | world.HasFeed(x)
      ensures EntriesExact(world.env, s.base.db.documents, x, DeliveredOf(s, x))
    {
      assert SourceOk(world.env, s.base.db, s.base.log, s.committed, x);
    }
  }

  /** The row of each delivered entry says what the entry says. */
  ghost predicate EntriesTold(world: World, s: State) {
    forall x, e :: world.HasFeed(x) && e in DeliveredOf(s, x) ==> RowTellsEntry(world.env, s.base.db.documents, x, e)
  }

  ghost predicate RowTellsEntry(env: Env, t: DocumentTable, x: Id, e: FeedEntry) {
    && (x, e.externalId) in t.index && t.index[(x, e.externalId)] in t.rows
    && TellsEntry(env, x, e, t.rows[t.index[(x, e.externalId)]])
  }

  /**
   * What is stored of the feeds, field by field: for every delivered entry a row under its key
   * with the entry's own address, time, title and content, and the content's hash.
   */
  lemma StoredAsPublished(world: World, steps: seq<Step>)
    ensures EntriesTold(world, Run(world, steps))
  {
    hide Run, TablesMatch, DeliveredOf, TellsEntry, ToDocument;
    FeedsStoredExactly(world, steps);
    var s := Run(world, steps);
    forall x, e | world.HasFeed(x) && e in DeliveredOf(s, x)
      ensures RowTellsEntry(world.env, s.base.db.documents, x, e)
    {
      assert EntryStored(world.env, s.base.db.documents, x, e);
      DocumentTellsEntry(world.env, x, e, s.base.db.documents.rows[s.base.db.documents.index[(x, e.externalId)]].retrievedAt);
    }
  }

  /** In order, each once, and the cursor behind the last; as many as the log and the tables have. */
  ghost predicate DeliveredOnce(s: State, sourceId: Id) {
    var entries := DeliveredOf(s, sourceId);
    && Ascending(entries) && PositionIn(s.base.db, sourceId) == PositionAfter(entries)
    && |entries| == PagesTotal(s.base.log, sourceId) == |SourceKeys(s.base.db, sourceId)|
  }

  /**
   * The delivered entries of a feed are in the order of their keys, each once; the cursor stands
   * behind the last of them, and there are as many stored documents.
   */
  lemma EachDeliveredOnce(world: World, steps: seq<Step>, sourceId: Id)
    requires world.HasFeed(sourceId)
    ensures DeliveredOnce(Run(world, steps), sourceId)
  {
    hide Run, BaseInv, PhaseOk, EntriesExact, Ascending, DeliveredIn, DecodeCursor, PagesTotal, SourceKeys;
    RunsKeepInv(world, steps);
    var s := Run(world, steps);
    assert SourceOk(world.env, s.base.db, s.base.log, s.committed, sourceId);
    InvTables(world, s);
    ExactCount(world.env, s.base.db, sourceId, DeliveredOf(s, sourceId));
  }

  function KeysOf(sourceId: Id, entries: seq<FeedEntry>): set<(Id, string)> {
    set i | 0 <= i < |entries| :: (sourceId, entries[i].externalId)
  }

  lemma ExactCount(env: Env, db: Database, sourceId: Id, entries: seq<FeedEntry>)
    requires EntriesExact(env, db.documents, sourceId, entries) && Ascending(entries)
    ensures |SourceKeys(db, sourceId)| == |entries|
  {
    hide IsEntry, Ascending;
    DifferentIds(env, db.documents, sourceId, entries);
    KeysCount(sourceId, entries);
    forall key | key in SourceKeys(db, sourceId)
      ensures key in KeysOf(sourceId, entries)
    {
      var e :| e in entries && e.externalId == key.1;
    }
    forall e | e in entries
      ensures (sourceId, e.externalId) in SourceKeys(db, sourceId)
    {
      assert EntryStored(env, db.documents, sourceId, e);
    }
    assert SourceKeys(db, sourceId) == KeysOf(sourceId, entries);
  }

  /** Two delivered entries with one external id would be one row. */
  lemma DifferentIds(env: Env, t: DocumentTable, sourceId: Id, entries: seq<FeedEntry>)
    requires EntriesExact(env, t, sourceId, entries) && Ascending(entries)
    ensures forall i, j :: 0 <= i < j < |entries| ==> entries[i].externalId != entries[j].externalId
  {
    hide ToDocument, PairAtMost;
    forall i, j | 0 <= i < j < |entries|
      ensures entries[i].externalId != entries[j].externalId
    {
      if entries[i].externalId == entries[j].externalId {
        assert EntryStored(env, t, sourceId, entries[i]) && EntryStored(env, t, sourceId, entries[j]);
        var row := t.rows[t.index[(sourceId, entries[i].externalId)]];
        DocumentOfEntry(env, sourceId, entries[i], row.retrievedAt);
        DocumentOfEntry(env, sourceId, entries[j], row.retrievedAt);
        assert Beyond(entries[j], Some(KeyOf(entries[i])));
        PairAtMostTotal(KeyOf(entries[i]), KeyOf(entries[i]));
      }
    }
  }

  lemma {:induction false} KeysCount(sourceId: Id, entries: seq<FeedEntry>)
    requires forall i, j :: 0 <= i < j < |entries| ==> entries[i].externalId != entries[j].externalId
    ensures |KeysOf(sourceId, entries)| == |entries|
  {
    if entries != [] {
      var last := |entries| - 1;
      KeysCount(sourceId, entries[..last]);
      assert KeysOf(sourceId, entries) == KeysOf(sourceId, entries[..last]) + {(sourceId, entries[last].externalId)};
    }
  }

  /** An entry's row has the id derived for the entry, and tells the entry. */
  lemma StoredUnder(env: Env, t: DocumentTable, sourceId: Id, e: FeedEntry)
    requires DocumentsOk(t) && EntryStored(env, t, sourceId, e)
    ensures var id := t.index[(sourceId, e.externalId)];
            RawDocumentId(env, sourceId, e.externalId) == Some(id) && EntryOf(t.rows[id]) == e
  {
    hide RawDocumentId, EntryOf, ToDocument;
    var row := t.rows[t.index[(sourceId, e.externalId)]];
    DocumentOfEntry(env, sourceId, e, row.retrievedAt);
  }

  /** Of the entries whose external ids agree up to outer space, at most one is ever delivered. */
  lemma OneOfTwoDelivered(world: World, steps: seq<Step>, sourceId: Id, a: FeedEntry, b: FeedEntry)
    requires world.HasFeed(sourceId) && Strip(a.externalId) == Strip(b.externalId)
    requires a in DeliveredOf(Run(world, steps), sourceId) && b in DeliveredOf(Run(world, steps), sourceId)
    ensures a == b
  {
    hide Run, BaseInv, PhaseOk, Ascending, DeliveredIn, DecodeCursor, EntriesExact, Strip;
    RunsKeepInv(world, steps);
    var s := Run(world, steps);
    assert SourceOk(world.env, s.base.db, s.base.log, s.committed, sourceId);
    InvDocuments(world, s);
    OneOfTwo(world.env, s.base.db.documents, sourceId, DeliveredOf(s, sourceId), a, b);
  }

  lemma InvDocuments(world: World, s: State)
    requires BaseInv(world, s)
    ensures Consistent(world.env, s.base.db) && Derived(world.env, s.base.db) && DocumentsOk(s.base.db.documents)
    ensures SourcesOk(world.Connectors(), s.base.db.documents)
  {
    hide Consistent, Derived, WorkExact, LogOk, BindingsOk, SourcesOk, HistoryOk, PhaseSound;
    DocumentsPart(world.env, s.base.db);
  }

  lemma OneOfTwo(env: Env, t: DocumentTable, sourceId: Id, entries: seq<FeedEntry>, a: FeedEntry, b: FeedEntry)
    requires DocumentsOk(t) && EntriesExact(env, t, sourceId, entries) && a in entries && b in entries
    requires Strip(a.externalId) == Strip(b.externalId)
    ensures a == b
  {
    hide EntryOf, EntryStored, DocumentsOk;
    assert EntryStored(env, t, sourceId, a) && EntryStored(env, t, sourceId, b);
    StoredUnder(env, t, sourceId, a);
    StoredUnder(env, t, sourceId, b);
  }

  // ---- as one collection after another ----

  /** What the runs behind the source's commits saw, in order. */
  function SightsOf(log: seq<Committed>, sights: seq<Sight>, sourceId: Id): seq<Sight>
    requires |log| == |sights|
  {
    if log == [] then []
    else
      var last := |log| - 1;
      SightsOf(log[..last], sights[..last], sourceId) + if log[last].sourceId == sourceId then [sights[last]] else []
  }

  function FeedsIn(sights: seq<Sight>): seq<seq<FeedEntry>> {
    seq(|sights|, i requires 0 <= i < |sights| => sights[i].feed)
  }

  /** An unchanged feed is a page of no entries. */
  function LimitsIn(sights: seq<Sight>): seq<nat> {
    seq(|sights|, i requires 0 <= i < |sights| => if sights[i].fetch.status == 304 then 0 else sights[i].limit)
  }

  /**
   * However the coordinators were interleaved, what a feed's commits delivered is what one
   * collection after another delivers that sees the same feeds with the same limits, and the
   * cursor stands where it then stands.
   */
  lemma {:induction false} OneAfterAnother(log: seq<Committed>, sights: seq<Sight>, sourceId: Id)
    requires |log| == |sights|
    ensures var seen := SightsOf(log, sights, sourceId);
      var entries := DeliveredIn(log, sights, sourceId);
      Collected(FeedsIn(seen), LimitsIn(seen)) == FeedDraining.Progress(entries, PositionAfter(entries))
  {
    hide Page;
    if log == [] {
      NothingCollected(FeedsIn([]), LimitsIn([]));
    } else {
      var last := |log| - 1;
      OneAfterAnother(log[..last], sights[..last], sourceId);
      if log[last].sourceId == sourceId {
        OneMore(SightsOf(log[..last], sights[..last], sourceId), sights[last],
                DeliveredIn(log[..last], sights[..last], sourceId));
      } else {
        assert SightsOf(log, sights, sourceId) == SightsOf(log[..last], sights[..last], sourceId);
      }
    }
  }

  lemma OneMore(seen: seq<Sight>, sight: Sight, entries: seq<FeedEntry>)
    requires Collected(FeedsIn(seen), LimitsIn(seen)) == FeedDraining.Progress(entries, PositionAfter(entries))
    ensures var all := entries + PageSeen(sight, PositionAfter(entries));
      Collected(FeedsIn(seen + [sight]), LimitsIn(seen + [sight])) == FeedDraining.Progress(all, PositionAfter(all))
  {
    hide Page;
    var feeds, limits := FeedsIn(seen + [sight]), LimitsIn(seen + [sight]);
    assert feeds[..|seen|] == FeedsIn(seen) && limits[..|seen|] == LimitsIn(seen);
    CollectedStep(feeds, limits);
    NoEntries(sight.feed, PositionAfter(entries));
  }

  lemma NoEntries(feed: seq<FeedEntry>, position: Option<Position>)
    ensures Page(feed, None, position, 0) == []
  {
  }
}
