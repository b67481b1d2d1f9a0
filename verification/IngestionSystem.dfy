/**
 * Any number of coordinators collecting any number of sources, filing manifests and feeds, into
 * one database, with their reads, connector runs and commits interleaved in every way, while the
 * feeds are published.
 */
module IngestionSystem {
  import opened Wrappers
  import opened IngestionModels
  import opened IngestionWork
  import opened WorkPayloadCodec
  import Json
  import opened Deduplication
  import opened IngestionTables
  import opened CollectionRunner
  import opened AtomicCommit
  import opened CollectionReplay
  import opened CheckpointHistory
  import opened FreshCommits
  import FilingFixture
  import RssConnector
  import FeedDocuments

  /** A source is registered with one connector; a feed has its entries at the start. */
  datatype Source = Manifest(fixture: FilingFixture.Fixture) | Feed(initial: seq<RssConnector.FeedEntry>)

  /** What never changes during a run. */
  datatype World = World(env: Env, sources: map<Id, Source>)
  {
    predicate HasManifest(sourceId: Id) {
      sourceId in sources && sources[sourceId].Manifest?
    }

    predicate HasFeed(sourceId: Id) {
      sourceId in sources && sources[sourceId].Feed?
    }

    function FixtureOf(sourceId: Id): FilingFixture.Fixture
      requires HasManifest(sourceId)
    {
      sources[sourceId].fixture
    }

    function Connectors(): map<Id, Connector> {
      map x | x in sources :: ConnectorOf(sources[x])
    }

    function InitialFeeds(): map<Id, seq<RssConnector.FeedEntry>> {
      map x | x in sources && sources[x].Feed? :: sources[x].initial
    }
  }

  function ConnectorOf(source: Source): Connector {
    if source.Manifest? then FilingFixture.CONNECTOR else RssConnector.CONNECTOR
  }

  /** An answer to the RSS connector: its body is the current feed unless it cannot be parsed. */
  datatype Fetch = Fetch(
    status: int, retryAfter: Option<real>, requestId: Option<string>, unparsed: Option<ConnectorFailure>)

  function ResponseOf(fetch: Fetch, feed: seq<RssConnector.FeedEntry>): RssConnector.Response {
    RssConnector.Response(fetch.status, fetch.retryAfter, fetch.requestId,
                          if fetch.unparsed.Some? then Err(fetch.unparsed.value) else Ok(feed))
  }

  /** What a run of the RSS connector was given. */
  datatype Sight = Sight(feed: seq<RssConnector.FeedEntry>, limit: nat, fetch: Fetch)

  /** Nothing was fetched. */
  const NO_SIGHT := Sight([], 0, Fetch(304, None, None, None))

  /**
   * The coordinators with the tables and the log, what each feed holds at the moment, what the
   * last connector run of each coordinator saw, and what the run behind each commit had seen.
   */
  datatype State = State(
    base: System, feeds: map<Id, seq<RssConnector.FeedEntry>>, sights: map<nat, Sight>, committed: seq<Sight>)

  /** The feed of a source as it is now; a manifest has none. */
  function FeedOf(s: State, sourceId: Id): seq<RssConnector.FeedEntry> {
    if sourceId in s.feeds then s.feeds[sourceId] else []
  }

  function SightOf(s: State, coordinator: nat): Sight {
    if coordinator in s.sights then s.sights[coordinator] else NO_SIGHT
  }

  /** `fetch` is only for feeds. */
  datatype Step =
    | Publish(sourceId: Id, feed: seq<RssConnector.FeedEntry>)
    | Read(coordinator: nat, sourceId: Id)
    | RunConnector(coordinator: nat, limit: int, fetch: Fetch, collectedAt: string, preparedAt: string)
    | CommitBatch(coordinator: nat)
    | Crash(coordinator: nat)

  function RunFixture(world: World, sourceId: Id, checkpoint: Option<IngestionCheckpoint>, limit: int,
                      collectedAt: string, preparedAt: string): Result<CollectionCommitCommand, CollectionFailure>
    requires world.HasManifest(sourceId)
  {
    PrepareCommand(world.env, sourceId, FilingFixture.CONNECTOR, checkpoint, limit,
                   FilingFixture.Collect(world.env, world.FixtureOf(sourceId), sourceId, checkpoint, limit, collectedAt),
                   preparedAt)
  }

  function RunRss(env: Env, sourceId: Id, feed: seq<RssConnector.FeedEntry>, checkpoint: Option<IngestionCheckpoint>,
                  limit: int, fetch: Fetch, collectedAt: string, preparedAt: string)
    : Result<CollectionCommitCommand, CollectionFailure>
  {
    PrepareCommand(env, sourceId, RssConnector.CONNECTOR, checkpoint, limit,
                   RssConnector.CollectSpec(env, sourceId, ResponseOf(fetch, feed), checkpoint, limit, collectedAt),
                   preparedAt)
  }

  /** The connector that the source is registered with, and the runner. */
  function RunSource(world: World, feed: seq<RssConnector.FeedEntry>, sourceId: Id,
                     checkpoint: Option<IngestionCheckpoint>, limit: int, fetch: Fetch, collectedAt: string,
                     preparedAt: string)
    : Result<CollectionCommitCommand, CollectionFailure>
    requires sourceId in world.sources
  {
    if world.HasManifest(sourceId) then RunFixture(world, sourceId, checkpoint, limit, collectedAt, preparedAt)
    else RunRss(world.env, sourceId, feed, checkpoint, limit, fetch, collectedAt, preparedAt)
  }

  function With(s: State, coordinator: nat, phase: Phase): State {
    s.(base := In(s.base, coordinator, phase))
  }

  function Collecting(world: World, s: State, i: nat, phase: Phase, limit: int, fetch: Fetch, collectedAt: string,
                      preparedAt: string): State
    requires phase.Planned? && phase.sourceId in world.sources
  {
    var feed := FeedOf(s, phase.sourceId);
    match RunSource(world, feed, phase.sourceId, phase.checkpoint, limit, fetch, collectedAt, preparedAt)
    case Ok(c) =>
      With(s, i, Ready(phase.sourceId, c)).(sights := s.sights[i := Sight(feed, if limit < 0 then 0 else limit, fetch)])
    case Err(_) => With(s, i, Idle)
  }

  /** A commit that adds to the log also adds what its run had seen. */
  function Storing(world: World, s: State, i: nat, phase: Phase): State
    requires phase.Ready?
  {
    var after := Committing(world.env, s.base, i, phase.sourceId, phase.command);
    s.(base := after,
       committed := if Commit(world.env, s.base.db, phase.command).Ok? then s.committed + [SightOf(s, i)] else s.committed)
  }

  /** One atomic step; a step that is not possible changes nothing. */
  function Take(world: World, s: State, step: Step): State {
    match step
    case Publish(sourceId, feed) => if sourceId in s.feeds then s.(feeds := s.feeds[sourceId := feed]) else s
    case Read(i, sourceId) =>
      if PhaseOf(s.base, i).Idle? && sourceId in world.sources
      then With(s, i, Planned(sourceId, GetCheckpoint(s.base.db, sourceId)))
      else s
    case RunConnector(i, limit, fetch, collectedAt, preparedAt) =>
      var phase := PhaseOf(s.base, i);
      if phase.Planned? && phase.sourceId in world.sources
      then Collecting(world, s, i, phase, limit, fetch, collectedAt, preparedAt)
      else s
    case CommitBatch(i) => if PhaseOf(s.base, i).Ready? then Storing(world, s, i, PhaseOf(s.base, i)) else s
    case Crash(i) => With(s, i, Idle)
  }

  function Start(world: World): State {
    State(START, world.InitialFeeds(), map[], [])
  }

  function Run(world: World, steps: seq<Step>): State {
    if steps == [] then Start(world)
    else Take(world, Run(world, steps[..|steps| - 1]), steps[|steps| - 1])
  }

  lemma RunStep(world: World, steps: seq<Step>, step: Step)
    ensures Run(world, steps + [step]) == Take(world, Run(world, steps), step)
  {
    hide Take;
    assert (steps + [step])[..|steps|] == steps;
  }

  lemma ThreeSteps(world: World, steps: seq<Step>, a: Step, b: Step, c: Step)
    ensures Run(world, steps + [a, b, c]) == Take(world, Take(world, Take(world, Run(world, steps), a), b), c)
  {
    hide Take, Run;
    RunStep(world, steps, a);
    RunStep(world, steps + [a], b);
    RunStep(world, steps + [a, b], c);
    assert steps + [a] + [b] == steps + [a, b] && steps + [a, b] + [c] == steps + [a, b, c];
  }

  /** The three steps of one coordinator's collection. */
  function Collection(i: nat, sourceId: Id, limit: int, fetch: Fetch, now: string): seq<Step> {
    [Read(i, sourceId), RunConnector(i, limit, fetch, now, now), CommitBatch(i)]
  }

  lemma ReadStep(world: World, s: State, i: nat, sourceId: Id)
    requires sourceId in world.sources && PhaseOf(s.base, i) == Idle
    ensures Take(world, s, Read(i, sourceId)) == With(s, i, Planned(sourceId, GetCheckpoint(s.base.db, sourceId)))
  {
    hide GetCheckpoint, Collecting, Storing;
  }

  /** Reading and running, on the stored checkpoint. */
  lemma ReadAndRun(world: World, s: State, i: nat, sourceId: Id, limit: int, fetch: Fetch, now: string)
    requires sourceId in world.sources && PhaseOf(s.base, i) == Idle
    ensures var read := With(s, i, Planned(sourceId, GetCheckpoint(s.base.db, sourceId)));
      Take(world, Take(world, s, Read(i, sourceId)), RunConnector(i, limit, fetch, now, now))
      == Collecting(world, read, i, Planned(sourceId, GetCheckpoint(s.base.db, sourceId)), limit, fetch, now, now)
  {
    hide GetCheckpoint, Collecting, Storing;
    ReadStep(world, s, i, sourceId);
  }

  // ---- what every run keeps ----

  ghost predicate PhaseSound(world: World, log: seq<Committed>, phase: Phase) {
    match phase
    case Idle => true
    case Planned(sourceId, checkpoint) =>
      sourceId in world.sources && (checkpoint.Some? ==> WasCommitted(log, sourceId, checkpoint.value))
    case Ready(sourceId, c) => Sound(world.env, world.Connectors(), log, sourceId, c)
  }

  ghost predicate BaseInv(world: World, s: State) {
    && HistoryInv(world.env, world.Connectors(), s.base)
    && (forall i :: i in s.base.phases ==> PhaseSound(world, s.base.log, s.base.phases[i]))
    && (forall x :: x in s.feeds <==> world.HasFeed(x))
    && |s.committed| == |s.base.log|
  }

  // ---- a connector run ----

  /** Every batch of a run has derived ids. */
  lemma RunDerived(world: World, feed: seq<RssConnector.FeedEntry>, sourceId: Id,
                   checkpoint: Option<IngestionCheckpoint>, limit: int, fetch: Fetch, collectedAt: string,
                   preparedAt: string)
    requires sourceId in world.sources
    requires RunSource(world, feed, sourceId, checkpoint, limit, fetch, collectedAt, preparedAt).Ok?
    ensures var c := RunSource(world, feed, sourceId, checkpoint, limit, fetch, collectedAt, preparedAt).value;
      && RunnerMade(world.env, world.Connectors()[sourceId], sourceId, c) && Basis(c) == checkpoint
      && c.batch.collectedAt == collectedAt && c.collectionWork.createdAt == preparedAt
      && forall d :: d in c.batch.records ==> DerivedId(world.env, d)
  {
    hide FilingFixture.Collect, RssConnector.CollectSpec, PrepareCommand, RunnerMade, DerivedId, Basis;
    if world.HasManifest(sourceId) {
      var fixture := world.FixtureOf(sourceId);
      MadeOfBatch(world.env, FilingFixture.CONNECTOR, sourceId, checkpoint, limit,
                  FilingFixture.Collect(world.env, fixture, sourceId, checkpoint, limit, collectedAt), preparedAt);
      FilingsDerived(world.env, fixture, sourceId, checkpoint, limit, collectedAt);
    } else {
      var response := ResponseOf(fetch, feed);
      MadeOfBatch(world.env, RssConnector.CONNECTOR, sourceId, checkpoint, limit,
                  RssConnector.CollectSpec(world.env, sourceId, response, checkpoint, limit, collectedAt), preparedAt);
      FeedDocuments.BatchDerived(world.env, sourceId, response, checkpoint, limit, collectedAt);
    }
  }

  lemma FilingsDerived(env: Env, fixture: FilingFixture.Fixture, sourceId: Id, checkpoint: Option<IngestionCheckpoint>,
                       limit: int, now: string)
    requires FilingFixture.Collect(env, fixture, sourceId, checkpoint, limit, now).Ok?
    ensures var batch := FilingFixture.Collect(env, fixture, sourceId, checkpoint, limit, now).value;
            batch.collectedAt == now && forall d :: d in batch.records ==> DerivedId(env, d)
  {
    hide FilingFixture.Collect, FilingFixture.ToDocument, FilingFixture.CursorPosition, FilingFixture.Filings, DerivedId;
    FilingFixture.CollectedPage(env, fixture, sourceId, checkpoint, limit, now);
    var batch := FilingFixture.Collect(env, fixture, sourceId, checkpoint, limit, now).value;
    var start := FilingFixture.CursorPosition(CursorOf(checkpoint)).value;
    forall d | d in batch.records
      ensures DerivedId(env, d)
    {
      var i :| 0 <= i < |batch.records| && batch.records[i] == d;
      FilingDerived(env, fixture.files, sourceId, FilingFixture.Filings(fixture)[start + i], now);
    }
  }

  lemma FilingDerived(env: Env, files: map<string, FilingFixture.ContentFile>, sourceId: Id,
                      item: FilingFixture.FilingRecord, now: string)
    requires FilingFixture.ToDocument(env, files, sourceId, item, now).Ok?
    ensures var d := FilingFixture.ToDocument(env, files, sourceId, item, now).value;
      DerivedId(env, d) && DocumentKeyOf(d) == (sourceId, FilingFixture.ExternalId(item)) && d.retrievedAt == now
  {
  }

  // ---- every step, every run ----

  lemma SoundStays(world: World, log: seq<Committed>, longer: seq<Committed>, phase: Phase)
    requires PhaseSound(world, log, phase)
    requires forall x, k :: WasCommitted(log, x, k) ==> WasCommitted(longer, x, k)
    ensures PhaseSound(world, longer, phase)
  {
    hide RunnerMade, WasCommitted, DerivedId, Basis;
  }

  lemma SoundPhase(world: World, s: State, i: nat)
    requires BaseInv(world, s)
    ensures PhaseSound(world, s.base.log, PhaseOf(s.base, i))
  {
    hide HistoryInv, Sound, WasCommitted;
  }

  lemma PhaseChanges(world: World, s: State, i: nat, phase: Phase)
    requires BaseInv(world, s) && PhaseSound(world, s.base.log, phase)
    ensures BaseInv(world, With(s, i, phase))
  {
    hide LogOk, BindingsOk, SourcesOk, Consistent, Derived, WorkExact, HistoryOk, PhaseSound;
  }

  /** The command of a sound phase lands when it is committed. */
  lemma SoundLands(world: World, s: State, i: nat, sourceId: Id, c: CollectionCommitCommand)
    requires BaseInv(world, s) && PhaseOf(s.base, i) == Ready(sourceId, c)
    requires Commit(world.env, s.base.db, c).Ok?
    ensures var (after, r) := Commit(world.env, s.base.db, c).value;
            Lands(world.env, world.Connectors(), s.base, sourceId, c, after, r)
    ensures sourceId in world.sources
  {
    hide HistoryInv, Commit, WasCommitted, RunnerMade, DerivedId, Basis;
    SoundPhase(world, s, i);
    assert PhaseSound(world, s.base.log, Ready(sourceId, c));
    assert Sound(world.env, world.Connectors(), s.base.log, sourceId, c);
    var (after, r) := Commit(world.env, s.base.db, c).value;
    assert Commit(world.env, s.base.db, c) == Ok((after, r));
  }

  lemma StoringKeeps(world: World, s: State, i: nat)
    requires BaseInv(world, s) && PhaseOf(s.base, i).Ready?
    ensures BaseInv(world, Storing(world, s, i, PhaseOf(s.base, i)))
  {
    hide HistoryInv, Commit, WasCommitted, Sound, PhaseSound, Lands;
    var (sourceId, c) := (PhaseOf(s.base, i).sourceId, PhaseOf(s.base, i).command);
    IdleSound(world, s.base.log);
    if Commit(world.env, s.base.db, c).Ok? {
      var (after, r) := Commit(world.env, s.base.db, c).value;
      SoundLands(world, s, i, sourceId, c);
      HistoryStays(world.env, world.Connectors(), s.base, i, sourceId, c, after, r);
      var longer := s.base.log + [EntryFor(sourceId, c, r.checkpoint)];
      IdleSound(world, longer);
      forall phase | PhaseSound(world, s.base.log, phase)
        ensures PhaseSound(world, longer, phase)
      {
        SoundStays(world, s.base.log, longer, phase);
      }
    } else {
      PhaseChanges(world, s, i, Idle);
    }
  }

  lemma IdleSound(world: World, log: seq<Committed>)
    ensures PhaseSound(world, log, Idle)
  {
  }

  lemma ReadSound(world: World, s: State, sourceId: Id)
    requires BaseInv(world, s) && sourceId in world.sources
    ensures PhaseSound(world, s.base.log, Planned(sourceId, GetCheckpoint(s.base.db, sourceId)))
  {
    hide Consistent, Derived, BindingsOk, SourcesOk, HistoryOk, WorkExact, EntryOk, PhaseSound;
    PlannedSound(world, s.base, sourceId);
  }

  lemma PlannedSound(world: World, s: System, sourceId: Id)
    requires LogOk(s.db, s.log) && sourceId in world.sources
    ensures PhaseSound(world, s.log, Planned(sourceId, GetCheckpoint(s.db, sourceId)))
  {
    hide EntryOk;
  }

  lemma RunSound(world: World, s: State, phase: Phase, limit: int, fetch: Fetch, collectedAt: string, preparedAt: string)
    requires phase.Planned? && PhaseSound(world, s.base.log, phase) && phase.sourceId in world.sources
    requires RunSource(world, FeedOf(s, phase.sourceId), phase.sourceId, phase.checkpoint, limit, fetch, collectedAt,
                       preparedAt).Ok?
    ensures PhaseSound(world, s.base.log,
                       Ready(phase.sourceId, RunSource(world, FeedOf(s, phase.sourceId), phase.sourceId,
                                                       phase.checkpoint, limit, fetch, collectedAt, preparedAt).value))
  {
    hide RunSource, RunnerMade, DerivedId, WasCommitted, Basis;
    RunDerived(world, FeedOf(s, phase.sourceId), phase.sourceId, phase.checkpoint, limit, fetch, collectedAt, preparedAt);
  }

  lemma CollectingKeeps(world: World, s: State, i: nat, phase: Phase, limit: int, fetch: Fetch, collectedAt: string,
                        preparedAt: string)
    requires BaseInv(world, s) && phase.Planned? && PhaseSound(world, s.base.log, phase)
    requires phase.sourceId in world.sources
    ensures BaseInv(world, Collecting(world, s, i, phase, limit, fetch, collectedAt, preparedAt))
  {
    hide HistoryInv, RunSource, PhaseSound;
    IdleSound(world, s.base.log);
    var made := RunSource(world, FeedOf(s, phase.sourceId), phase.sourceId, phase.checkpoint, limit, fetch, collectedAt,
                          preparedAt);
    PhaseChanges(world, s, i, Idle);
    if made.Ok? {
      RunSound(world, s, phase, limit, fetch, collectedAt, preparedAt);
      PhaseChanges(world, s, i, Ready(phase.sourceId, made.value));
    }
  }

  lemma StepKeepsBase(world: World, s: State, step: Step)
    requires BaseInv(world, s)
    ensures BaseInv(world, Take(world, s, step))
  {
    hide HistoryInv, PhaseSound, Collecting, Storing, GetCheckpoint;
    match step
    case Publish(sourceId, feed) =>
    case Read(i, sourceId) =>
      if PhaseOf(s.base, i).Idle? && sourceId in world.sources {
        ReadSound(world, s, sourceId);
        PhaseChanges(world, s, i, Planned(sourceId, GetCheckpoint(s.base.db, sourceId)));
      }
    case RunConnector(i, limit, fetch, collectedAt, preparedAt) =>
      var phase := PhaseOf(s.base, i);
      if phase.Planned? && phase.sourceId in world.sources {
        SoundPhase(world, s, i);
        CollectingKeeps(world, s, i, phase, limit, fetch, collectedAt, preparedAt);
      }
    case CommitBatch(i) =>
      if PhaseOf(s.base, i).Ready? {
        StoringKeeps(world, s, i);
      }
    case Crash(i) =>
      IdleSound(world, s.base.log);
      PhaseChanges(world, s, i, Idle);
  }

  lemma {:induction false} RunsKeepBase(world: World, steps: seq<Step>)
    ensures BaseInv(world, Run(world, steps))
  {
    hide Take, BaseInv;
    if steps == [] {
      StartBase(world);
    } else {
      RunsKeepBase(world, steps[..|steps| - 1]);
      StepKeepsBase(world, Run(world, steps[..|steps| - 1]), steps[|steps| - 1]);
    }
  }

  lemma StartBase(world: World)
    ensures BaseInv(world, Start(world))
  {
    hide HistoryInv;
    StartHistory(world.env, world.Connectors());
  }

  // ---- the whole database ----

  /** The claims are exactly those of the documents, each has its work, and all work has its document. */
  ghost predicate TablesMatch(world: World, db: Database) {
    && ClaimsMatch(world.env, db.documents.rows, db.claims)
    && (forall id :: id in db.documents.rows ==>
          && WorkBound(db.work, DocumentWork(world.env, id, ""))
          && db.documents.rows[id].id == id && db.documents.rows[id].sourceId in world.sources
          && DocumentKeyOf(db.documents.rows[id]) in db.documents.index)
    && (forall id :: id in db.work.rows ==> NamesStored(world.env, db.documents.rows.Keys, id, db.work.rows[id]))
  }

  lemma InvTables(world: World, s: State)
    requires BaseInv(world, s)
    ensures TablesMatch(world, s.base.db)
  {
    hide ClaimsMatch, WorkBound, NamesStored, LogOk, PhaseSound, HistoryOk, BindingsOk, DerivedDocuments;
  }

  /**
   * A stored checkpoint tells its history, whatever the connector: its revision counts the
   * successful commits of the source, its success time is that of the last one, and no watermark
   * ever appears.
   */
  lemma CheckpointTellsHistory(world: World, steps: seq<Step>, sourceId: Id)
    ensures HistoryOk(Run(world, steps).base.db, Run(world, steps).base.log, sourceId)
  {
    hide Run, PhaseSound, Consistent, Derived, WorkExact, BindingsOk, SourcesOk, LogOk, HistoryOk;
    RunsKeepBase(world, steps);
  }

  // ---- the work of the documents ----

  /** The digest that names the work of a document. */
  function HandoffDigest(env: Env, documentId: Id): string {
    env.hash("handoff-v1" + [0 as char] + "document" + [0 as char] + documentId)
  }

  /** The row of the work that hands the document on, due since it was made. */
  ghost predicate HandedOff(env: Env, t: WorkTable, documentId: Id) {
    var (id, key) := ("work_" + HandoffDigest(env, documentId), "document:" + HandoffDigest(env, documentId));
    && id in t.rows
    && t.rows[id].kind == DocumentProcessing && t.rows[id].idempotencyKey == key
    && t.rows[id].payloadJson == "{" + (Json.Quote("document_id") + ":" + Json.Quote(documentId) + "}")
    && t.rows[id].payloadSchemaVersion == "1.0.0" && t.rows[id].availableAt == t.rows[id].createdAt
    && (DocumentProcessing, key) in t.index && t.index[(DocumentProcessing, key)] == id
  }

  lemma DocumentWorkRow(env: Env, documentId: Id, now: string)
    ensures var (w, digest) := (DocumentWork(env, documentId, now), HandoffDigest(env, documentId));
      && w.payload == DocumentPayload(documentId) && w.id == "work_" + digest
      && WorkKeyOf(w) == (DocumentProcessing, "document:" + digest)
      && RowOf(w) == WorkRow(DocumentProcessing, EncodePayload(DocumentPayload(documentId)), "1.0.0",
                             "document:" + digest, now, now)
  {
    hide EncodePayload;
  }

  lemma DocumentJson(documentId: Id)
    ensures EncodePayload(DocumentPayload(documentId))
         == "{" + (Json.Quote("document_id") + ":" + Json.Quote(documentId) + "}")
  {
    hide Json.Quote;
    var members := [("document_id", Json.Str(documentId))];
    assert Json.Write(Json.Obj(members)) == "{" + Json.WriteMembers(members);
    assert Json.Write(Json.Str(documentId)) == Json.Quote(documentId);
  }

  /** The document whose work is stored in a row. */
  lemma NamedDocument(env: Env, documents: set<Id>, id: Id, row: WorkRow) returns (documentId: Id)
    requires NamesStored(env, documents, id, row)
    ensures documentId in documents && id == "work_" + HandoffDigest(env, documentId)
    ensures row == WorkRow(DocumentProcessing, EncodePayload(DocumentPayload(documentId)), "1.0.0",
                           "document:" + HandoffDigest(env, documentId), row.createdAt, row.createdAt)
  {
    hide DocumentWork, RowOf, HandoffDigest, EncodePayload;
    documentId :| documentId in documents && id == DocumentWork(env, documentId, row.createdAt).id
                  && row == RowOf(DocumentWork(env, documentId, row.createdAt));
    DocumentWorkRow(env, documentId, row.createdAt);
  }

  lemma WorkIsHandoff(env: Env, db: Database, documentId: Id)
    requires WorkOk(env, db.work) && Derived(env, db) && WorkExact(env, db) && documentId in db.documents.rows
    ensures HandedOff(env, db.work, documentId)
  {
    hide DocumentWork, RowOf, HandoffDigest, Json.Quote, Written, DerivedDocuments, EncodePayload, NamesStored;
    DocumentWorkRow(env, documentId, "");
    DocumentJson(documentId);
    var w := DocumentWork(env, documentId, "");
    assert WorkBound(db.work, w);
    var id := db.work.index[WorkKeyOf(w)];
    var d := NamedDocument(env, db.documents.rows.Keys, id, db.work.rows[id]);
    SameDigest("document:", HandoffDigest(env, d), HandoffDigest(env, documentId));
  }

  lemma SameDigest(prefix: string, a: string, b: string)
    requires prefix + a == prefix + b
    ensures a == b
  {
    PrefixInjective(prefix, a, b);
  }

  /** In every run, each stored document has its work, and no other work is stored. */
  lemma DocumentsHandedOff(world: World, steps: seq<Step>)
    ensures var db := Run(world, steps).base.db;
      && (forall id :: id in db.documents.rows ==> HandedOff(world.env, db.work, id))
      && (forall w :: w in db.work.rows ==>
            exists id :: id in db.documents.rows && w == "work_" + HandoffDigest(world.env, id))
  {
    hide Run, PhaseSound, LogOk, BindingsOk, SourcesOk, HistoryOk, HandedOff, WorkOk, DocumentsOk, ClaimsOk, WorkExact,
         HandoffDigest, NamesStored, DerivedDocuments;
    RunsKeepBase(world, steps);
    var db := Run(world, steps).base.db;
    forall id | id in db.documents.rows
      ensures HandedOff(world.env, db.work, id)
    {
      WorkIsHandoff(world.env, db, id);
    }
    forall w | w in db.work.rows
      ensures exists id :: id in db.documents.rows && w == "work_" + HandoffDigest(world.env, id)
    {
      var d := NamedDocument(world.env, db.documents.rows.Keys, w, db.work.rows[w]);
    }
  }

  ghost predicate RevisionsOnce(log: seq<Committed>) {
    forall i, j :: 0 <= i < j < |log| && log[i].sourceId == log[j].sourceId ==> log[i].expected != log[j].expected
  }

  /** No two successful commits of a source expected the same revision, whatever the connector. */
  lemma OneCommitPerRevision(world: World, steps: seq<Step>)
    ensures RevisionsOnce(Run(world, steps).base.log)
  {
    hide Run, Consistent, Derived, PhaseSound, WorkExact, BindingsOk, SourcesOk, HistoryOk, GetCheckpoint;
    RunsKeepBase(world, steps);
    var log := Run(world, steps).base.log;
    forall i, j | 0 <= i < j < |log| && log[i].sourceId == log[j].sourceId
      ensures log[i].expected != log[j].expected
    {
      assert log[i].checkpoint.revision < log[j].checkpoint.revision;
    }
  }

  // ---- the log ----

  function PagesTotal(log: seq<Committed>, sourceId: Id): nat {
    if log == [] then 0
    else
      var last := log[|log| - 1];
      PagesTotal(log[..|log| - 1], sourceId) + (if last.sourceId == sourceId then last.size else 0)
  }

  /** Under which identities documents of the source are stored. */
  function SourceKeys(db: Database, sourceId: Id): set<(Id, string)> {
    set key | key in db.documents.index && key.0 == sourceId
  }

  /** Digests are good and source ids can be told apart in their input; nothing is asked of what sources hold. */
  ghost predicate NamedWorld(world: World) {
    GoodHash(world.env) && forall x :: x in world.sources ==> x != "" && NoNul(x)
  }

  /** The stored checkpoint was committed. */
  lemma CurrentCommitted(world: World, s: State, sourceId: Id)
    requires BaseInv(world, s)
    ensures GetCheckpoint(s.base.db, sourceId).Some? ==>
              WasCommitted(s.base.log, sourceId, GetCheckpoint(s.base.db, sourceId).value)
  {
    hide PhaseSound, Consistent, Derived, BindingsOk, SourcesOk, WorkExact, HistoryOk, WasCommitted, EntryOk;
  }
}
