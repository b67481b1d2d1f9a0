/** Collection work, document work and the command that one connector run becomes. */
module CollectionRunner {
  import opened Wrappers
  import opened IngestionModels
  import opened IngestionWork
  import opened WorkPayloadCodec
  import opened Deduplication
  import opened IngestionTables
  import opened SqliteStore
  import Decimal

  datatype Connector = Connector(name: string, version: string)

  datatype CollectionFailure =
    | ConnectorFailed(kind: ConnectorFailure)
    | InvalidCollection
    | PersistenceFailed(error: PersistenceError)

  // ---- work ----

  function CursorPart(checkpoint: Option<IngestionCheckpoint>): string {
    match checkpoint
    case None => ""
    case Some(c) => if c.cursor.None? then "None" else c.cursor.value
  }

  function RevisionPart(checkpoint: Option<IngestionCheckpoint>): string {
    if checkpoint.None? then "new" else Decimal.FromInt(checkpoint.value.revision)
  }

  function CollectionKey(env: Env, sourceId: Id, connector: Connector,
                         checkpoint: Option<IngestionCheckpoint>, limit: int): string {
    env.hash(HANDOFF_VERSION + NUL + "collection" + NUL + sourceId + NUL + connector.name + NUL
             + connector.version + NUL + CursorPart(checkpoint) + NUL + RevisionPart(checkpoint)
             + NUL + Decimal.FromInt(limit))
  }

  /** Parts joined by NUL, from the second-last NUL on. */
  lemma JoinsLater(front: string, part: string, rest: string)
    ensures front + part + NUL + rest == front + (part + NUL + rest)
  {
  }

  /** The text behind a collection key as a chain of parts, each of which ends at the next NUL. */
  lemma KeyText(p: string, s: string, n: string, v: string, c: string, r: string, l: string)
    ensures p + s + NUL + n + NUL + v + NUL + c + NUL + r + NUL + l
         == p + (s + NUL + (n + NUL + (v + NUL + (c + NUL + (r + NUL + l)))))
  {
    JoinsLater(p + s + NUL + n + NUL + v + NUL + c + NUL, r, l);
    JoinsLater(p + s + NUL + n + NUL + v + NUL, c, r + NUL + l);
    JoinsLater(p + s + NUL + n + NUL, v, c + NUL + (r + NUL + l));
    JoinsLater(p + s + NUL, n, v + NUL + (c + NUL + (r + NUL + l)));
    JoinsLater(p, s, n + NUL + (v + NUL + (c + NUL + (r + NUL + l))));
  }

  /** The two collections start alike; no cursor counts as the cursor `None`. */
  predicate SameStart(a: Option<IngestionCheckpoint>, b: Option<IngestionCheckpoint>) {
    if a.None? || b.None? then a.None? && b.None?
    else
      && a.value.revision == b.value.revision
      && (a.value.cursor == b.value.cursor || {a.value.cursor, b.value.cursor} == {None, Some("None")})
  }

  predicate PlainParts(sourceId: Id, connector: Connector, checkpoint: Option<IngestionCheckpoint>) {
    NoNul(sourceId) && NoNul(connector.name) && NoNul(connector.version) && NoNul(CursorPart(checkpoint))
    && (checkpoint.Some? ==> checkpoint.value.revision >= 0)
  }

  /**
   * Without digest collisions and NUL characters, two collections share their key, and so their
   * work item, exactly when source, connector, start and limit are the same.
   */
  lemma CollectionKeyInjective(env: Env, s1: Id, c1: Connector, p1: Option<IngestionCheckpoint>, l1: int,
                               s2: Id, c2: Connector, p2: Option<IngestionCheckpoint>, l2: int)
    requires CollisionFree(env) && PlainParts(s1, c1, p1) && PlainParts(s2, c2, p2)
    ensures CollectionKey(env, s1, c1, p1, l1) == CollectionKey(env, s2, c2, p2, l2)
       <==> s1 == s2 && c1 == c2 && SameStart(p1, p2) && l1 == l2
  {
    hide Decimal.FromInt, CursorPart, RevisionPart, NoNul, SameStart;
    var p := HANDOFF_VERSION + NUL + "collection" + NUL;
    var (x1, r1, m1) := (CursorPart(p1), RevisionPart(p1), Decimal.FromInt(l1));
    var (x2, r2, m2) := (CursorPart(p2), RevisionPart(p2), Decimal.FromInt(l2));
    KeyText(p, s1, c1.name, c1.version, x1, r1, m1);
    KeyText(p, s2, c2.name, c2.version, x2, r2, m2);
    StartParts(p1, p2);
    LimitText(l1, l2);
    if CollectionKey(env, s1, c1, p1, l1) == CollectionKey(env, s2, c2, p2, l2) {
      var (t1, t2) := (r1 + NUL + m1, r2 + NUL + m2);
      var (u1, u2) := (x1 + NUL + t1, x2 + NUL + t2);
      var (v1, v2) := (c1.version + NUL + u1, c2.version + NUL + u2);
      var (w1, w2) := (c1.name + NUL + v1, c2.name + NUL + v2);
      PrefixInjective(p, s1 + NUL + w1, s2 + NUL + w2);
      PairInjective(s1, w1, s2, w2);
      PairInjective(c1.name, v1, c2.name, v2);
      PairInjective(c1.version, u1, c2.version, u2);
      PairInjective(x1, t1, x2, t2);
      PairInjective(r1, m1, r2, m2);
    }
  }

  lemma LimitText(a: int, b: int)
    ensures Decimal.FromInt(a) == Decimal.FromInt(b) <==> a == b
  {
    hide Decimal.FromInt;
    Decimal.ReadIntRoundTrip(a);
    Decimal.ReadIntRoundTrip(b);
  }

  lemma StartParts(a: Option<IngestionCheckpoint>, b: Option<IngestionCheckpoint>)
    requires (a.Some? ==> a.value.revision >= 0) && (b.Some? ==> b.value.revision >= 0)
    ensures CursorPart(a) == CursorPart(b) && RevisionPart(a) == RevisionPart(b) <==> SameStart(a, b)
    ensures NoNul(RevisionPart(a)) && NoNul(RevisionPart(b))
  {
    hide Decimal.FromInt;
    RevisionText(a);
    RevisionText(b);
    if a.Some? && b.Some? {
      LimitText(a.value.revision, b.value.revision);
    }
  }

  /** A revision is written in digits, unlike the word for a new checkpoint. */
  lemma RevisionText(checkpoint: Option<IngestionCheckpoint>)
    requires checkpoint.Some? ==> checkpoint.value.revision >= 0
    ensures NoNul(RevisionPart(checkpoint)) && (RevisionPart(checkpoint) == "new" <==> checkpoint.None?)
  {
    hide Decimal.Digits, Decimal.Value;
    if checkpoint.Some? {
      Decimal.DigitsRoundTrip(checkpoint.value.revision);
      assert "new"[0] == 'n';
    }
  }

  /** `prepare_collection_work`; an error stands for the ValueError of the work item. */
  function PrepareCollectionWork(env: Env, sourceId: Id, connector: Connector,
                                 checkpoint: Option<IngestionCheckpoint>, limit: int, now: string)
    : Result<WorkItem, CollectionFailure>
  {
    var key := CollectionKey(env, sourceId, connector, checkpoint, limit);
    var w := WorkItem(CollectionPayload(sourceId, connector.name, connector.version, checkpoint, limit),
                      "work_" + key, "collection:" + key, now, SCHEMA_VERSION);
    if ValidWorkItem(env, w) then Ok(w) else Err(InvalidCollection)
  }

  /**
   * The work of a collection says what is collected and from where. It exists for a source with an
   * id, a named connector and a positive limit, unless its checkpoint is of another source or
   * version.
   */
  lemma CollectionWorkIff(env: Env, sourceId: Id, connector: Connector, checkpoint: Option<IngestionCheckpoint>,
                          limit: int, now: string)
    ensures var r := PrepareCollectionWork(env, sourceId, connector, checkpoint, limit, now);
      && (r.Ok? <==>
            && sourceId != "" && connector.name != "" && connector.version != "" && limit > 0
            && (checkpoint.Some? ==>
                  && ValidCheckpoint(env, checkpoint.value)
                  && (checkpoint.value.sourceId, checkpoint.value.connectorVersion) == (sourceId, connector.version)))
      && (r.Err? ==> r == Err(InvalidCollection))
      && (r.Ok? ==>
            var key := CollectionKey(env, sourceId, connector, checkpoint, limit);
            r.value == WorkItem(CollectionPayload(sourceId, connector.name, connector.version, checkpoint, limit),
                                "work_" + key, "collection:" + key, now, "1.0.0"))
  {
    hide CollectionKey, ValidCheckpoint;
  }

  function DocumentWork(env: Env, documentId: Id, now: string): WorkItem {
    var key := DocumentKey(env, documentId);
    WorkItem(DocumentPayload(documentId), "work_" + key, "document:" + key, now, SCHEMA_VERSION)
  }

  /** One work item per accepted document. */
  function DocumentWorkItems(env: Env, accepted: seq<RawDocument>, now: string): seq<WorkItem> {
    seq(|accepted|, i requires 0 <= i < |accepted| => DocumentWork(env, accepted[i].id, now))
  }

  function NextCheckpoint(sourceId: Id, connector: Connector, current: Option<IngestionCheckpoint>,
                          nextCursor: Option<string>, collectedAt: string): IngestionCheckpoint {
    match current
    case None =>
      IngestionCheckpoint(sourceId, nextCursor, None, Some(collectedAt), connector.version, 0, SCHEMA_VERSION)
    case Some(c) =>
      c.(sourceId := sourceId, cursor := if nextCursor.Some? then nextCursor else c.cursor,
         lastSuccessAt := Some(collectedAt), connectorVersion := connector.version)
  }

  /** The command for one complete batch. */
  function CommandOf(env: Env, sourceId: Id, connector: Connector, checkpoint: Option<IngestionCheckpoint>,
                     work: WorkItem, batch: CollectionBatch, now: string): CollectionCommitCommand {
    CollectionCommitCommand(
      work, batch, if checkpoint.None? then None else Some(checkpoint.value.revision),
      NextCheckpoint(sourceId, connector, checkpoint, batch.nextCursor, batch.collectedAt),
      DocumentWorkItems(env, FirstOccurrences(batch.records, {}), now))
  }

  /**
   * What `CollectionCoordinator.collect` does between reading the checkpoint and committing,
   * given what the connector returned.
   */
  function PrepareCommand(env: Env, sourceId: Id, connector: Connector, checkpoint: Option<IngestionCheckpoint>,
                          limit: int, collected: Result<CollectionBatch, ConnectorFailure>, now: string)
    : Result<CollectionCommitCommand, CollectionFailure>
  {
    var work :- PrepareCollectionWork(env, sourceId, connector, checkpoint, limit, now);
    match collected
    case Err(kind) => Err(ConnectorFailed(kind))
    case Ok(batch) =>
      if batch.isPartial then Err(InvalidCollection)
      else
        var c := CommandOf(env, sourceId, connector, checkpoint, work, batch, now);
        if ValidCommand(env, c) then Ok(c) else Err(InvalidCollection)
  }

  /** One uninterrupted collection: read the checkpoint, run the connector, commit. */
  function CollectOnce(env: Env, db: Database, sourceId: Id, connector: Connector, limit: int,
                       run: Option<IngestionCheckpoint> -> Result<CollectionBatch, ConnectorFailure>, now: string)
    : Result<(Database, CollectionCommitResult), CollectionFailure>
  {
    var checkpoint := GetCheckpoint(db, sourceId);
    var c :- PrepareCommand(env, sourceId, connector, checkpoint, limit, run(checkpoint), now);
    match Commit(env, db, c)
    case Err(e) => Err(PersistenceFailed(e))
    case Ok(stored) => Ok(stored)
  }

  class CollectionCoordinator {
    const store: SqliteStore

    constructor (store: SqliteStore)
      ensures this.store == store
    {
      this.store := store;
    }

    method Collect(env: Env, sourceId: Id, connector: Connector, limit: int,
                   run: Option<IngestionCheckpoint> -> Result<CollectionBatch, ConnectorFailure>, now: string)
      returns (r: Result<CollectionCommitResult, CollectionFailure>)
      modifies store
      ensures r.Ok? ==>
                CollectOnce(env, old(store.Tables()), sourceId, connector, limit, run, now)
                == Ok((store.Tables(), r.value))
      ensures r.Err? ==>
                && CollectOnce(env, old(store.Tables()), sourceId, connector, limit, run, now) == Err(r.error)
                && store.Tables() == old(store.Tables())
    {
      hide Commit, ValidCommand, DocumentWorkItems, NextCheckpoint, PrepareCollectionWork;
      var checkpoint := GetCheckpoint(store.Tables(), sourceId);
      var work := PrepareCollectionWork(env, sourceId, connector, checkpoint, limit, now);
      if work.Err? {
        return Err(work.error);
      }
      var collected := run(checkpoint);
      if collected.Err? {
        return Err(ConnectorFailed(collected.error));
      }
      var batch := collected.value;
      if batch.isPartial {
        return Err(InvalidCollection);
      }
      var deduplicated := DeduplicateDocuments(batch.records, {});
      var c := CollectionCommitCommand(
        work.value, batch, if checkpoint.None? then None else Some(checkpoint.value.revision),
        NextCheckpoint(sourceId, connector, checkpoint, batch.nextCursor, batch.collectedAt),
        DocumentWorkItems(env, deduplicated.accepted, now));
      if !ValidCommand(env, c) {
        return Err(InvalidCollection);
      }
      var stored := store.CommitCollection(env, c);
      return match stored { case Ok(v) => Ok(v) case Err(e) => Err(PersistenceFailed(e)) };
    }
  }
}

/** The offline filing connector: pages over a manifest sorted by external id. */
module FilingFixture {
  import opened Wrappers
  import opened IngestionModels
  import opened Deduplication
  import opened ContentText
  import opened Sorting
  import opened Text
  import opened TextOrder
  import CollectionRunner
  import Decimal

  /** One manifest record; `None` stands for a field the record does not have. */
  datatype FilingRecord = FilingRecord(
    externalId: Option<string>, canonicalUri: Option<string>, publishedAt: Option<string>,
    contentFile: Option<string>, expectedContentHash: Option<string>, documentVersion: Option<string>,
    supersedesExternalId: Option<string>, mediaType: Option<string>, title: Option<string>)

  /** A readable content file: its resolved path and its text. */
  datatype ContentFile = ContentFile(path: string, text: string)

  /** The manifest's file name, its records as they are stored, and the content files beside it. */
  datatype Fixture = Fixture(name: string, manifest: seq<FilingRecord>, files: map<string, ContentFile>)

  const CONNECTOR := CollectionRunner.Connector("filing_fixture", "1.0.0")
  const CURSOR_PREFIX := "filing-fixture-v1:"

  function Or(field: Option<string>, default: string): string {
    if field.None? then default else field.value
  }

  function ExternalId(item: FilingRecord): string {
    Or(item.externalId, "")
  }

  const BY_EXTERNAL_ID: (FilingRecord, FilingRecord) -> bool := (a, b) => AtMost(ExternalId(a), ExternalId(b))

  function Filings(fixture: Fixture): seq<FilingRecord> {
    SortBy(BY_EXTERNAL_ID, fixture.manifest)
  }

  function CursorAt(position: nat): string {
    CURSOR_PREFIX + Decimal.FromInt(position)
  }

  function CursorPosition(cursor: Option<string>): Result<nat, ConnectorFailure> {
    match cursor
    case None => Ok(0)
    case Some(text) =>
      if !StartsWith(text, CURSOR_PREFIX) then Err(Configuration)
      else
        match Decimal.ReadInt(text[|CURSOR_PREFIX|..])
        case None => Err(Configuration)
        case Some(position) => if position < 0 then Err(Configuration) else Ok(position)
  }

  function Metadata(item: FilingRecord): seq<(string, string)> {
    (if item.documentVersion.Some? then [("document_version", item.documentVersion.value)] else [])
    + (if item.supersedesExternalId.Some? then [("supersedes_external_id", item.supersedesExternalId.value)] else [])
  }

  predicate MissesField(item: FilingRecord) {
    IsBlank(ExternalId(item)) || IsBlank(Or(item.canonicalUri, ""))
    || IsBlank(Or(item.publishedAt, "")) || IsBlank(Or(item.contentFile, ""))
  }

  function ToDocument(env: Env, files: map<string, ContentFile>, sourceId: Id, item: FilingRecord, retrievedAt: string)
    : Result<RawDocument, ConnectorFailure>
  {
    if MissesField(item) then Err(MalformedResponse)
    else if item.contentFile.value !in files then Err(MalformedResponse)
    else
      var file := files[item.contentFile.value];
      var digest := ContentHash(env, file.text);
      if item.expectedContentHash.Some? && item.expectedContentHash.value != digest then Err(MalformedResponse)
      else
        match RawDocumentId(env, sourceId, ExternalId(item))
        case None => Err(InvalidArgument)
        case Some(id) =>
          var d := RawDocument(
            id, sourceId, ExternalId(item), item.canonicalUri.value, item.publishedAt.value, retrievedAt,
            Or(item.mediaType, "text/plain"), digest, Some(file.text), item.title, Some(file.path),
            CONNECTOR.name, CONNECTOR.version, Metadata(item), SCHEMA_VERSION);
          if ValidDocument(env, d) then Ok(d) else Err(InvalidArgument)
  }

  /** The documents of a page, or the first record's failure. */
  function ToDocuments(env: Env, files: map<string, ContentFile>, sourceId: Id, items: seq<FilingRecord>,
                       retrievedAt: string): Result<seq<RawDocument>, ConnectorFailure>
  {
    if items == [] then Ok([])
    else
      var last := |items| - 1;
      var front :- ToDocuments(env, files, sourceId, items[..last], retrievedAt);
      var d :- ToDocument(env, files, sourceId, items[last], retrievedAt);
      Ok(front + [d])
  }

  function Collect(env: Env, fixture: Fixture, sourceId: Id, checkpoint: Option<IngestionCheckpoint>,
                   limit: int, now: string): Result<CollectionBatch, ConnectorFailure>
  {
    var _ :- CheckRequest(sourceId, CONNECTOR.version, checkpoint, limit);
    var start :- CursorPosition(if checkpoint.Some? then checkpoint.value.cursor else None);
    var selected := Slice(Filings(fixture), start, start + limit);
    var documents :- ToDocuments(env, fixture.files, sourceId, selected, now);
    var next := start + |selected|;
    var batch := CollectionBatch(documents, now, Some(CursorAt(next)),
                                 Some(fixture.name + ":" + Decimal.FromInt(start) + ":" + Decimal.FromInt(next)), false);
    if ValidBatch(env, batch) then Ok(batch) else Err(InvalidArgument)
  }

  // ---- properties ----

  /** The position written to a cursor is the position read back. */
  lemma CursorRoundTrip(position: nat)
    ensures CursorPosition(Some(CursorAt(position))) == Ok(position)
  {
    Decimal.ReadIntRoundTrip(position);
    assert CursorAt(position)[|CURSOR_PREFIX|..] == Decimal.FromInt(position);
  }

  /**
   * A cursor has a position exactly when it is the prefix and a numeral that is not negative;
   * without a cursor the position is the beginning, and any other cursor is refused.
   */
  lemma CursorPositionIff(cursor: Option<string>, position: nat)
    ensures CursorPosition(cursor) == Ok(position)
       <==> if cursor.None? then position == 0
            else exists numeral ::
                   cursor.value == "filing-fixture-v1:" + numeral && Decimal.ReadInt(numeral) == Some(position)
    ensures CursorPosition(cursor).Err? ==> CursorPosition(cursor) == Err(Configuration)
  {
    hide Decimal.ReadInt;
    if cursor.Some? && StartsWith(cursor.value, CURSOR_PREFIX) {
      var numeral := cursor.value[|CURSOR_PREFIX|..];
      assert cursor.value == CURSOR_PREFIX + numeral;
      forall other | cursor.value == "filing-fixture-v1:" + other
        ensures other == numeral
      {
        PrefixInjective(CURSOR_PREFIX, other, numeral);
      }
    } else if cursor.Some? {
      forall other
        ensures cursor.value != "filing-fixture-v1:" + other
      {
        assert StartsWith(CURSOR_PREFIX + other, CURSOR_PREFIX);
      }
    }
  }

  /** When a collection is refused before any record is read. */
  lemma CollectRefuses(env: Env, fixture: Fixture, sourceId: Id, checkpoint: Option<IngestionCheckpoint>, limit: int,
                       now: string)
    ensures limit <= 0 ==> Collect(env, fixture, sourceId, checkpoint, limit, now) == Err(InvalidArgument)
    ensures limit > 0 && checkpoint.Some?
            && (checkpoint.value.sourceId != sourceId || checkpoint.value.connectorVersion != "1.0.0"
                || CursorPosition(checkpoint.value.cursor).Err?)
            ==> Collect(env, fixture, sourceId, checkpoint, limit, now) == Err(Configuration)
  {
    hide CursorPosition, ToDocuments, Filings;
    RequestRefusedIff(sourceId, CONNECTOR.version, checkpoint, limit);
    if checkpoint.Some? {
      CursorPositionIff(checkpoint.value.cursor, 0);
      var position := CursorPosition(checkpoint.value.cursor);
      assert position.Err? ==> position.error == Configuration;
    }
  }

  lemma {:induction false} DocumentsOfItems(env: Env, files: map<string, ContentFile>, sourceId: Id,
                                            items: seq<FilingRecord>, now: string)
    requires ToDocuments(env, files, sourceId, items, now).Ok?
    ensures var documents := ToDocuments(env, files, sourceId, items, now).value;
      && |documents| == |items|
      && forall i :: 0 <= i < |items| ==> Ok(documents[i]) == ToDocument(env, files, sourceId, items[i], now)
  {
    hide ToDocument;
    if items != [] {
      DocumentsOfItems(env, files, sourceId, items[..|items| - 1], now);
    }
  }

  // ---- one record ----

  /** The record has the field, and not only blank space in it. */
  predicate Given(field: Option<string>) {
    field.Some? && !IsBlank(field.value)
  }

  /** The record names its document and a file that can be read and has the expected hash. */
  predicate Usable(env: Env, files: map<string, ContentFile>, item: FilingRecord) {
    && Given(item.externalId) && Given(item.canonicalUri) && Given(item.publishedAt) && Given(item.contentFile)
    && item.contentFile.value in files
    && (item.expectedContentHash.Some? ==>
          item.expectedContentHash.value == ContentHash(env, files[item.contentFile.value].text))
  }

  /**
   * A record becomes a document exactly when it is usable, the source has an id, its media
   * type is not empty, and it was published and is retrieved at times that are timestamps. A
   * record that is not usable is a malformed response.
   */
  lemma DocumentIff(env: Env, files: map<string, ContentFile>, sourceId: Id, item: FilingRecord, now: string)
    ensures ToDocument(env, files, sourceId, item, now).Ok?
       <==> && Usable(env, files, item) && sourceId != "" && item.mediaType != Some("")
            && env.Timestamp(item.publishedAt.value) && env.Timestamp(now)
    ensures ToDocument(env, files, sourceId, item, now) == Err(MalformedResponse) <==> !Usable(env, files, item)
  {
    hide ContentHash, IsBlank, RawDocumentId, Metadata;
    NoText();
    IdGiven(env, sourceId, ExternalId(item));
    if item.contentFile.Some? && item.contentFile.value in files {
      HashGiven(env, files[item.contentFile.value].text);
    }
  }

  lemma NoText()
    ensures IsBlank("")
  {
  }

  lemma IdGiven(env: Env, sourceId: Id, externalId: string)
    ensures RawDocumentId(env, sourceId, externalId).Some? <==> sourceId != "" && !IsBlank(externalId)
    ensures RawDocumentId(env, sourceId, externalId) != Some("")
  {
    hide IsBlank;
  }

  lemma HashGiven(env: Env, text: string)
    ensures ContentHash(env, text) != ""
  {
  }

  /** The document says what the record and its file say: each field comes from the one it belongs to. */
  ghost predicate Tells(env: Env, files: map<string, ContentFile>, sourceId: Id, item: FilingRecord, d: RawDocument) {
    && d.sourceId == sourceId && item.externalId == Some(d.externalId) && item.canonicalUri == Some(d.canonicalUri)
    && item.publishedAt == Some(d.publishedAt) && d.title == item.title
    && d.mediaType == (if item.mediaType.None? then "text/plain" else item.mediaType.value)
    && item.contentFile.Some? && item.contentFile.value in files
    && d.content == Some(files[item.contentFile.value].text)
    && d.rawPayloadRef == Some(files[item.contentFile.value].path)
    && d.contentHash == ContentHash(env, files[item.contentFile.value].text)
    && (item.expectedContentHash.Some? ==> item.expectedContentHash == Some(d.contentHash))
    && TellsVersions(item, d.providerMetadata)
    && d.connectorName == "filing_fixture" && d.connectorVersion == "1.0.0" && d.schemaVersion == "1.0.0"
    && RawDocumentId(env, sourceId, d.externalId) == Some(d.id)
  }

  /** The metadata holds the versions that the record has, and nothing else. */
  ghost predicate TellsVersions(item: FilingRecord, metadata: seq<(string, string)>) {
    && (forall v :: ("document_version", v) in metadata <==> item.documentVersion == Some(v))
    && (forall v :: ("supersedes_external_id", v) in metadata <==> item.supersedesExternalId == Some(v))
    && |metadata| == (if item.documentVersion.Some? then 1 else 0) + (if item.supersedesExternalId.Some? then 1 else 0)
  }

  lemma DocumentTells(env: Env, files: map<string, ContentFile>, sourceId: Id, item: FilingRecord, now: string)
    requires ToDocument(env, files, sourceId, item, now).Ok?
    ensures var d := ToDocument(env, files, sourceId, item, now).value;
            Tells(env, files, sourceId, item, d) && d.retrievedAt == now
  {
    hide ContentHash, IsBlank, RawDocumentId, TellsVersions, Metadata;
    NoText();
    MetadataTells(item);
  }

  lemma MetadataTells(item: FilingRecord)
    ensures TellsVersions(item, Metadata(item))
  {
    assert "document_version"[0] != "supersedes_external_id"[0];
  }

  /** The page size for a request at this position. */
  function PageSize(fixture: Fixture, start: nat, limit: int): nat {
    if start >= |Filings(fixture)| || limit <= 0 then 0
    else if start + limit <= |Filings(fixture)| then limit
    else |Filings(fixture)| - start
  }

  /**
   * A collected page holds the records from the checkpoint's position on, as many as the limit
   * and the manifest allow, and its cursor is the position after them.
   */
  lemma CollectedPage(env: Env, fixture: Fixture, sourceId: Id, checkpoint: Option<IngestionCheckpoint>,
                      limit: int, now: string)
    requires Collect(env, fixture, sourceId, checkpoint, limit, now).Ok?
    ensures var batch := Collect(env, fixture, sourceId, checkpoint, limit, now).value;
      && limit > 0 && ValidBatch(env, batch) && !batch.isPartial && batch.collectedAt == now
      && var start := CursorPosition(if checkpoint.Some? then checkpoint.value.cursor else None);
      && start.Ok?
      && var n := PageSize(fixture, start.value, limit);
      && |batch.records| == n
      && batch.nextCursor.Some? && CursorPosition(batch.nextCursor) == Ok(start.value + n)
      && forall i :: 0 <= i < n ==>
           Ok(batch.records[i])
           == ToDocument(env, fixture.files, sourceId, Filings(fixture)[start.value + i], now)
  {
    hide ToDocument, ToDocuments, CursorPosition, SortBy, CursorAt;
    var start := CursorPosition(if checkpoint.Some? then checkpoint.value.cursor else None).value;
    var selected := Slice(Filings(fixture), start, start + limit);
    DocumentsOfItems(env, fixture.files, sourceId, selected, now);
    CursorRoundTrip(start + |selected|);
  }

  /** The run is named by the manifest and the positions before and behind its page. */
  lemma CollectedRun(env: Env, fixture: Fixture, sourceId: Id, checkpoint: Option<IngestionCheckpoint>, limit: int,
                     now: string)
    requires Collect(env, fixture, sourceId, checkpoint, limit, now).Ok?
    ensures var (cursor, batch) := (if checkpoint.Some? then checkpoint.value.cursor else None,
                                    Collect(env, fixture, sourceId, checkpoint, limit, now).value);
      && CursorPosition(cursor).Ok?
      && var (start, n) := (CursorPosition(cursor).value, |batch.records|);
      batch.providerRunId == Some(fixture.name + ":" + Decimal.FromInt(start) + ":" + Decimal.FromInt(start + n))
  {
    hide ToDocument, ToDocuments, CursorPosition, SortBy, CursorAt, Decimal.FromInt;
    var start := CursorPosition(if checkpoint.Some? then checkpoint.value.cursor else None).value;
    DocumentsOfItems(env, fixture.files, sourceId, Slice(Filings(fixture), start, start + limit), now);
  }
}
