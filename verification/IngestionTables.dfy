/**
 * The ingestion tables with their uniqueness indexes, and each connection-scoped operation as a
 * function from the tables before to the tables after.
 */
module IngestionTables {
  import opened Wrappers
  import opened IngestionModels
  import opened IngestionWork
  import opened WorkPayloadCodec
  import opened Deduplication
  import opened Sorting
  import opened TextSorting

  datatype IdentityKind = CollectionClaim | ContentClaim

  /** Primary key of `deduplication_identities`; the stored value is the identity version. */
  datatype ClaimKey = ClaimKey(kind: IdentityKind, key: string, documentId: Id)

  datatype CheckpointRow = CheckpointRow(
    cursor: Option<string>, watermark: Option<string>, lastSuccessAt: Option<string>,
    connectorName: string, connectorVersion: string, revision: int, schemaVersion: string)

  /** `index` is the UNIQUE constraint on (source, external id). */
  datatype DocumentTable = DocumentTable(rows: map<Id, RawDocument>, index: map<(Id, string), Id>)

  /** `index` is the partial UNIQUE index over collection claims. */
  datatype ClaimTable = ClaimTable(rows: map<ClaimKey, string>, index: map<string, Id>)

  /** `index` is the UNIQUE constraint on (kind, idempotency key). */
  datatype WorkTable = WorkTable(rows: map<Id, WorkRow>, index: map<(WorkItemKind, string), Id>)

  datatype Database = Database(
    documents: DocumentTable, claims: ClaimTable, work: WorkTable, checkpoints: map<Id, CheckpointRow>)

  const EMPTY := Database(DocumentTable(map[], map[]), ClaimTable(map[], map[]), WorkTable(map[], map[]), map[])

  datatype Disposition = Inserted | Existing

  datatype DocumentResult = DocumentResult(document: RawDocument, disposition: Disposition)

  /** `documentIds` are the holders of the identity after the claim. */
  datatype IdentityResult = IdentityResult(disposition: Disposition, documentIds: seq<Id>)

  datatype WorkResult = WorkResult(workItem: WorkItem, disposition: Disposition)

  // ---- documents ----

  /** A document as it reads back from its row: provider metadata in pair order. */
  function Stored(d: RawDocument): RawDocument {
    d.(providerMetadata := SortBy(BY_PAIR, d.providerMetadata))
  }

  /** Equal in every canonical field except the id. */
  predicate Equivalent(a: RawDocument, b: RawDocument) {
    Stored(a).(id := "") == Stored(b).(id := "")
  }

  /** Equal in all fields but the id, with the same pairs of metadata in any order. */
  lemma EquivalentIff(a: RawDocument, b: RawDocument)
    ensures Equivalent(a, b)
       <==> && a.(id := b.id, providerMetadata := b.providerMetadata) == b
            && multiset(a.providerMetadata) == multiset(b.providerMetadata)
  {
    PairOrderFacts();
    SortDependsOnElements(BY_PAIR, a.providerMetadata, b.providerMetadata);
  }

  function DocumentKeyOf(d: RawDocument): (Id, string) {
    (d.sourceId, d.externalId)
  }

  function FindById(t: DocumentTable, id: Id): Option<RawDocument> {
    if id in t.rows then Some(t.rows[id]) else None
  }

  function FindByIdentity(t: DocumentTable, key: (Id, string)): Option<RawDocument> {
    if key in t.index then FindById(t, t.index[key]) else None
  }

  function ResolveDocument(t: DocumentTable, d: RawDocument): Result<DocumentResult, PersistenceError> {
    var byId := FindById(t, d.id);
    var byIdentity := FindByIdentity(t, DocumentKeyOf(d));
    if byId.Some? && byIdentity.Some? && byId.value.id != byIdentity.value.id then Err(DocumentConflict)
    else if byId.None? && byIdentity.None? then Err(OperationalFailure)
    else
      var existing := if byId.Some? then byId.value else byIdentity.value;
      if Equivalent(existing, d) then Ok(DocumentResult(existing, Existing)) else Err(DocumentConflict)
  }

  /** Some constraint of the documents table refuses the new row. */
  predicate DocumentBlocked(t: DocumentTable, d: RawDocument) {
    || d.id in t.rows
    || DocumentKeyOf(d) in t.index
    || (d.content.None? && d.rawPayloadRef.None?)
  }

  function WithDocument(t: DocumentTable, d: RawDocument): DocumentTable {
    DocumentTable(t.rows[d.id := Stored(d)], t.index[DocumentKeyOf(d) := d.id])
  }

  function InsertDocument(t: DocumentTable, d: RawDocument)
    : Result<(DocumentTable, DocumentResult), PersistenceError>
  {
    if DocumentBlocked(t, d) then
      var r :- ResolveDocument(t, d);
      Ok((t, r))
    else Ok((WithDocument(t, d), DocumentResult(Stored(d), Inserted)))
  }

  /**
   * A document is new exactly when neither its id nor its identity is taken and it has a content or
   * a reference; with neither id nor identity taken, only a constraint can have refused it.
   */
  lemma DocumentInsertedIff(t: DocumentTable, d: RawDocument)
    ensures var r := InsertDocument(t, d);
      && (r.Ok? && r.value.1.disposition.Inserted?
          <==> d.id !in t.rows && (d.sourceId, d.externalId) !in t.index && (d.content.Some? || d.rawPayloadRef.Some?))
      && (r.Ok? && r.value.1.disposition.Existing? ==> r.value.0 == t)
      && (r == Err(OperationalFailure) <== d.id !in t.rows && (d.sourceId, d.externalId) !in t.index && r.Err?)
  {
    hide Equivalent, Stored;
  }

  // ---- identity claims ----

  function WithClaim(t: ClaimTable, c: ClaimKey, version: string): ClaimTable {
    ClaimTable(t.rows[c := version],
               if c.kind == CollectionClaim then t.index[c.key := c.documentId] else t.index)
  }

  /** `documents` is the table that the foreign key refers to. */
  function InsertClaim(documents: map<Id, RawDocument>, t: ClaimTable, c: ClaimKey, version: string)
    : Result<(ClaimTable, Disposition), PersistenceError>
  {
    if c.key == "" || version == "" || c.documentId == "" then Err(InvalidValue)
    else if c in t.rows then
      if t.rows[c] == version then Ok((t, Existing)) else Err(IdentityConflict)
    else if c.kind == CollectionClaim && c.key in t.index then Err(IdentityConflict)
    else if c.documentId !in documents then Err(IdentityConflict)
    else Ok((WithClaim(t, c, version), Inserted))
  }

  /**
   * A claim is new exactly for a stored document and, for a collection key, when no document has
   * claimed the key; it is there already exactly with the same version. Any other claim with
   * values is a conflict.
   */
  lemma ClaimIff(documents: map<Id, RawDocument>, t: ClaimTable, c: ClaimKey, version: string)
    requires c.key != "" && version != "" && c.documentId != ""
    ensures var r := InsertClaim(documents, t, c, version);
      && (r.Ok? && r.value.1.Inserted?
          <==> c !in t.rows && c.documentId in documents && (c.kind.ContentClaim? || c.key !in t.index))
      && (r == Ok((t, Existing)) <==> c in t.rows && t.rows[c] == version)
      && (r.Err? ==> r == Err(IdentityConflict))
      && (r.Ok? && r.value.1.Inserted? ==>
            && r.value.0.rows == t.rows[c := version]
            && (forall key :: key in r.value.0.index <==> key in t.index || (c.kind.CollectionClaim? && key == c.key))
            && (c.kind.CollectionClaim? ==> r.value.0.index[c.key] == c.documentId))
  {
  }

  /** Document ids of the claims with this kind, key and version. */
  function ClaimHolders(t: ClaimTable, kind: IdentityKind, key: string, version: string): set<Id> {
    set c | c in t.rows && c.kind == kind && c.key == key && t.rows[c] == version :: c.documentId
  }

  ghost function Listed(s: set<Id>): (r: seq<Id>)
    ensures multiset(r) == multiset(s)
  {
    if s == {} then []
    else
      var x :| x in s;
      assert multiset(s) == multiset(s - {x}) + multiset{x};
      [x] + Listed(s - {x})
  }

  /** `_resolve_identity`: the holders of an identity, ordered by document id. */
  ghost function ResolveIdentity(t: ClaimTable, kind: IdentityKind, key: string, version: string): seq<Id> {
    SortBy(BY_TEXT, Listed(ClaimHolders(t, kind, key, version)))
  }

  // ---- one batch record ----

  function RecordClaims(env: Env, documents: map<Id, RawDocument>, t: ClaimTable, d: RawDocument)
    : Result<ClaimTable, PersistenceError>
  {
    match CollectionIdentity(env, d.sourceId, d.externalId)
    case None => Err(InvalidValue)
    case Some(key) =>
      var (t1, _) :- InsertClaim(documents, t, ClaimKey(CollectionClaim, key, d.id), IDENTITY_VERSION);
      var (t2, _) :-
        InsertClaim(documents, t1, ClaimKey(ContentClaim, d.contentHash, d.id), NORMALIZATION_VERSION);
      Ok(t2)
  }

  /** Store or resolve one document and claim both identities of the document it resolved to. */
  function StoreRecord(env: Env, db: Database, d: RawDocument)
    : Result<(Database, Disposition), PersistenceError>
  {
    var (documents, r) :- InsertDocument(db.documents, d);
    var claims :- RecordClaims(env, documents.rows, db.claims, r.document);
    Ok((db.(documents := documents, claims := claims), r.disposition))
  }

  // ---- work items ----

  function FindWork(env: Env, t: WorkTable, id: Id): Result<Option<WorkItem>, PersistenceError> {
    if id in t.rows then
      var w :- RowToWorkItem(env, id, t.rows[id]);
      Ok(Some(w))
    else Ok(None)
  }

  function WorkKeyOf(w: WorkItem): (WorkItemKind, string) {
    (w.payload.Kind(), w.idempotencyKey)
  }

  function FindWorkByIdentity(env: Env, t: WorkTable, key: (WorkItemKind, string))
    : Result<Option<WorkItem>, PersistenceError>
  {
    if key in t.index then FindWork(env, t, t.index[key]) else Ok(None)
  }

  function ResolveWork(env: Env, t: WorkTable, w: WorkItem): Result<WorkResult, PersistenceError> {
    var byId :- FindWork(env, t, w.id);
    var byIdentity :- FindWorkByIdentity(env, t, WorkKeyOf(w));
    if byId.Some? && byIdentity.Some? && byId.value.id != byIdentity.value.id then Err(WorkItemConflict)
    else if byId.None? && byIdentity.None? then Err(OperationalFailure)
    else
      var existing := if byId.Some? then byId.value else byIdentity.value;
      if WorkKeyOf(existing) != WorkKeyOf(w) then Err(WorkItemConflict)
      else if EncodePayload(existing.payload) != EncodePayload(w.payload) then Err(WorkItemConflict)
      else Ok(WorkResult(existing, Existing))
  }

  function WithWork(t: WorkTable, w: WorkItem): WorkTable {
    WorkTable(t.rows[w.id := RowOf(w)], t.index[WorkKeyOf(w) := w.id])
  }

  function InsertWork(env: Env, t: WorkTable, w: WorkItem): Result<(WorkTable, WorkResult), PersistenceError> {
    if w.id in t.rows || WorkKeyOf(w) in t.index then
      var r :- ResolveWork(env, t, w);
      Ok((t, r))
    else
      var stored :- RowToWorkItem(env, w.id, RowOf(w));
      Ok((WithWork(t, w), WorkResult(stored, Inserted)))
  }

  // ---- checkpoints ----

  function CheckpointOf(sourceId: Id, row: CheckpointRow): IngestionCheckpoint {
    IngestionCheckpoint(sourceId, row.cursor, row.watermark, row.lastSuccessAt,
                        row.connectorVersion, row.revision, row.schemaVersion)
  }

  function GetCheckpoint(db: Database, sourceId: Id): Option<IngestionCheckpoint> {
    if sourceId in db.checkpoints then Some(CheckpointOf(sourceId, db.checkpoints[sourceId])) else None
  }

  /** The row that a compare-and-set writes over the current one, or its conflict. */
  function NextRow(current: Option<CheckpointRow>, c: IngestionCheckpoint, expected: Option<int>, connectorName: string)
    : Result<CheckpointRow, PersistenceError>
  {
    match (expected, current)
    case (None, None) =>
      Ok(CheckpointRow(c.cursor, c.watermark, c.lastSuccessAt, connectorName, c.connectorVersion, 0, c.schemaVersion))
    case (None, Some(_)) => Err(CheckpointConflict)
    case (Some(_), None) => Err(CheckpointConflict)
    case (Some(revision), Some(row)) =>
      if row.revision == revision && row.connectorName == connectorName
         && row.connectorVersion == c.connectorVersion
      then Ok(row.(cursor := c.cursor, watermark := c.watermark, lastSuccessAt := c.lastSuccessAt,
                   revision := row.revision + 1, schemaVersion := c.schemaVersion))
      else Err(CheckpointConflict)
  }

  function CurrentRow(db: Database, sourceId: Id): Option<CheckpointRow> {
    if sourceId in db.checkpoints then Some(db.checkpoints[sourceId]) else None
  }

  function CompareAndSet(db: Database, c: IngestionCheckpoint, expected: Option<int>, connectorName: string)
    : Result<(Database, IngestionCheckpoint), PersistenceError>
  {
    var row :- NextRow(CurrentRow(db, c.sourceId), c, expected, connectorName);
    Ok((db.(checkpoints := db.checkpoints[c.sourceId := row]), CheckpointOf(c.sourceId, row)))
  }

  // ---- the whole command ----

  datatype CollectionCommitCommand = CollectionCommitCommand(
    collectionWork: WorkItem, batch: CollectionBatch, expectedRevision: Option<int>,
    nextCheckpoint: IngestionCheckpoint, documentWorkItems: seq<WorkItem>)

  datatype CollectionCommitResult = CollectionCommitResult(
    documentsInserted: nat, documentsExisting: nat, workCreated: nat, workExisting: nat,
    checkpoint: IngestionCheckpoint)

  /** What the command's constructor checks, on parts that are themselves well formed. */
  predicate ValidCommand(env: Env, c: CollectionCommitCommand) {
    && ValidWorkItem(env, c.collectionWork) && c.collectionWork.payload.CollectionPayload?
    && ValidBatch(env, c.batch) && ValidCheckpoint(env, c.nextCheckpoint)
    && (forall d :: d in c.batch.records ==> ValidDocument(env, d))
    && (forall w :: w in c.documentWorkItems ==> ValidWorkItem(env, w) && w.payload.DocumentPayload?)
    && var work := c.collectionWork.payload;
    && !c.batch.isPartial
    && (c.expectedRevision.Some? ==> c.expectedRevision.value >= 0)
    && c.nextCheckpoint.sourceId == work.sourceId
    && c.nextCheckpoint.connectorVersion == work.connectorVersion
    && c.expectedRevision == (if work.checkpoint.Some? then Some(work.checkpoint.value.revision) else None)
    && (forall d :: d in c.batch.records ==>
          && d.sourceId == work.sourceId
          && d.connectorName == work.connectorName
          && d.connectorVersion == work.connectorVersion)
    && (forall i, j :: 0 <= i < j < |c.documentWorkItems| ==>
          c.documentWorkItems[i].payload != c.documentWorkItems[j].payload)
    && (forall w :: w in c.documentWorkItems && w.payload.DocumentPayload? ==>
          exists d :: d in c.batch.records && d.id == w.payload.rawDocumentId)
  }

  /** Tables and counters part of the way through a command. */
  datatype Progress<T> = Progress(tables: T, added: nat, existing: nat)

  function Count<T>(p: Progress<T>, tables: T, disposition: Disposition): Progress<T> {
    Progress(tables, p.added + (if disposition == Inserted then 1 else 0),
             p.existing + (if disposition == Inserted then 0 else 1))
  }

  function StoreRecords(env: Env, db: Database, records: seq<RawDocument>)
    : Result<Progress<Database>, PersistenceError>
  {
    if records == [] then Ok(Progress(db, 0, 0))
    else
      var last := |records| - 1;
      var p :- StoreRecords(env, db, records[..last]);
      var (after, disposition) :- StoreRecord(env, p.tables, records[last]);
      Ok(Count(p, after, disposition))
  }

  function StoreWork(env: Env, t: WorkTable, items: seq<WorkItem>)
    : Result<Progress<WorkTable>, PersistenceError>
  {
    if items == [] then Ok(Progress(t, 0, 0))
    else
      var last := |items| - 1;
      var p :- StoreWork(env, t, items[..last]);
      var (after, r) :- InsertWork(env, p.tables, items[last]);
      Ok(Count(p, after, r.disposition))
  }

  function ConnectorNameOf(c: CollectionCommitCommand): string {
    if c.collectionWork.payload.CollectionPayload? then c.collectionWork.payload.connectorName else ""
  }

  /** The checks made before the transaction begins. */
  function Precheck(c: CollectionCommitCommand): Result<(), PersistenceError> {
    if exists w :: w in c.documentWorkItems && w.schemaVersion != SCHEMA_VERSION then Err(PayloadIncompatible)
    else if ConnectorNameOf(c) == "" then Err(InvalidValue)
    else Ok(())
  }

  function Commit(env: Env, db: Database, c: CollectionCommitCommand)
    : Result<(Database, CollectionCommitResult), PersistenceError>
  {
    var _ :- Precheck(c);
    var p :- StoreRecords(env, db, c.batch.records);
    var q :- StoreWork(env, p.tables.work, c.documentWorkItems);
    var (after, checkpoint) :-
      CompareAndSet(p.tables.(work := q.tables), c.nextCheckpoint, c.expectedRevision, ConnectorNameOf(c));
    Ok((after, CollectionCommitResult(p.added, p.existing, q.added, q.existing, checkpoint)))
  }

  /** What is refused before the transaction: work of another schema version, and a connector without a name. */
  lemma CommitRefused(env: Env, db: Database, c: CollectionCommitCommand)
    ensures (exists w :: w in c.documentWorkItems && w.schemaVersion != "1.0.0")
            ==> Commit(env, db, c) == Err(PayloadIncompatible)
    ensures (forall w :: w in c.documentWorkItems ==> w.schemaVersion == "1.0.0")
            && c.collectionWork.payload.CollectionPayload? && c.collectionWork.payload.connectorName == ""
            ==> Commit(env, db, c) == Err(InvalidValue)
  {
    hide StoreRecords, StoreWork, CompareAndSet;
  }

  // ---- one step further, and a failure part of the way ----

  lemma RecordStored(env: Env, db: Database, records: seq<RawDocument>, i: nat, p: Progress<Database>,
                     after: Database, disposition: Disposition)
    requires i < |records| && StoreRecords(env, db, records[..i]) == Ok(p)
    requires StoreRecord(env, p.tables, records[i]) == Ok((after, disposition))
    ensures StoreRecords(env, db, records[..i + 1]) == Ok(Count(p, after, disposition))
  {
    assert records[..i + 1][..i] == records[..i];
  }

  lemma {:induction false} RecordFailureDecides(env: Env, db: Database, records: seq<RawDocument>, n: nat)
    requires n <= |records| && StoreRecords(env, db, records[..n]).Err?
    ensures StoreRecords(env, db, records) == StoreRecords(env, db, records[..n])
  {
    if n < |records| {
      var front := records[..|records| - 1];
      assert front[..n] == records[..n];
      RecordFailureDecides(env, db, front, n);
    } else {
      assert records[..n] == records;
    }
  }

  lemma RecordFailed(env: Env, db: Database, records: seq<RawDocument>, i: nat,
                     p: Progress<Database>, e: PersistenceError)
    requires i < |records| && StoreRecords(env, db, records[..i]) == Ok(p)
    requires StoreRecord(env, p.tables, records[i]) == Err(e)
    ensures StoreRecords(env, db, records) == Err(e)
  {
    assert records[..i + 1][..i] == records[..i];
    RecordFailureDecides(env, db, records, i + 1);
  }

  lemma WorkStored(env: Env, t: WorkTable, items: seq<WorkItem>, i: nat, p: Progress<WorkTable>,
                   after: WorkTable, r: WorkResult)
    requires i < |items| && StoreWork(env, t, items[..i]) == Ok(p)
    requires InsertWork(env, p.tables, items[i]) == Ok((after, r))
    ensures StoreWork(env, t, items[..i + 1]) == Ok(Count(p, after, r.disposition))
  {
    assert items[..i + 1][..i] == items[..i];
  }

  lemma {:induction false} WorkFailureDecides(env: Env, t: WorkTable, items: seq<WorkItem>, n: nat)
    requires n <= |items| && StoreWork(env, t, items[..n]).Err?
    ensures StoreWork(env, t, items) == StoreWork(env, t, items[..n])
  {
    if n < |items| {
      var front := items[..|items| - 1];
      assert front[..n] == items[..n];
      WorkFailureDecides(env, t, front, n);
    } else {
      assert items[..n] == items;
    }
  }

  lemma WorkFailed(env: Env, t: WorkTable, items: seq<WorkItem>, i: nat,
                   p: Progress<WorkTable>, e: PersistenceError)
    requires i < |items| && StoreWork(env, t, items[..i]) == Ok(p)
    requires InsertWork(env, p.tables, items[i]) == Err(e)
    ensures StoreWork(env, t, items) == Err(e)
  {
    assert items[..i + 1][..i] == items[..i];
    WorkFailureDecides(env, t, items, i + 1);
  }
}

/** The SQLite adapters: every operation changes the tables in place. */
module SqliteStore {
  import opened Wrappers
  import opened IngestionModels
  import opened IngestionWork
  import opened WorkPayloadCodec
  import opened Deduplication
  import opened IngestionTables
  import opened Sorting
  import opened TextSorting

  class SqliteStore {
    var documents: map<Id, RawDocument>
    var documentIndex: map<(Id, string), Id>
    var claims: map<ClaimKey, string>
    var collectionIndex: map<string, Id>
    var workItems: map<Id, WorkRow>
    var workIndex: map<(WorkItemKind, string), Id>
    var checkpoints: map<Id, CheckpointRow>

    constructor ()
      ensures Tables() == EMPTY
    {
      documents, documentIndex := map[], map[];
      claims, collectionIndex := map[], map[];
      workItems, workIndex := map[], map[];
      checkpoints := map[];
    }

    function Documents(): DocumentTable
      reads this`documents, this`documentIndex
    {
      DocumentTable(documents, documentIndex)
    }

    function Claims(): ClaimTable
      reads this`claims, this`collectionIndex
    {
      ClaimTable(claims, collectionIndex)
    }

    function Work(): WorkTable
      reads this`workItems, this`workIndex
    {
      WorkTable(workItems, workIndex)
    }

    function Tables(): Database
      reads this
    {
      Database(Documents(), Claims(), Work(), checkpoints)
    }

    method InsertOrResolveDocument(d: RawDocument) returns (r: Result<DocumentResult, PersistenceError>)
      modifies this`documents, this`documentIndex
      ensures r.Ok? ==> InsertDocument(old(Documents()), d) == Ok((Documents(), r.value))
      ensures r.Err? ==> InsertDocument(old(Documents()), d) == Err(r.error) && Documents() == old(Documents())
    {
      var key := DocumentKeyOf(d);
      if d.id in documents || key in documentIndex || (d.content.None? && d.rawPayloadRef.None?) {
        r := ResolveDocument(Documents(), d);
      } else {
        documents := documents[d.id := Stored(d)];
        documentIndex := documentIndex[key := d.id];
        r := Ok(DocumentResult(documents[d.id], Inserted));
      }
    }

    method InsertOrResolveIdentity(c: ClaimKey, version: string)
      returns (r: Result<IdentityResult, PersistenceError>)
      modifies this`claims, this`collectionIndex
      ensures r.Ok? ==> InsertClaim(documents, old(Claims()), c, version) == Ok((Claims(), r.value.disposition))
      ensures r.Ok? ==> r.value.documentIds == ResolveIdentity(Claims(), c.kind, c.key, version)
      ensures r.Err? ==> InsertClaim(documents, old(Claims()), c, version) == Err(r.error)
      ensures r.Err? ==> Claims() == old(Claims())
    {
      if c.key == "" || version == "" || c.documentId == "" {
        return Err(InvalidValue);
      }
      var unique := c.kind == CollectionClaim && c.key in collectionIndex;
      if c !in claims && !unique && c.documentId in documents {
        claims := claims[c := version];
        if c.kind == CollectionClaim {
          collectionIndex := collectionIndex[c.key := c.documentId];
        }
        var holders := this.HoldersInOrder(c.kind, c.key, version);
        return Ok(IdentityResult(Inserted, holders));
      }
      if c in claims && claims[c] == version {
        var holders := this.HoldersInOrder(c.kind, c.key, version);
        return Ok(IdentityResult(Existing, holders));
      }
      return Err(IdentityConflict);
    }

    /** The query for the holders of an identity, ordered by document id. */
    method HoldersInOrder(kind: IdentityKind, key: string, version: string) returns (ids: seq<Id>)
      ensures ids == ResolveIdentity(Claims(), kind, key, version)
    {
      hide SortBy, Insert, ClaimHolders;
      var holders := ClaimHolders(Claims(), kind, key, version);
      ghost var all := holders;
      ids := [];
      TextOrderFacts();
      while holders != {}
        invariant holders <= all && multiset(ids) + multiset(holders) == multiset(all)
        invariant Sorted(BY_TEXT, ids)
        decreases |holders|
      {
        var id :| id in holders;
        InsertKeepsElements(BY_TEXT, id, ids);
        InsertSorted(BY_TEXT, id, ids);
        ids := Insert(BY_TEXT, id, ids);
        holders := holders - {id};
      }
      SortKeepsElements(BY_TEXT, Listed(all));
      SortSorted(BY_TEXT, Listed(all));
      SortedUnique(BY_TEXT, ids, SortBy(BY_TEXT, Listed(all)));
    }

    method InsertOrResolveWorkItem(env: Env, w: WorkItem) returns (r: Result<WorkResult, PersistenceError>)
      modifies this`workItems, this`workIndex
      ensures r.Ok? ==> InsertWork(env, old(Work()), w) == Ok((Work(), r.value))
      ensures r.Err? ==> InsertWork(env, old(Work()), w) == Err(r.error)
    {
      var key := WorkKeyOf(w);
      if w.id in workItems || key in workIndex {
        r := ResolveWork(env, Work(), w);
      } else {
        workItems := workItems[w.id := RowOf(w)];
        workIndex := workIndex[key := w.id];
        var stored := RowToWorkItem(env, w.id, workItems[w.id]);
        if stored.Err? {
          return Err(stored.error);
        }
        r := Ok(WorkResult(stored.value, Inserted));
      }
    }

    method CompareAndSetCheckpoint(c: IngestionCheckpoint, expected: Option<int>, connectorName: string)
      returns (r: Result<IngestionCheckpoint, PersistenceError>)
      modifies this`checkpoints
      ensures r.Ok? ==> CompareAndSet(old(Tables()), c, expected, connectorName) == Ok((Tables(), r.value))
      ensures r.Err? ==> CompareAndSet(old(Tables()), c, expected, connectorName) == Err(r.error)
      ensures r.Err? ==> Tables() == old(Tables())
    {
      if expected.None? {
        if c.sourceId in checkpoints {
          return Err(CheckpointConflict);
        }
        checkpoints := checkpoints[c.sourceId :=
          CheckpointRow(c.cursor, c.watermark, c.lastSuccessAt, connectorName,
                        c.connectorVersion, 0, c.schemaVersion)];
      } else {
        if c.sourceId !in checkpoints {
          return Err(CheckpointConflict);
        }
        var row := checkpoints[c.sourceId];
        if row.revision != expected.value || row.connectorName != connectorName
           || row.connectorVersion != c.connectorVersion
        {
          return Err(CheckpointConflict);
        }
        checkpoints := checkpoints[c.sourceId :=
          row.(cursor := c.cursor, watermark := c.watermark, lastSuccessAt := c.lastSuccessAt,
               revision := row.revision + 1, schemaVersion := c.schemaVersion)];
      }
      r := Ok(CheckpointOf(c.sourceId, checkpoints[c.sourceId]));
    }

    /** Claim the collection identity and the content identity of a stored document. */
    method ClaimIdentities(env: Env, d: RawDocument) returns (failure: Option<PersistenceError>)
      modifies this`claims, this`collectionIndex
      ensures failure.None? ==> RecordClaims(env, documents, old(Claims()), d) == Ok(Claims())
      ensures failure.Some? ==> RecordClaims(env, documents, old(Claims()), d) == Err(failure.value)
    {
      var key := CollectionIdentity(env, d.sourceId, d.externalId);
      if key.None? {
        return Some(InvalidValue);
      }
      var claim := this.InsertOrResolveIdentity(
        ClaimKey(CollectionClaim, key.value, d.id), IDENTITY_VERSION);
      if claim.Err? {
        return Some(claim.error);
      }
      claim := this.InsertOrResolveIdentity(
        ClaimKey(ContentClaim, d.contentHash, d.id), NORMALIZATION_VERSION);
      return if claim.Err? then Some(claim.error) else None;
    }

    method StoreOne(env: Env, d: RawDocument) returns (r: Result<Disposition, PersistenceError>)
      modifies this`documents, this`documentIndex, this`claims, this`collectionIndex
      ensures r.Ok? ==> StoreRecord(env, old(Tables()), d) == Ok((Tables(), r.value))
      ensures r.Err? ==> StoreRecord(env, old(Tables()), d) == Err(r.error)
    {
      hide InsertDocument, RecordClaims;
      var stored := this.InsertOrResolveDocument(d);
      if stored.Err? {
        return Err(stored.error);
      }
      var failure := this.ClaimIdentities(env, stored.value.document);
      if failure.Some? {
        return Err(failure.value);
      }
      return Ok(stored.value.disposition);
    }

    /** The loop over the batch; the counters are the documents inserted and already there. */
    method StoreBatch(env: Env, records: seq<RawDocument>)
      returns (failure: Option<PersistenceError>, inserted: nat, existing: nat)
      modifies this`documents, this`documentIndex, this`claims, this`collectionIndex
      ensures failure.None? ==>
                StoreRecords(env, old(Tables()), records) == Ok(Progress(Tables(), inserted, existing))
      ensures failure.Some? ==> StoreRecords(env, old(Tables()), records) == Err(failure.value)
    {
      inserted, existing := 0, 0;
      ghost var before := Tables();
      ghost var p := Progress(before, 0, 0);
      for i := 0 to |records|
        invariant p == Progress(Tables(), inserted, existing)
        invariant StoreRecords(env, before, records[..i]) == Ok(p)
      {
        var stored := this.StoreOne(env, records[i]);
        if stored.Err? {
          RecordFailed(env, before, records, i, p, stored.error);
          return Some(stored.error), inserted, existing;
        }
        RecordStored(env, before, records, i, p, Tables(), stored.value);
        p := Count(p, Tables(), stored.value);
        if stored.value == Inserted {
          inserted := inserted + 1;
        } else {
          existing := existing + 1;
        }
      }
      assert records[..|records|] == records;
      failure := None;
    }

    method StoreItems(env: Env, items: seq<WorkItem>)
      returns (failure: Option<PersistenceError>, created: nat, existing: nat)
      modifies this`workItems, this`workIndex
      ensures failure.None? ==> StoreWork(env, old(Work()), items) == Ok(Progress(Work(), created, existing))
      ensures failure.Some? ==> StoreWork(env, old(Work()), items) == Err(failure.value)
    {
      created, existing := 0, 0;
      ghost var before := Work();
      ghost var p := Progress(before, 0, 0);
      for i := 0 to |items|
        invariant p == Progress(Work(), created, existing)
        invariant StoreWork(env, before, items[..i]) == Ok(p)
      {
        var stored := this.InsertOrResolveWorkItem(env, items[i]);
        if stored.Err? {
          WorkFailed(env, before, items, i, p, stored.error);
          return Some(stored.error), created, existing;
        }
        WorkStored(env, before, items, i, p, Work(), stored.value);
        p := Count(p, Work(), stored.value.disposition);
        if stored.value.disposition == Inserted {
          created := created + 1;
        } else {
          existing := existing + 1;
        }
      }
      assert items[..|items|] == items;
      failure := None;
    }

    /** The statements inside the transaction; on failure the tables are left half written. */
    method RunCommit(env: Env, c: CollectionCommitCommand)
      returns (r: Result<CollectionCommitResult, PersistenceError>)
      requires Precheck(c).Ok?
      modifies this
      ensures r.Ok? ==> Commit(env, old(Tables()), c) == Ok((Tables(), r.value))
      ensures r.Err? ==> Commit(env, old(Tables()), c) == Err(r.error)
    {
      hide StoreRecords, StoreWork, CompareAndSet;
      var failure, documentsInserted, documentsExisting := this.StoreBatch(env, c.batch.records);
      if failure.Some? {
        return Err(failure.value);
      }
      var workCreated, workExisting;
      failure, workCreated, workExisting := this.StoreItems(env, c.documentWorkItems);
      if failure.Some? {
        return Err(failure.value);
      }
      var checkpoint := this.CompareAndSetCheckpoint(
        c.nextCheckpoint, c.expectedRevision, ConnectorNameOf(c));
      if checkpoint.Err? {
        return Err(checkpoint.error);
      }
      return Ok(CollectionCommitResult(
        documentsInserted, documentsExisting, workCreated, workExisting, checkpoint.value));
    }

    /** One transaction: the rows written before a failure are rolled back. */
    method CommitCollection(env: Env, c: CollectionCommitCommand)
      returns (r: Result<CollectionCommitResult, PersistenceError>)
      modifies this
      ensures r.Ok? ==> Commit(env, old(Tables()), c) == Ok((Tables(), r.value))
      ensures r.Err? ==> Commit(env, old(Tables()), c) == Err(r.error) && Tables() == old(Tables())
    {
      hide StoreRecords, StoreWork, CompareAndSet;
      if w :| w in c.documentWorkItems && w.schemaVersion != SCHEMA_VERSION {
        return Err(PayloadIncompatible);
      }
      if ConnectorNameOf(c) == "" {
        return Err(InvalidValue);
      }
      var documentsBefore, claimsBefore, workBefore := Documents(), Claims(), Work();
      var checkpointsBefore := checkpoints;
      r := this.RunCommit(env, c);
      if r.Err? {
        documents, documentIndex := documentsBefore.rows, documentsBefore.index;
        claims, collectionIndex := claimsBefore.rows, claimsBefore.index;
        workItems, workIndex := workBefore.rows, workBefore.index;
        checkpoints := checkpointsBefore;
      }
    }
  }
}
