/**
 * What collection commits keep true of the ingestion tables: all-or-nothing storage, counters
 * that match what the tables gained, an invariant over every run, and replay.
 */
module AtomicCommit {
  import opened Wrappers
  import opened IngestionModels
  import opened IngestionWork
  import opened WorkPayloadCodec
  import opened Deduplication
  import opened IngestionTables
  import opened Sorting
  import opened TextSorting

  // ---- the invariant ----

  ghost predicate Submap<K, V>(m: map<K, V>, n: map<K, V>) {
    forall k :: k in m ==> k in n && n[k] == m[k]
  }

  ghost predicate DocumentsExtend(a: DocumentTable, b: DocumentTable) {
    Submap(a.rows, b.rows) && Submap(a.index, b.index)
  }

  ghost predicate ClaimsExtend(a: ClaimTable, b: ClaimTable) {
    Submap(a.rows, b.rows) && Submap(a.index, b.index)
  }

  ghost predicate WorkExtends(a: WorkTable, b: WorkTable) {
    Submap(a.rows, b.rows) && Submap(a.index, b.index)
  }

  /** No row of the append-only tables was changed or removed. */
  ghost predicate Extends(a: Database, b: Database) {
    && DocumentsExtend(a.documents, b.documents)
    && ClaimsExtend(a.claims, b.claims)
    && WorkExtends(a.work, b.work)
  }

  /** Ids and (source, external id) pairs identify documents; rows hold canonical metadata. */
  ghost predicate DocumentsOk(t: DocumentTable) {
    && (forall id :: id in t.rows ==>
          && t.rows[id].id == id
          && Stored(t.rows[id]) == t.rows[id]
          && DocumentKeyOf(t.rows[id]) in t.index
          && t.index[DocumentKeyOf(t.rows[id])] == id)
    && (forall key :: key in t.index ==>
          t.index[key] in t.rows && DocumentKeyOf(t.rows[t.index[key]]) == key)
  }

  function VersionOf(kind: IdentityKind): string {
    if kind == CollectionClaim then IDENTITY_VERSION else NORMALIZATION_VERSION
  }

  /** The two claims a document is entitled to. */
  predicate IsClaimOf(env: Env, d: RawDocument, c: ClaimKey) {
    && c.documentId == d.id
    && if c.kind == CollectionClaim then CollectionIdentity(env, d.sourceId, d.externalId) == Some(c.key)
       else c.key == d.contentHash
  }

  /** The claims are exactly those of the stored documents, under the current versions. */
  ghost predicate ClaimsMatch(env: Env, documents: map<Id, RawDocument>, t: ClaimTable) {
    && (forall c :: c in t.rows <==> c.documentId in documents && IsClaimOf(env, documents[c.documentId], c))
    && (forall c :: c in t.rows ==> t.rows[c] == VersionOf(c.kind))
  }

  /** The unique index lists the collection claims. */
  ghost predicate ClaimIndexOk(t: ClaimTable) {
    && (forall c :: c in t.rows && c.kind == CollectionClaim ==>
          c.key in t.index && t.index[c.key] == c.documentId)
    && (forall key :: key in t.index ==> ClaimKey(CollectionClaim, key, t.index[key]) in t.rows)
  }

  predicate Claimable(env: Env, d: RawDocument) {
    && d.id != "" && d.contentHash != ""
    && var key := CollectionIdentity(env, d.sourceId, d.externalId);
       key.Some? && key.value != ""
  }

  ghost predicate ClaimsOk(env: Env, documents: map<Id, RawDocument>, t: ClaimTable) {
    && ClaimsMatch(env, documents, t)
    && ClaimIndexOk(t)
    && (forall id :: id in documents ==> Claimable(env, documents[id]))
  }

  function RowKey(row: WorkRow): (WorkItemKind, string) {
    (row.kind, row.idempotencyKey)
  }

  ghost predicate ValidWork(env: Env, w: WorkItem) {
    ValidWorkItem(env, w) && w.schemaVersion == SCHEMA_VERSION
  }

  /** The row is that of a valid work item. */
  ghost predicate Written(env: Env, id: Id, row: WorkRow) {
    exists w :: ValidWork(env, w) && w.id == id && row == RowOf(w)
  }

  /** Work is identified by id and by (kind, idempotency key), and every row is that of a work item. */
  ghost predicate WorkOk(env: Env, t: WorkTable) {
    && (forall id :: id in t.rows ==>
          && Written(env, id, t.rows[id])
          && RowKey(t.rows[id]) in t.index
          && t.index[RowKey(t.rows[id])] == id)
    && (forall key :: key in t.index ==> t.index[key] in t.rows && RowKey(t.rows[t.index[key]]) == key)
  }

  ghost predicate Consistent(env: Env, db: Database) {
    DocumentsOk(db.documents) && ClaimsOk(env, db.documents.rows, db.claims) && WorkOk(env, db.work)
  }

  lemma EmptyConsistent(env: Env)
    ensures Consistent(env, EMPTY)
  {
  }

  lemma ExtendsTransitive(a: Database, b: Database, c: Database)
    requires Extends(a, b) && Extends(b, c)
    ensures Extends(a, c)
  {
  }

  // ---- one document ----

  lemma StoredIdempotent(d: RawDocument)
    ensures Stored(Stored(d)) == Stored(d)
    ensures Equivalent(Stored(d), d)
  {
    PairOrderFacts();
    SortSorted(BY_PAIR, d.providerMetadata);
    SortOfSorted(BY_PAIR, SortBy(BY_PAIR, d.providerMetadata));
  }

  /** Equivalent documents agree on what identities are derived from. */
  lemma EquivalentIdentity(a: RawDocument, b: RawDocument)
    requires Equivalent(a, b)
    ensures DocumentKeyOf(a) == DocumentKeyOf(b) && a.contentHash == b.contentHash
  {
    var x, y := Stored(a).(id := ""), Stored(b).(id := "");
    assert x.sourceId == a.sourceId && x.externalId == a.externalId && x.contentHash == a.contentHash;
    assert y.sourceId == b.sourceId && y.externalId == b.externalId && y.contentHash == b.contentHash;
  }

  /** A record's identity is bound to an equivalent stored document. */
  ghost predicate Bound(t: DocumentTable, d: RawDocument) {
    && DocumentKeyOf(d) in t.index
    && t.index[DocumentKeyOf(d)] in t.rows
    && Equivalent(t.rows[t.index[DocumentKeyOf(d)]], d)
  }

  lemma ExistingDocument(t: DocumentTable, d: RawDocument)
    requires DocumentsOk(t) && DocumentBlocked(t, d) && InsertDocument(t, d).Ok?
    ensures Bound(t, d)
    ensures InsertDocument(t, d) == Ok((t, DocumentResult(t.rows[t.index[DocumentKeyOf(d)]], Existing)))
  {
    EquivalentIdentity(InsertDocument(t, d).value.1.document, d);
  }

  lemma NewDocument(t: DocumentTable, d: RawDocument)
    requires DocumentsOk(t) && !DocumentBlocked(t, d)
    ensures DocumentsOk(WithDocument(t, d)) && DocumentsExtend(t, WithDocument(t, d))
    ensures Bound(WithDocument(t, d), d)
    ensures |WithDocument(t, d).rows| == |t.rows| + 1
  {
    hide SortBy, Stored, DocumentKeyOf, Equivalent, DocumentsOk, Submap;
    StoredIdempotent(d);
    StoredKeepsKey(d);
    NewRowOk(t, Stored(d));
    MapGrows(t.rows, d.id, Stored(d));
    MapGrows(t.index, DocumentKeyOf(d), d.id);
  }

  lemma NewRowOk(t: DocumentTable, row: RawDocument)
    requires DocumentsOk(t) && row.id !in t.rows && DocumentKeyOf(row) !in t.index && Stored(row) == row
    ensures var after := DocumentTable(t.rows[row.id := row], t.index[DocumentKeyOf(row) := row.id]);
            DocumentsOk(after)
  {
    hide Stored, DocumentKeyOf;
    assert forall id :: id in t.rows ==> DocumentKeyOf(t.rows[id]) != DocumentKeyOf(row);
  }

  lemma MapGrows<K, V>(m: map<K, V>, key: K, value: V)
    requires key !in m
    ensures Submap(m, m[key := value]) && |m[key := value]| == |m| + 1
  {
  }

  lemma StoredKeepsKey(d: RawDocument)
    ensures Stored(d).id == d.id && DocumentKeyOf(Stored(d)) == DocumentKeyOf(d)
    ensures Stored(d).contentHash == d.contentHash
  {
    hide SortBy;
  }

  /**
   * A bound record resolves again unless its own id was taken by a document with another
   * identity.
   */
  lemma BoundResolves(t: DocumentTable, d: RawDocument)
    requires DocumentsOk(t) && Bound(t, d)
    ensures if d.id in t.rows ==> DocumentKeyOf(t.rows[d.id]) == DocumentKeyOf(d)
            then InsertDocument(t, d) == Ok((t, DocumentResult(t.rows[t.index[DocumentKeyOf(d)]], Existing)))
            else InsertDocument(t, d) == Err(DocumentConflict)
  {
  }

  lemma BoundPersists(a: DocumentTable, b: DocumentTable, d: RawDocument)
    requires Bound(a, d) && DocumentsExtend(a, b)
    ensures Bound(b, d)
  {
  }

  // ---- the claims of one document ----

  lemma ExistingClaims(env: Env, documents: map<Id, RawDocument>, t: ClaimTable, d: RawDocument)
    requires ClaimsOk(env, documents, t) && d.id in documents && documents[d.id] == d
    ensures RecordClaims(env, documents, t, d) == Ok(t)
  {
    hide CollectionIdentity, ClaimIndexOk;
    var key := CollectionIdentity(env, d.sourceId, d.externalId);
    var first := ClaimKey(CollectionClaim, key.value, d.id);
    var second := ClaimKey(ContentClaim, d.contentHash, d.id);
    assert IsClaimOf(env, d, first) && IsClaimOf(env, d, second);
  }

  function WithClaims(t: ClaimTable, key: string, d: RawDocument): ClaimTable {
    WithClaim(WithClaim(t, ClaimKey(CollectionClaim, key, d.id), IDENTITY_VERSION),
              ClaimKey(ContentClaim, d.contentHash, d.id), NORMALIZATION_VERSION)
  }

  /** Claims of a new document: both are added, unless its collection key belongs to another. */
  lemma NewClaims(env: Env, documents: map<Id, RawDocument>, t: ClaimTable, d: RawDocument)
    requires ClaimsOk(env, documents, t) && d.id !in documents
    ensures var r := RecordClaims(env, documents[d.id := Stored(d)], t, d);
      if Claimable(env, d) && CollectionIdentity(env, d.sourceId, d.externalId).value !in t.index
      then r == Ok(WithClaims(t, CollectionIdentity(env, d.sourceId, d.externalId).value, d))
      else r.Err?
  {
    hide CollectionIdentity, SortBy, IsClaimOf;
    assert forall c :: c in t.rows ==> c.documentId != d.id;
  }

  lemma NewClaimsMatch(env: Env, documents: map<Id, RawDocument>, t: ClaimTable, d: RawDocument, key: string)
    requires ClaimsMatch(env, documents, t) && d.id !in documents
    requires CollectionIdentity(env, d.sourceId, d.externalId) == Some(key)
    ensures ClaimsMatch(env, documents[d.id := Stored(d)], WithClaims(t, key, d))
    ensures Submap(t.rows, WithClaims(t, key, d).rows) && |WithClaims(t, key, d).rows| == |t.rows| + 2
  {
    hide CollectionIdentity, IsClaimOf, WithClaims, Stored;
    NewClaimRows(t, key, d);
    var all := documents[d.id := Stored(d)];
    forall c
      ensures c in WithClaims(t, key, d).rows <==> c.documentId in all && IsClaimOf(env, all[c.documentId], c)
    {
      if c.documentId == d.id {
        ClaimsOfNew(env, d, key, c);
      }
    }
  }

  lemma ClaimsOfNew(env: Env, d: RawDocument, key: string, c: ClaimKey)
    requires CollectionIdentity(env, d.sourceId, d.externalId) == Some(key) && c.documentId == d.id
    ensures IsClaimOf(env, Stored(d), c)
       <==> c == ClaimKey(CollectionClaim, key, d.id) || c == ClaimKey(ContentClaim, d.contentHash, d.id)
  {
    hide CollectionIdentity, SortBy;
  }

  lemma NewClaimRows(t: ClaimTable, key: string, d: RawDocument)
    requires forall c :: c in t.rows ==> c.documentId != d.id
    ensures var (first, second) := (ClaimKey(CollectionClaim, key, d.id), ClaimKey(ContentClaim, d.contentHash, d.id));
      && WithClaims(t, key, d).rows
      == t.rows[first := VersionOf(first.kind)][second := VersionOf(second.kind)]
      && |WithClaims(t, key, d).rows| == |t.rows| + 2
  {
  }

  lemma NewClaimIndexOk(t: ClaimTable, key: string, d: RawDocument)
    requires ClaimIndexOk(t) && key !in t.index
    ensures ClaimIndexOk(WithClaims(t, key, d)) && Submap(t.index, WithClaims(t, key, d).index)
  {
  }

  lemma NewClaimsOk(env: Env, documents: map<Id, RawDocument>, t: ClaimTable, d: RawDocument, key: string)
    requires ClaimsOk(env, documents, t) && d.id !in documents
    requires Claimable(env, d) && CollectionIdentity(env, d.sourceId, d.externalId) == Some(key)
    requires key !in t.index
    ensures ClaimsOk(env, documents[d.id := Stored(d)], WithClaims(t, key, d))
    ensures ClaimsExtend(t, WithClaims(t, key, d)) && |WithClaims(t, key, d).rows| == |t.rows| + 2
  {
    hide CollectionIdentity, ClaimsMatch, ClaimIndexOk, WithClaims;
    NewClaimsMatch(env, documents, t, d, key);
    NewClaimIndexOk(t, key, d);
  }

  // ---- one record ----

  /**
   * Storing a record either changes nothing, because an equivalent document already has its
   * identity, or adds exactly one document and its two claims.
   */
  lemma StoreRecordShape(env: Env, db: Database, d: RawDocument)
    requires Consistent(env, db) && StoreRecord(env, db, d).Ok?
    ensures var (after, disposition) := StoreRecord(env, db, d).value;
      && (disposition == Existing ==> after == db && Bound(db.documents, d))
      && (disposition == Inserted ==>
            && !DocumentBlocked(db.documents, d) && Claimable(env, d)
            && var key := CollectionIdentity(env, d.sourceId, d.externalId).value;
            && key !in db.claims.index
            && after == db.(documents := WithDocument(db.documents, d), claims := WithClaims(db.claims, key, d)))
  {
    var t := db.documents;
    if DocumentBlocked(t, d) {
      ExistingDocument(t, d);
      ExistingClaims(env, t.rows, db.claims, InsertDocument(t, d).value.1.document);
    } else {
      NewClaims(env, t.rows, db.claims, Stored(d));
      StoredIdempotent(d);
    }
  }

  lemma StoreRecordKeeps(env: Env, db: Database, d: RawDocument)
    requires Consistent(env, db) && StoreRecord(env, db, d).Ok?
    ensures var (after, disposition) := StoreRecord(env, db, d).value;
      && Consistent(env, after) && Extends(db, after) && Bound(after.documents, d)
      && after.work == db.work && after.checkpoints == db.checkpoints
      && var n := if disposition == Inserted then 1 else 0;
      && |after.documents.rows| == |db.documents.rows| + n
      && |after.claims.rows| == |db.claims.rows| + 2 * n
  {
    StoreRecordShape(env, db, d);
    if StoreRecord(env, db, d).value.1 == Inserted {
      NewDocument(db.documents, d);
      NewClaimsOk(env, db.documents.rows, db.claims, d,
                  CollectionIdentity(env, d.sourceId, d.externalId).value);
    }
  }

  // ---- the batch ----

  /** What a stored batch leaves behind, with counters that match the growth of the tables. */
  ghost predicate BatchStored(env: Env, db: Database, records: seq<RawDocument>, p: Progress<Database>) {
    && Consistent(env, p.tables) && Extends(db, p.tables)
    && p.tables.work == db.work && p.tables.checkpoints == db.checkpoints
    && (forall d :: d in records ==> Bound(p.tables.documents, d))
    && p.added + p.existing == |records|
    && |p.tables.documents.rows| == |db.documents.rows| + p.added
    && |p.tables.claims.rows| == |db.claims.rows| + 2 * p.added
  }

  lemma BatchStep(env: Env, db: Database, front: seq<RawDocument>, d: RawDocument, p: Progress<Database>)
    requires BatchStored(env, db, front, p) && StoreRecord(env, p.tables, d).Ok?
    ensures var (after, disposition) := StoreRecord(env, p.tables, d).value;
            BatchStored(env, db, front + [d], Count(p, after, disposition))
  {
    hide StoreRecord, Consistent;
    StoreRecordKeeps(env, p.tables, d);
    var after := StoreRecord(env, p.tables, d).value.0;
    ExtendsTransitive(db, p.tables, after);
    forall e | e in front
      ensures Bound(after.documents, e)
    {
      BoundPersists(p.tables.documents, after.documents, e);
    }
  }

  lemma {:induction false} StoreRecordsKeep(env: Env, db: Database, records: seq<RawDocument>)
    requires Consistent(env, db) && StoreRecords(env, db, records).Ok?
    ensures BatchStored(env, db, records, StoreRecords(env, db, records).value)
  {
    hide StoreRecord, Consistent;
    if records != [] {
      var last := |records| - 1;
      StoreRecordsKeep(env, db, records[..last]);
      BatchStep(env, db, records[..last], records[last], StoreRecords(env, db, records[..last]).value);
      assert records == records[..last] + [records[last]];
    }
  }

  // ---- work ----

  /** The row holds work with this payload. */
  ghost predicate Holds(row: WorkRow, p: WorkPayload) {
    row.payloadJson == EncodePayload(p)
  }

  /** Work with the same kind, key and payload is stored under the item's identity. */
  ghost predicate WorkBound(t: WorkTable, w: WorkItem) {
    && WorkKeyOf(w) in t.index
    && t.index[WorkKeyOf(w)] in t.rows
    && Holds(t.rows[t.index[WorkKeyOf(w)]], w.payload)
  }

  /** A written row decodes to work with the row's id, kind, key and payload. */
  lemma WrittenReads(env: Env, id: Id, row: WorkRow)
    requires Written(env, id, row)
    ensures var r := RowToWorkItem(env, id, row);
      r.Ok? && r.value.id == id && WorkKeyOf(r.value) == RowKey(row) && Holds(row, r.value.payload)
  {
    hide RowToWorkItem, EncodePayload, ValidWorkItem;
    var w :| ValidWork(env, w) && w.id == id && row == RowOf(w);
    RowRoundTrip(env, w);
    CanonicalEncodesSame(w.payload);
  }

  lemma FoundWork(env: Env, t: WorkTable, id: Id)
    requires WorkOk(env, t) && id in t.rows
    ensures FindWork(env, t, id).Ok? && FindWork(env, t, id).value.Some?
    ensures var w := FindWork(env, t, id).value.value;
            w.id == id && WorkKeyOf(w) == RowKey(t.rows[id]) && Holds(t.rows[id], w.payload)
  {
    hide RowToWorkItem, EncodePayload, Written;
    WrittenReads(env, id, t.rows[id]);
  }

  lemma IndexedWork(env: Env, t: WorkTable, key: (WorkItemKind, string))
    requires WorkOk(env, t) && key in t.index
    ensures t.index[key] in t.rows && RowKey(t.rows[t.index[key]]) == key
  {
    hide Written;
  }

  /** Resolution finds the row under the id or under the key, and accepts it when both keys and payloads agree. */
  lemma ResolvedWork(env: Env, t: WorkTable, w: WorkItem)
    requires WorkOk(env, t) && (w.id in t.rows || WorkKeyOf(w) in t.index)
    requires ResolveWork(env, t, w).Ok?
    ensures WorkBound(t, w)
  {
    hide WorkOk, EncodePayload, FindWork;
    if w.id in t.rows {
      FoundWork(env, t, w.id);
      WorkIndexed(env, t, w.id);
    } else {
      IndexedWork(env, t, WorkKeyOf(w));
      FoundWork(env, t, t.index[WorkKeyOf(w)]);
      AbsentWork(env, t, w.id);
    }
  }

  lemma WorkIndexed(env: Env, t: WorkTable, id: Id)
    requires WorkOk(env, t) && id in t.rows
    ensures RowKey(t.rows[id]) in t.index && t.index[RowKey(t.rows[id])] == id
  {
    hide Written;
  }

  lemma AbsentWork(env: Env, t: WorkTable, id: Id)
    requires id !in t.rows
    ensures FindWork(env, t, id) == Ok(None)
  {
  }

  /**
   * Bound work resolves again unless its own id was taken by work with another kind or
   * idempotency key.
   */
  lemma WorkBoundResolves(env: Env, t: WorkTable, w: WorkItem)
    requires WorkOk(env, t) && WorkBound(t, w)
    ensures (w.id in t.rows ==> RowKey(t.rows[w.id]) == WorkKeyOf(w)) ==>
              InsertWork(env, t, w).Ok?
              && InsertWork(env, t, w).value.0 == t && InsertWork(env, t, w).value.1.disposition == Existing
    ensures !(w.id in t.rows ==> RowKey(t.rows[w.id]) == WorkKeyOf(w)) ==>
              InsertWork(env, t, w) == Err(WorkItemConflict)
  {
    hide WorkOk, EncodePayload, FindWork, RowToWorkItem, RowOf;
    IndexedWork(env, t, WorkKeyOf(w));
    FoundWork(env, t, t.index[WorkKeyOf(w)]);
    if w.id in t.rows {
      FoundWork(env, t, w.id);
      WorkIndexed(env, t, w.id);
    } else {
      AbsentWork(env, t, w.id);
    }
  }

  lemma NewWork(env: Env, t: WorkTable, w: WorkItem)
    requires WorkOk(env, t) && ValidWork(env, w) && w.id !in t.rows && WorkKeyOf(w) !in t.index
    ensures InsertWork(env, t, w) == Ok((WithWork(t, w), WorkResult(Canonical(w), Inserted)))
  {
    hide WorkOk, RowToWorkItem, RowOf, ValidWorkItem, ResolveWork;
    RowRoundTrip(env, w);
  }

  lemma NewWorkOk(env: Env, t: WorkTable, w: WorkItem)
    requires WorkOk(env, t) && ValidWork(env, w) && w.id !in t.rows && WorkKeyOf(w) !in t.index
    ensures WorkOk(env, WithWork(t, w)) && WorkExtends(t, WithWork(t, w)) && WorkBound(WithWork(t, w), w)
    ensures |WithWork(t, w).rows| == |t.rows| + 1
  {
    hide WorkOk, Written, RowOf, WorkKeyOf, Holds, ValidWork, Submap;
    NewRow(env, w);
    WorkRowOk(env, t, w.id, RowOf(w));
    MapGrows(t.rows, w.id, RowOf(w));
    MapGrows(t.index, WorkKeyOf(w), w.id);
  }

  lemma WorkRowOk(env: Env, t: WorkTable, id: Id, row: WorkRow)
    requires WorkOk(env, t) && id !in t.rows && RowKey(row) !in t.index && Written(env, id, row)
    ensures WorkOk(env, WorkTable(t.rows[id := row], t.index[RowKey(row) := id]))
  {
    hide Written, RowKey;
    assert forall x :: x in t.rows ==> RowKey(t.rows[x]) != RowKey(row);
  }

  lemma NewRow(env: Env, w: WorkItem)
    requires ValidWork(env, w)
    ensures Written(env, w.id, RowOf(w)) && RowKey(RowOf(w)) == WorkKeyOf(w) && Holds(RowOf(w), w.payload)
  {
    hide ValidWorkItem, EncodePayload;
  }

  lemma InsertWorkKeeps(env: Env, t: WorkTable, w: WorkItem)
    requires WorkOk(env, t) && ValidWork(env, w) && InsertWork(env, t, w).Ok?
    ensures var (after, r) := InsertWork(env, t, w).value;
      && WorkOk(env, after) && WorkExtends(t, after) && WorkBound(after, w)
      && (r.disposition == Existing ==> after == t)
      && (r.disposition == Inserted ==>
            w.id !in t.rows && WorkKeyOf(w) !in t.index && after == WithWork(t, w))
      && |after.rows| == |t.rows| + (if r.disposition == Inserted then 1 else 0)
  {
    hide WorkOk, ValidWork, WorkBound, WithWork, RowToWorkItem, WorkExtends, FindWork, FindWorkByIdentity, EncodePayload;
    if w.id in t.rows || WorkKeyOf(w) in t.index {
      ResolvedWork(env, t, w);
      WorkExtendsItself(t);
    } else {
      NewWork(env, t, w);
      NewWorkOk(env, t, w);
    }
  }

  lemma WorkExtendsItself(t: WorkTable)
    ensures WorkExtends(t, t)
  {
  }

  lemma WorkBoundPersists(a: WorkTable, b: WorkTable, w: WorkItem)
    requires WorkBound(a, w) && WorkExtends(a, b)
    ensures WorkBound(b, w)
  {
    hide Holds;
  }

  ghost predicate ItemsStored(env: Env, t: WorkTable, items: seq<WorkItem>, p: Progress<WorkTable>) {
    && WorkOk(env, p.tables) && WorkExtends(t, p.tables)
    && (forall w :: w in items ==> WorkBound(p.tables, w))
    && p.added + p.existing == |items|
    && |p.tables.rows| == |t.rows| + p.added
  }

  lemma WorkExtendsTransitive(a: WorkTable, b: WorkTable, c: WorkTable)
    requires WorkExtends(a, b) && WorkExtends(b, c)
    ensures WorkExtends(a, c)
  {
  }

  lemma ItemsStep(env: Env, t: WorkTable, front: seq<WorkItem>, w: WorkItem, p: Progress<WorkTable>)
    requires ItemsStored(env, t, front, p) && ValidWork(env, w) && InsertWork(env, p.tables, w).Ok?
    ensures var (after, r) := InsertWork(env, p.tables, w).value;
            ItemsStored(env, t, front + [w], Count(p, after, r.disposition))
  {
    hide WorkOk, InsertWork, ValidWork, WorkBound, WorkExtends, WithWork, WorkKeyOf;
    InsertWorkKeeps(env, p.tables, w);
    var after := InsertWork(env, p.tables, w).value.0;
    WorkExtendsTransitive(t, p.tables, after);
    forall e | e in front
      ensures WorkBound(after, e)
    {
      WorkBoundPersists(p.tables, after, e);
    }
  }

  lemma {:induction false} StoreWorkKeeps(env: Env, t: WorkTable, items: seq<WorkItem>)
    requires WorkOk(env, t) && StoreWork(env, t, items).Ok?
    requires forall w :: w in items ==> ValidWork(env, w)
    ensures ItemsStored(env, t, items, StoreWork(env, t, items).value)
  {
    hide WorkOk, InsertWork, ValidWork, WorkBound, WorkExtends;
    if items == [] {
      WorkExtendsItself(t);
    } else {
      var last := |items| - 1;
      StoreWorkKeeps(env, t, items[..last]);
      ItemsStep(env, t, items[..last], items[last], StoreWork(env, t, items[..last]).value);
      assert items == items[..last] + [items[last]];
    }
  }
}
