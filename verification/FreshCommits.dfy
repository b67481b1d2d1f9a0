/** Commands whose records and work are all new: they are stored whole. */
module FreshCommits {
  import opened Wrappers
  import opened IngestionModels
  import opened IngestionWork
  import opened WorkPayloadCodec
  import opened Deduplication
  import opened IngestionTables
  import opened AtomicCommit
  import opened CollectionRunner
  import opened CollectionReplay
  import opened CheckpointHistory
  import opened Sorting

  /** What is assumed of SHA-256: no collisions and no empty digest. */
  ghost predicate GoodHash(env: Env) {
    CollisionFree(env) && forall x: string :: env.hash(x) != ""
  }

  // ---- new records and new work are stored ----

  lemma FreshKeys(env: Env, db: Database, d: RawDocument)
    requires Consistent(env, db) && DerivedDocuments(env, db.documents)
    requires DerivedId(env, d) && d.id !in db.documents.rows
    ensures DocumentKeyOf(d) !in db.documents.index
    ensures CollectionIdentity(env, d.sourceId, d.externalId).value !in db.claims.index
  {
    hide CollectionIdentity;
    var t := db.documents;
    assert forall id :: id in t.rows ==> DerivedId(env, t.rows[id]) && t.rows[id].id == id;
    forall key | key in db.claims.index
      ensures db.claims.index[key] in t.rows
      ensures var e := t.rows[db.claims.index[key]]; CollectionIdentity(env, e.sourceId, e.externalId) == Some(key)
    {
      ClaimOwner(env, db, key);
    }
  }

  lemma ClaimOwner(env: Env, db: Database, key: string)
    requires Consistent(env, db) && key in db.claims.index
    ensures db.claims.index[key] in db.documents.rows
    ensures var d := db.documents.rows[db.claims.index[key]];
            CollectionIdentity(env, d.sourceId, d.externalId) == Some(key)
  {
    hide CollectionIdentity;
    assert ClaimKey(CollectionClaim, key, db.claims.index[key]) in db.claims.rows;
  }

  lemma FreshRecordStored(env: Env, db: Database, d: RawDocument)
    requires Consistent(env, db) && DerivedDocuments(env, db.documents) && GoodHash(env)
    requires DerivedId(env, d) && d.id !in db.documents.rows && ValidDocument(env, d)
    ensures StoreRecord(env, db, d).Ok? && StoreRecord(env, db, d).value.1 == Inserted
    ensures StoreRecord(env, db, d).value.0.documents == WithDocument(db.documents, d)
    ensures Consistent(env, StoreRecord(env, db, d).value.0)
    ensures DerivedDocuments(env, StoreRecord(env, db, d).value.0.documents)
  {
    hide Consistent, StoreRecord, ValidDocument, GoodHash, Extends, Bound;
    FreshKeys(env, db, d);
    FreshRecord(env, db, d);
    StoreRecordKeeps(env, db, d);
    DerivedWith(env, db.documents, d);
  }

  lemma DerivedWith(env: Env, t: DocumentTable, d: RawDocument)
    requires DerivedDocuments(env, t) && DerivedId(env, d)
    ensures DerivedDocuments(env, WithDocument(t, d))
  {
    hide RawDocumentId, SortBy;
  }

  lemma FreshRecord(env: Env, db: Database, d: RawDocument)
    requires Consistent(env, db) && GoodHash(env)
    requires DerivedId(env, d) && d.id !in db.documents.rows && ValidDocument(env, d)
    requires DocumentKeyOf(d) !in db.documents.index
    requires CollectionIdentity(env, d.sourceId, d.externalId).value !in db.claims.index
    ensures StoreRecord(env, db, d).Ok? && StoreRecord(env, db, d).value.1 == Inserted
    ensures StoreRecord(env, db, d).value.0.documents == WithDocument(db.documents, d)
  {
    hide CollectionIdentity, RecordClaims, WithClaims, Equivalent, DocumentsOk, WorkOk, ClaimsOk, Claimable, SortBy;
    DigestsGiven(env, d);
    NewClaims(env, db.documents.rows, db.claims, Stored(d));
    StoredIdempotent(d);
  }

  /** A derived record can be claimed when no digest is empty. */
  lemma DigestsGiven(env: Env, d: RawDocument)
    requires GoodHash(env) && DerivedId(env, d) && ValidDocument(env, d)
    ensures Claimable(env, Stored(d))
  {
  }

  lemma {:induction false} FreshBatchStored(env: Env, db: Database, records: seq<RawDocument>)
    requires Consistent(env, db) && DerivedDocuments(env, db.documents) && GoodHash(env)
    requires DistinctIds(records)
    requires forall d :: d in records ==>
               DerivedId(env, d) && ValidDocument(env, d) && d.id !in db.documents.rows
    ensures StoreRecords(env, db, records).Ok?
    ensures var p := StoreRecords(env, db, records).value;
            && p.added == |records| && p.existing == 0 && p.tables.work == db.work
            && Consistent(env, p.tables) && DerivedDocuments(env, p.tables.documents)
            && (forall id :: id in p.tables.documents.rows ==>
                  id in db.documents.rows || exists d :: d in records && d.id == id)
  {
    hide Consistent, StoreRecord, DerivedDocuments, DerivedId, ValidDocument, GoodHash, WithDocument;
    if records != [] {
      var last := |records| - 1;
      var front := records[..last];
      assert records == front + [records[last]];
      FreshBatchStored(env, db, front);
      var mid := StoreRecords(env, db, front).value.tables;
      var d := records[last];
      assert d.id !in mid.documents.rows by {
        assert forall e :: e in front ==> e.id != d.id;
      }
      FreshRecordStored(env, mid, d);
      WorkUntouched(env, mid, d);
      RowsWith(mid.documents, d);
      assert d in records;
    }
  }

  lemma RowsWith(t: DocumentTable, d: RawDocument)
    ensures WithDocument(t, d).rows.Keys == t.rows.Keys + {d.id}
  {
  }

  lemma WorkUntouched(env: Env, db: Database, d: RawDocument)
    requires StoreRecord(env, db, d).Ok?
    ensures StoreRecord(env, db, d).value.0.work == db.work
  {
  }

  /** Work rows that are the runner's, for documents in a given set. */
  ghost predicate WorkNames(env: Env, documents: set<Id>, t: WorkTable) {
    forall id :: id in t.rows ==> NamesStored(env, documents, id, t.rows[id])
  }

  lemma FreshWork(env: Env, documents: set<Id>, t: WorkTable, w: WorkItem)
    requires WorkOk(env, t) && WorkNames(env, documents, t) && CollisionFree(env)
    requires IsDocumentWork(env, w) && w.payload.rawDocumentId !in documents
    ensures w.id !in t.rows && WorkKeyOf(w) !in t.index
  {
    hide NamesStored, CollisionFree, WorkOk, IsDocumentWork;
    if w.id in t.rows {
      SameDocument(env, documents, w.id, t.rows[w.id], w);
    }
    if WorkKeyOf(w) in t.index {
      IndexedWork(env, t, WorkKeyOf(w));
      SameDocument(env, documents, t.index[WorkKeyOf(w)], t.rows[t.index[WorkKeyOf(w)]], w);
    }
  }

  /** The id of the runner's work determines its document, and so does its key. */
  lemma SameDocument(env: Env, documents: set<Id>, id: Id, row: WorkRow, w: WorkItem)
    requires CollisionFree(env) && NamesStored(env, documents, id, row) && IsDocumentWork(env, w)
    requires id == w.id || row.idempotencyKey == w.idempotencyKey
    ensures w.payload.rawDocumentId in documents
  {
    hide EncodePayload, DocumentKey, CollisionFree;
    var a :| a in documents && id == DocumentWork(env, a, row.createdAt).id
             && row == RowOf(DocumentWork(env, a, row.createdAt));
    var b := w.payload.rawDocumentId;
    if id == w.id {
      PrefixInjective("work_", DocumentKey(env, a), DocumentKey(env, b));
    } else {
      PrefixInjective("document:", DocumentKey(env, a), DocumentKey(env, b));
    }
    DocumentKeyInjective(env, a, b);
  }

  lemma FreshWorkStored(env: Env, documents: set<Id>, t: WorkTable, w: WorkItem)
    requires WorkOk(env, t) && WorkNames(env, documents, t) && CollisionFree(env)
    requires ValidWork(env, w) && IsDocumentWork(env, w) && w.payload.rawDocumentId !in documents
    ensures InsertWork(env, t, w).Ok? && InsertWork(env, t, w).value.1.disposition == Inserted
    ensures WorkOk(env, InsertWork(env, t, w).value.0)
    ensures WorkNames(env, documents + {w.payload.rawDocumentId}, InsertWork(env, t, w).value.0)
  {
    hide RowOf, WorkOk, InsertWork, ValidWork, NamesStored, DocumentWork;
    FreshWork(env, documents, t, w);
    NewWork(env, t, w);
    InsertWorkKeeps(env, t, w);
    var all := documents + {w.payload.rawDocumentId};
    NewWorkNamesStored(env, all, w);
    forall id | id in t.rows
      ensures NamesStored(env, all, id, t.rows[id])
    {
      NamesGrow(env, documents, all, id, t.rows[id]);
    }
  }

  function WorkDocuments(items: seq<WorkItem>): set<Id> {
    set i | 0 <= i < |items| && items[i].payload.DocumentPayload? :: items[i].payload.rawDocumentId
  }

  lemma {:induction false} FreshItemsStored(env: Env, documents: set<Id>, t: WorkTable, items: seq<WorkItem>)
    requires WorkOk(env, t) && WorkNames(env, documents, t) && CollisionFree(env)
    requires forall w :: w in items ==>
               ValidWork(env, w) && IsDocumentWork(env, w) && w.payload.rawDocumentId !in documents
    requires forall i, j :: 0 <= i < j < |items| ==> items[i].payload != items[j].payload
    ensures StoreWork(env, t, items).Ok?
    ensures StoreWork(env, t, items).value.added == |items| && StoreWork(env, t, items).value.existing == 0
    ensures WorkOk(env, StoreWork(env, t, items).value.tables)
    ensures WorkNames(env, documents + WorkDocuments(items), StoreWork(env, t, items).value.tables)
  {
    hide WorkOk, InsertWork, WorkNames, ValidWork, DocumentWork;
    if items == [] {
      assert documents + WorkDocuments(items) == documents;
    } else {
      var last := |items| - 1;
      var front := items[..last];
      assert items == front + [items[last]];
      FreshItemsStored(env, documents, t, front);
      var w := items[last];
      var mid := StoreWork(env, t, front).value.tables;
      assert w.payload.rawDocumentId !in WorkDocuments(front);
      FreshWorkStored(env, documents + WorkDocuments(front), mid, w);
      assert documents + WorkDocuments(items)
          == documents + WorkDocuments(front) + {w.payload.rawDocumentId};
    }
  }

  // ---- a whole command ----

  lemma DerivedNames(env: Env, db: Database)
    requires Derived(env, db)
    ensures WorkNames(env, db.documents.rows.Keys, db.work)
  {
    hide NamesStored;
  }

  /** Fresh records and fresh work under an accepted checkpoint: the commit succeeds. */
  lemma FreshCommit(env: Env, db: Database, c: CollectionCommitCommand)
    requires Consistent(env, db) && Derived(env, db) && GoodHash(env)
    requires ValidCommand(env, c) && DerivedCommand(env, c) && Precheck(c).Ok?
    requires forall d :: d in c.batch.records ==> d.id !in db.documents.rows
    requires RowAfter(db, c).Ok?
    ensures Commit(env, db, c).Ok?
    ensures Commit(env, db, c).value.1.documentsInserted == |c.batch.records|
    ensures Commit(env, db, c).value.1.workCreated == |c.documentWorkItems|
  {
    hide Consistent, StoreRecords, StoreWork, Derived, ValidWork, DerivedId, IsDocumentWork, WorkNames, WorkDocuments;
    CommandBatch(env, c);
    DerivedNames(env, db);
    DerivedPart(env, db);
    FreshBatchStored(env, db, c.batch.records);
    var p := StoreRecords(env, db, c.batch.records).value;
    BatchCheckpoints(env, db, c.batch.records);
    WorkPart(env, db);
    FreshItemsStored(env, db.documents.rows.Keys, db.work, c.documentWorkItems);
  }

  lemma DerivedPart(env: Env, db: Database)
    requires Derived(env, db)
    ensures DerivedDocuments(env, db.documents)
  {
  }

  lemma BatchCheckpoints(env: Env, db: Database, records: seq<RawDocument>)
    requires Consistent(env, db) && StoreRecords(env, db, records).Ok?
    ensures StoreRecords(env, db, records).value.tables.checkpoints == db.checkpoints
  {
    hide Consistent, StoreRecords, Extends;
    StoreRecordsKeep(env, db, records);
  }

  lemma CommandBatch(env: Env, c: CollectionCommitCommand)
    requires ValidCommand(env, c) && DerivedCommand(env, c) && Precheck(c).Ok?
    ensures DistinctIds(c.batch.records)
    ensures forall d :: d in c.batch.records ==> ValidDocument(env, d) && DerivedId(env, d)
    ensures forall w :: w in c.documentWorkItems ==>
              ValidWork(env, w) && IsDocumentWork(env, w)
              && exists d :: d in c.batch.records && d.id == w.payload.rawDocumentId
    ensures forall i, j :: 0 <= i < j < |c.documentWorkItems| ==>
              c.documentWorkItems[i].payload != c.documentWorkItems[j].payload
  {
    CommandWorkNamesBatch(env, c);
  }

  // ---- the command of a page ----

  lemma WorkValid(env: Env, d: RawDocument, now: string)
    requires ValidDocument(env, d)
    ensures ValidWork(env, DocumentWork(env, d.id, now)) && IsDocumentWork(env, DocumentWork(env, d.id, now))
    ensures DocumentWork(env, d.id, now).payload == DocumentPayload(d.id)
  {
  }

  predicate BoundDocument(env: Env, connector: Connector, sourceId: Id, d: RawDocument) {
    && ValidDocument(env, d) && d.sourceId == sourceId
    && d.connectorName == connector.name && d.connectorVersion == connector.version
  }

  lemma CommandValid(env: Env, connector: Connector, sourceId: Id, checkpoint: Option<IngestionCheckpoint>, limit: int,
                     batch: CollectionBatch, now: string)
    requires connector.name != "" && connector.version != ""
    requires sourceId != "" && limit > 0 && ValidBatch(env, batch) && !batch.isPartial
    requires checkpoint.Some? ==>
               && ValidCheckpoint(env, checkpoint.value) && checkpoint.value.sourceId == sourceId
               && checkpoint.value.connectorVersion == connector.version
    requires forall d :: d in batch.records ==> BoundDocument(env, connector, sourceId, d)
    ensures var work := PrepareCollectionWork(env, sourceId, connector, checkpoint, limit, now);
            work.Ok? && ValidCommand(env, CommandOf(env, sourceId, connector, checkpoint, work.value, batch, now))
  {
    hide CollectionKey, FirstOccurrences, DocumentWork, ValidDocument, DocumentWorkItems;
    DistinctBatchAccepted(batch.records);
    WorkDistinct(env, batch.records, now);
    forall w | w in DocumentWorkItems(env, batch.records, now)
      ensures ValidWorkItem(env, w)
      ensures exists d :: d in batch.records && d.id == w.payload.rawDocumentId
    {
      var d :| d in batch.records && w == DocumentWork(env, d.id, now);
      WorkValid(env, d, now);
    }
  }

  lemma WorkDistinct(env: Env, records: seq<RawDocument>, now: string)
    requires DistinctIds(records)
    ensures var items := DocumentWorkItems(env, records, now);
      && |items| == |records|
      && (forall w :: w in items ==>
            w.payload.DocumentPayload? && exists d :: d in records && w == DocumentWork(env, d.id, now))
      && forall i, j :: 0 <= i < j < |items| ==> items[i].payload != items[j].payload
  {
    var items := DocumentWorkItems(env, records, now);
    forall w | w in items
      ensures exists d :: d in records && w == DocumentWork(env, d.id, now)
    {
      var i :| 0 <= i < |items| && items[i] == w;
      assert records[i] in records;
    }
  }

  /** The checkpoint that a command was prepared from accepts it while it is still the stored one. */
  lemma CheckpointAccepted(env: Env, connectors: map<Id, Connector>, db: Database, sourceId: Id,
                           c: CollectionCommitCommand)
    requires BindingsOk(env, connectors, db) && sourceId in connectors
    requires RunnerMade(env, connectors[sourceId], sourceId, c)
    requires Basis(c) == GetCheckpoint(db, sourceId)
    ensures RowAfter(db, c).Ok? && Precheck(c).Ok?
  {
    hide CollectionKey, FirstOccurrences, ValidCommand, ValidWorkItem, DocumentKey, RunnerMade, NextCheckpoint;
    MadeBinding(env, connectors[sourceId], sourceId, c);
    MadeParts(env, connectors[sourceId], sourceId, c);
    NextBelongs(sourceId, connectors[sourceId], Basis(c), c.batch.nextCursor, c.batch.collectedAt);
  }

  lemma NextBelongs(sourceId: Id, connector: Connector, current: Option<IngestionCheckpoint>,
                    nextCursor: Option<string>, collectedAt: string)
    ensures NextCheckpoint(sourceId, connector, current, nextCursor, collectedAt).sourceId == sourceId
  {
  }

  // ---- records whose ids are taken ----

  /** A record whose id belongs to a document that differs from it is refused. */
  lemma ConflictingRecord(env: Env, db: Database, d: RawDocument)
    requires DocumentsOk(db.documents) && d.id in db.documents.rows && !Equivalent(db.documents.rows[d.id], d)
    ensures StoreRecord(env, db, d) == Err(DocumentConflict)
  {
    hide Equivalent, RecordClaims, DocumentKeyOf, Stored;
  }

  /** No record of the batch is equivalent to a stored document with its id. */
  ghost predicate NoneEquivalent(t: DocumentTable, records: seq<RawDocument>) {
    forall d :: d in records && d.id in t.rows ==> !Equivalent(t.rows[d.id], d)
  }

  /** A batch in which some id is taken is refused as a whole. */
  lemma {:induction false} ConflictingBatch(env: Env, db: Database, records: seq<RawDocument>)
    requires Consistent(env, db) && DerivedDocuments(env, db.documents) && GoodHash(env) && DistinctIds(records)
    requires forall d :: d in records ==> DerivedId(env, d) && ValidDocument(env, d)
    requires NoneEquivalent(db.documents, records) && exists d :: d in records && d.id in db.documents.rows
    ensures StoreRecords(env, db, records) == Err(DocumentConflict)
  {
    hide Consistent, StoreRecord, DerivedDocuments, DerivedId, ValidDocument, GoodHash, Equivalent;
    var last := |records| - 1;
    var front, d := records[..last], records[last];
    assert records == front + [d];
    if exists e :: e in front && e.id in db.documents.rows {
      ConflictingBatch(env, db, front);
    } else {
      FreshBatchStored(env, db, front);
      var mid := StoreRecords(env, db, front).value.tables;
      assert d in records;
      RowsStay(env, db, front, d.id);
      DocumentsPart(env, mid);
      ConflictingRecord(env, mid, d);
    }
  }

  lemma RowsStay(env: Env, db: Database, records: seq<RawDocument>, id: Id)
    requires Consistent(env, db) && StoreRecords(env, db, records).Ok? && id in db.documents.rows
    ensures var after := StoreRecords(env, db, records).value.tables.documents;
            id in after.rows && after.rows[id] == db.documents.rows[id]
  {
    hide Consistent, StoreRecords, ClaimsExtend, WorkExtends, Bound;
    StoreRecordsKeep(env, db, records);
  }

  lemma ConflictingCommit(env: Env, db: Database, c: CollectionCommitCommand)
    requires Consistent(env, db) && Derived(env, db) && GoodHash(env)
    requires ValidCommand(env, c) && DerivedCommand(env, c) && Precheck(c).Ok?
    requires NoneEquivalent(db.documents, c.batch.records)
    requires exists d :: d in c.batch.records && d.id in db.documents.rows
    ensures Commit(env, db, c) == Err(DocumentConflict)
  {
    hide Consistent, StoreRecords, StoreWork, Derived, ValidWork, DerivedId, IsDocumentWork, NoneEquivalent;
    CommandBatch(env, c);
    DerivedPart(env, db);
    ConflictingBatch(env, db, c.batch.records);
  }
}
