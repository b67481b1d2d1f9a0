/** Committing a batch again: when it succeeds, and that it then stores nothing new. */
module CollectionReplay {
  import opened Wrappers
  import opened IngestionModels
  import opened IngestionWork
  import opened WorkPayloadCodec
  import opened Deduplication
  import opened IngestionTables
  import opened AtomicCommit
  import opened CollectionCommits
  import opened CollectionRunner

  /** The record's own id is free or belongs to a document with its identity. */
  predicate OwnsId(t: DocumentTable, d: RawDocument) {
    d.id in t.rows ==> DocumentKeyOf(t.rows[d.id]) == DocumentKeyOf(d)
  }

  /** The item's own id is free or belongs to work with its kind and key. */
  predicate OwnsWorkId(t: WorkTable, w: WorkItem) {
    w.id in t.rows ==> RowKey(t.rows[w.id]) == WorkKeyOf(w)
  }

  // ---- what is bound is found ----

  lemma BoundRecord(env: Env, db: Database, d: RawDocument)
    requires Consistent(env, db) && Bound(db.documents, d)
    ensures StoreRecord(env, db, d) == if OwnsId(db.documents, d) then Ok((db, Existing)) else Err(DocumentConflict)
  {
    hide InsertDocument, RecordClaims, ClaimsOk, WorkOk, Equivalent, DocumentKeyOf;
    BoundResolves(db.documents, d);
    if OwnsId(db.documents, d) {
      var t := db.documents;
      ExistingClaims(env, t.rows, db.claims, t.rows[t.index[DocumentKeyOf(d)]]);
    }
  }

  lemma {:induction false} BoundRecords(env: Env, db: Database, records: seq<RawDocument>)
    requires Consistent(env, db) && forall d :: d in records ==> Bound(db.documents, d)
    ensures if forall d :: d in records ==> OwnsId(db.documents, d)
            then StoreRecords(env, db, records) == Ok(Progress(db, 0, |records|))
            else StoreRecords(env, db, records).Err?
  {
    hide Consistent, StoreRecord, Bound, OwnsId;
    if records != [] {
      var last := |records| - 1;
      var front := records[..last];
      BoundRecords(env, db, front);
      BoundRecord(env, db, records[last]);
      assert records == front + [records[last]];
    }
  }

  lemma {:induction false} BoundItems(env: Env, t: WorkTable, items: seq<WorkItem>)
    requires WorkOk(env, t) && forall w :: w in items ==> WorkBound(t, w)
    ensures if forall w :: w in items ==> OwnsWorkId(t, w)
            then StoreWork(env, t, items) == Ok(Progress(t, 0, |items|))
            else StoreWork(env, t, items).Err?
  {
    hide WorkOk, InsertWork, WorkBound;
    if items != [] {
      var last := |items| - 1;
      var front := items[..last];
      BoundItems(env, t, front);
      WorkBoundResolves(env, t, items[last]);
      if OwnsWorkId(t, items[last]) {
        assert InsertWork(env, t, items[last]) == Ok((t, InsertWork(env, t, items[last]).value.1));
      } else {
        assert StoreWork(env, t, items).Err?;
      }
      assert items == front + [items[last]];
    }
  }

  /** No id of the command has come to belong to another identity. */
  predicate NothingRebound(db: Database, c: CollectionCommitCommand) {
    && (forall d :: d in c.batch.records ==> OwnsId(db.documents, d))
    && (forall w :: w in c.documentWorkItems ==> OwnsWorkId(db.work, w))
  }

  function RowAfter(db: Database, c: CollectionCommitCommand): Result<CheckpointRow, PersistenceError> {
    NextRow(CurrentRow(db, c.nextCheckpoint.sourceId), c.nextCheckpoint, c.expectedRevision, ConnectorNameOf(c))
  }

  lemma BoundCommit(env: Env, db: Database, c: CollectionCommitCommand)
    requires Consistent(env, db) && Precheck(c).Ok?
    requires forall d :: d in c.batch.records ==> Bound(db.documents, d)
    requires forall w :: w in c.documentWorkItems ==> WorkBound(db.work, w)
    ensures Commit(env, db, c).Ok? <==> NothingRebound(db, c) && RowAfter(db, c).Ok?
    ensures Commit(env, db, c).Ok? ==>
              Commit(env, db, c).value
              == (db.(checkpoints := db.checkpoints[c.nextCheckpoint.sourceId := RowAfter(db, c).value]),
                  CollectionCommitResult(0, |c.batch.records|, 0, |c.documentWorkItems|,
                                         CheckpointOf(c.nextCheckpoint.sourceId, RowAfter(db, c).value)))
  {
    hide StoreRecords, StoreWork, Consistent, Bound, WorkBound, Precheck;
    BoundRecords(env, db, c.batch.records);
    assert WorkOk(env, db.work) by {
      WorkPart(env, db);
    }
    BoundItems(env, db.work, c.documentWorkItems);
  }

  lemma WorkPart(env: Env, db: Database)
    requires Consistent(env, db)
    ensures WorkOk(env, db.work)
  {
  }

  // ---- replay ----

  /** The same work, prepared at another time. */
  predicate SameWork(a: seq<WorkItem>, b: seq<WorkItem>) {
    |a| == |b| && forall i :: 0 <= i < |a| ==> b[i] == a[i].(createdAt := b[i].createdAt)
  }

  lemma SameWorkBound(t: WorkTable, a: seq<WorkItem>, b: seq<WorkItem>)
    requires SameWork(a, b) && forall w :: w in a ==> WorkBound(t, w)
    ensures forall w :: w in b ==> WorkBound(t, w)
  {
    hide Holds;
    forall w | w in b
      ensures WorkBound(t, w)
    {
      var i :| 0 <= i < |b| && b[i] == w;
      assert a[i] in a;
      assert WorkBound(t, a[i]);
    }
  }

  /** What a commit bound is bound ever after. */
  lemma StillBound(env: Env, before: Database, c: CollectionCommitCommand, db: Database)
    requires Consistent(env, before) && ValidCommand(env, c) && Commit(env, before, c).Ok?
    requires Extends(Commit(env, before, c).value.0, db)
    ensures forall d :: d in c.batch.records ==> Bound(db.documents, d)
    ensures forall w :: w in c.documentWorkItems ==> WorkBound(db.work, w)
  {
    hide Commit, Consistent, Bound, WorkBound, ValidCommand, CheckpointMoved;
    CommitStoresAll(env, before, c);
    var first := Commit(env, before, c).value.0;
    forall d | d in c.batch.records
      ensures Bound(db.documents, d)
    {
      BoundPersists(first.documents, db.documents, d);
    }
    forall w | w in c.documentWorkItems
      ensures WorkBound(db.work, w)
    {
      WorkBoundPersists(first.work, db.work, w);
    }
  }

  lemma SameSchemas(c: CollectionCommitCommand, replay: CollectionCommitCommand)
    requires SameWork(c.documentWorkItems, replay.documentWorkItems) && Precheck(c).Ok?
    requires ConnectorNameOf(replay) == ConnectorNameOf(c)
    ensures Precheck(replay).Ok?
  {
    forall w | w in replay.documentWorkItems
      ensures w.schemaVersion == SCHEMA_VERSION
    {
      var i :| 0 <= i < |replay.documentWorkItems| && replay.documentWorkItems[i] == w;
      assert c.documentWorkItems[i] in c.documentWorkItems;
    }
  }

  /**
   * Replay of a committed batch against any later state of the tables. It succeeds exactly when
   * the checkpoint accepts it and none of its ids has been bound to another identity since; it
   * then inserts and creates nothing, leaves documents, claims and work as they are although
   * the work items carry new creation times, and raises the checkpoint revision by one.
   */
  lemma ReplayIff(env: Env, before: Database, c: CollectionCommitCommand, db: Database, replay: CollectionCommitCommand)
    requires Consistent(env, before) && ValidCommand(env, c) && Commit(env, before, c).Ok?
    requires Consistent(env, db) && Extends(Commit(env, before, c).value.0, db)
    requires replay.collectionWork.payload.CollectionPayload? && ConnectorNameOf(replay) == ConnectorNameOf(c)
    requires replay.batch.records == c.batch.records && SameWork(c.documentWorkItems, replay.documentWorkItems)
    ensures Commit(env, db, replay).Ok? <==> NothingRebound(db, replay) && RowAfter(db, replay).Ok?
    ensures Commit(env, db, replay).Ok? ==>
      var (after, r) := Commit(env, db, replay).value;
      && after.documents == db.documents && after.claims == db.claims && after.work == db.work
      && r.documentsInserted == 0 && r.documentsExisting == |c.batch.records|
      && r.workCreated == 0 && r.workExisting == |c.documentWorkItems|
      && (replay.expectedRevision.Some? ==> r.checkpoint.revision == replay.expectedRevision.value + 1)
  {
    hide Commit, Consistent, Bound, WorkBound, ValidCommand, NothingRebound;
    StillBound(env, before, c, db);
    SameWorkBound(db.work, c.documentWorkItems, replay.documentWorkItems);
    CommitSteps(env, before, c);
    SameSchemas(c, replay);
    BoundCommit(env, db, replay);
  }

  // ---- ids derived by the ingestion layer ----

  /** Work as the runner prepares it for a document. */
  predicate IsDocumentWork(env: Env, w: WorkItem) {
    w.payload.DocumentPayload? && w == DocumentWork(env, w.payload.rawDocumentId, w.createdAt)
  }

  predicate DerivedId(env: Env, d: RawDocument) {
    RawDocumentId(env, d.sourceId, d.externalId) == Some(d.id)
  }

  /** A command whose ids were derived by `raw_document_id` and `_document_work`. */
  predicate DerivedCommand(env: Env, c: CollectionCommitCommand) {
    && (forall d :: d in c.batch.records ==> DerivedId(env, d))
    && (forall w :: w in c.documentWorkItems ==> IsDocumentWork(env, w))
  }

  ghost predicate DerivedDocuments(env: Env, t: DocumentTable) {
    forall id :: id in t.rows ==> DerivedId(env, t.rows[id])
  }

  /** The row is that of the runner's work for one of the documents. */
  ghost predicate NamesStored(env: Env, documents: set<Id>, id: Id, row: WorkRow) {
    exists d :: d in documents && id == DocumentWork(env, d, row.createdAt).id
                && row == RowOf(DocumentWork(env, d, row.createdAt))
  }

  /** Such a row decodes to exactly that work. */
  lemma NamedWorkReads(env: Env, documents: set<Id>, id: Id, row: WorkRow)
    requires NamesStored(env, documents, id, row) && "" !in documents
    ensures exists d :: d in documents && RowToWorkItem(env, id, row) == Ok(DocumentWork(env, d, row.createdAt))
  {
    hide RowToWorkItem, EncodePayload, DocumentKey;
    var d :| d in documents && id == DocumentWork(env, d, row.createdAt).id
             && row == RowOf(DocumentWork(env, d, row.createdAt));
    RowRoundTrip(env, DocumentWork(env, d, row.createdAt));
  }

  /** Document ids are derived, and every work row names a stored document. */
  ghost predicate Derived(env: Env, db: Database) {
    && DerivedDocuments(env, db.documents)
    && forall id :: id in db.work.rows ==> NamesStored(env, db.documents.rows.Keys, id, db.work.rows[id])
  }

  lemma DerivedRowOfBound(env: Env, t: DocumentTable, d: RawDocument)
    requires DocumentsOk(t) && DerivedDocuments(env, t) && Bound(t, d) && DerivedId(env, d)
    ensures d.id in t.rows && t.index[DocumentKeyOf(d)] == d.id && t.rows[d.id] == Stored(d)
    ensures OwnsId(t, d)
  {
    var id := t.index[DocumentKeyOf(d)];
    assert DerivedId(env, t.rows[id]);
    assert Stored(t.rows[id]).(id := "") == Stored(d).(id := "");
    assert Stored(d).id == d.id && Stored(t.rows[id]).id == id;
  }

  lemma DerivedDocumentsStay(env: Env, before: DocumentTable, records: seq<RawDocument>, after: DocumentTable)
    requires DerivedDocuments(env, before) && DocumentsExtend(before, after)
    requires DocumentsFrom(before, records, after)
    requires forall d :: d in records ==> DerivedId(env, d)
    ensures DerivedDocuments(env, after)
  {
  }

  lemma NewWorkNamesStored(env: Env, documents: set<Id>, w: WorkItem)
    requires IsDocumentWork(env, w) && w.payload.rawDocumentId in documents
    ensures NamesStored(env, documents, w.id, RowOf(w))
  {
    hide EncodePayload, DocumentKey;
    assert RowOf(w).createdAt == w.createdAt;
  }

  lemma NamesGrow(env: Env, a: set<Id>, b: set<Id>, id: Id, row: WorkRow)
    requires NamesStored(env, a, id, row) && a <= b
    ensures NamesStored(env, b, id, row)
  {
    hide EncodePayload, DocumentWork;
  }

  lemma NamesStay(env: Env, before: Database, c: CollectionCommitCommand, after: Database)
    requires Derived(env, before) && Extends(before, after)
    requires WorkFrom(before.work, c.documentWorkItems, after.work)
    requires forall w :: w in c.documentWorkItems ==>
               IsDocumentWork(env, w) && w.payload.rawDocumentId in after.documents.rows
    ensures forall id :: id in after.work.rows ==> NamesStored(env, after.documents.rows.Keys, id, after.work.rows[id])
  {
    hide RowOf, IsDocumentWork, ClaimsExtend, NamesStored;
    forall id | id in after.work.rows
      ensures NamesStored(env, after.documents.rows.Keys, id, after.work.rows[id])
    {
      if id in before.work.rows {
        NamesGrow(env, before.documents.rows.Keys, after.documents.rows.Keys, id, before.work.rows[id]);
      } else {
        var w :| w in c.documentWorkItems && id == w.id && after.work.rows[id] == RowOf(w);
        NewWorkNamesStored(env, after.documents.rows.Keys, w);
      }
    }
  }

  lemma CommandWorkNamesBatch(env: Env, c: CollectionCommitCommand)
    requires ValidCommand(env, c)
    ensures forall w :: w in c.documentWorkItems ==>
              w.payload.DocumentPayload? && exists d :: d in c.batch.records && d.id == w.payload.rawDocumentId
  {
  }

  /** Commits of derived commands keep every work row naming a stored document. */
  lemma CommitStaysDerived(env: Env, db: Database, c: CollectionCommitCommand)
    requires Consistent(env, db) && Derived(env, db) && ValidCommand(env, c) && DerivedCommand(env, c)
    requires Commit(env, db, c).Ok?
    ensures Derived(env, Commit(env, db, c).value.0)
    ensures forall d :: d in c.batch.records ==>
              var t := Commit(env, db, c).value.0.documents;
              d.id in t.rows && t.rows[d.id] == Stored(d) && DocumentKeyOf(d) in t.index && t.index[DocumentKeyOf(d)] == d.id
  {
    hide Commit, ValidCommand, ClaimsOk, WorkOk, Bound, WorkBound, DerivedId, IsDocumentWork, CheckpointMoved,
      DocumentsFrom, WorkFrom, IdsAdded, NamesStored, ValidWork;
    CommitStoresAll(env, db, c);
    CommitFrom(env, db, c);
    CommitSteps(env, db, c);
    PrecheckedWork(env, c);
    CommandWorkNamesBatch(env, c);
    var after := Commit(env, db, c).value.0;
    DerivedDocumentsStay(env, db.documents, c.batch.records, after.documents);
    forall d | d in c.batch.records
      ensures d.id in after.documents.rows && after.documents.rows[d.id] == Stored(d)
      ensures DocumentKeyOf(d) in after.documents.index && after.documents.index[DocumentKeyOf(d)] == d.id
    {
      BoundInIndex(after.documents, d);
      DerivedRowOfBound(env, after.documents, d);
    }
    NamesStay(env, db, c, after);
  }

  lemma BoundInIndex(t: DocumentTable, d: RawDocument)
    requires Bound(t, d)
    ensures DocumentKeyOf(d) in t.index
  {
  }

  /** Over every run of derived commands from the empty tables, every work row names a stored document. */
  lemma {:induction false} RunsStayDerived(env: Env, commands: seq<CollectionCommitCommand>)
    requires forall c :: c in commands ==> ValidCommand(env, c) && DerivedCommand(env, c)
    ensures Consistent(env, RunCommits(env, EMPTY, commands))
    ensures Derived(env, RunCommits(env, EMPTY, commands))
  {
    hide Commit, Consistent, Derived, ValidCommand, DerivedCommand;
    EmptyConsistent(env);
    RunsStayConsistent(env, EMPTY, commands);
    if commands == [] {
      EmptyDerived(env);
    } else {
      var last := |commands| - 1;
      var front := commands[..last];
      assert commands[last] in commands;
      assert forall c :: c in front ==> c in commands;
      RunsStayDerived(env, front);
      var before := RunCommits(env, EMPTY, front);
      if Commit(env, before, commands[last]).Ok? {
        CommitStaysDerived(env, before, commands[last]);
      }
    }
  }

  lemma EmptyDerived(env: Env)
    ensures Derived(env, EMPTY)
  {
  }

  lemma DerivedWorkOwnsId(env: Env, db: Database, w: WorkItem)
    requires Derived(env, db) && IsDocumentWork(env, w)
    ensures OwnsWorkId(db.work, w)
  {
    hide DerivedDocuments, EncodePayload, DocumentKey;
    if w.id in db.work.rows {
      var row := db.work.rows[w.id];
      assert NamesStored(env, db.documents.rows.Keys, w.id, row);
      var d :| d in db.documents.rows.Keys && w.id == DocumentWork(env, d, row.createdAt).id
               && row == RowOf(DocumentWork(env, d, row.createdAt));
      PrefixInjective("work_", DocumentKey(env, d), DocumentKey(env, w.payload.rawDocumentId));
    }
  }

  /**
   * With derived ids a committed batch can always be replayed: the commit succeeds exactly when
   * the checkpoint accepts it.
   */
  lemma DerivedReplay(env: Env, before: Database, c: CollectionCommitCommand, db: Database,
                      replay: CollectionCommitCommand)
    requires Consistent(env, before) && ValidCommand(env, c) && Commit(env, before, c).Ok?
    requires Consistent(env, db) && Derived(env, db) && Extends(Commit(env, before, c).value.0, db)
    requires replay.collectionWork.payload.CollectionPayload? && ConnectorNameOf(replay) == ConnectorNameOf(c)
    requires replay.batch.records == c.batch.records && SameWork(c.documentWorkItems, replay.documentWorkItems)
    requires DerivedCommand(env, replay)
    ensures Commit(env, db, replay).Ok? <==> RowAfter(db, replay).Ok?
  {
    hide Commit, ValidCommand, ClaimsOk, WorkOk, Bound, WorkBound, DerivedId, IsDocumentWork, RowAfter, OwnsId,
      OwnsWorkId, NamesStored;
    ReplayIff(env, before, c, db, replay);
    StillBound(env, before, c, db);
    SameWorkBound(db.work, c.documentWorkItems, replay.documentWorkItems);
    forall d | d in replay.batch.records
      ensures OwnsId(db.documents, d)
    {
      DerivedRowOfBound(env, db.documents, d);
    }
    forall w | w in replay.documentWorkItems
      ensures OwnsWorkId(db.work, w)
    {
      DerivedWorkOwnsId(env, db, w);
    }
  }
}
