/** Whole commands: what one commit leaves, what every run keeps, and what replay does. */
module CollectionCommits {
  import opened Wrappers
  import opened IngestionModels
  import opened IngestionWork
  import opened WorkPayloadCodec
  import opened Deduplication
  import opened IngestionTables
  import opened AtomicCommit
  import opened Sorting
  import opened TextSorting
  import opened TextOrder

  // ---- one commit ----

  lemma PrecheckedWork(env: Env, c: CollectionCommitCommand)
    requires ValidCommand(env, c) && Precheck(c).Ok?
    ensures forall w :: w in c.documentWorkItems ==> ValidWork(env, w)
  {
  }

  /** The two steps before the checkpoint, as the commit sees them. */
  lemma CommitSteps(env: Env, db: Database, c: CollectionCommitCommand)
    requires Commit(env, db, c).Ok?
    ensures Precheck(c).Ok?
    ensures StoreRecords(env, db, c.batch.records).Ok?
    ensures var p := StoreRecords(env, db, c.batch.records).value;
      StoreWork(env, p.tables.work, c.documentWorkItems).Ok?
      && var q := StoreWork(env, p.tables.work, c.documentWorkItems).value;
      var row := NextRow(CurrentRow(p.tables, c.nextCheckpoint.sourceId), c.nextCheckpoint,
                         c.expectedRevision, ConnectorNameOf(c));
      row.Ok?
      && Commit(env, db, c).value.0
      == Database(p.tables.documents, p.tables.claims, q.tables,
                  p.tables.checkpoints[c.nextCheckpoint.sourceId := row.value])
      && Commit(env, db, c).value.1
      == CollectionCommitResult(p.added, p.existing, q.added, q.existing,
                                CheckpointOf(c.nextCheckpoint.sourceId, row.value))
  {
    hide StoreRecords, StoreWork;
  }

  /** The checkpoint table changed in the command's own row alone, from the expected revision. */
  ghost predicate CheckpointMoved(db: Database, c: CollectionCommitCommand, after: Database,
                                  stored: IngestionCheckpoint)
  {
    var source := c.nextCheckpoint.sourceId;
    && after.checkpoints.Keys == db.checkpoints.Keys + {source}
    && (forall s :: s in db.checkpoints && s != source ==> after.checkpoints[s] == db.checkpoints[s])
    && GetCheckpoint(after, source) == Some(stored)
    && after.checkpoints[source].connectorName == ConnectorNameOf(c)
    && match c.expectedRevision
       case None => source !in db.checkpoints && stored == c.nextCheckpoint.(revision := 0)
       case Some(revision) =>
         && source in db.checkpoints
         && db.checkpoints[source].revision == revision
         && db.checkpoints[source].connectorName == ConnectorNameOf(c)
         && db.checkpoints[source].connectorVersion == c.nextCheckpoint.connectorVersion
         && stored == c.nextCheckpoint.(revision := revision + 1)
  }

  /** Everything a successful commit stored, and exactly how much each table grew. */
  ghost predicate CommitStored(env: Env, db: Database, c: CollectionCommitCommand,
                               after: Database, r: CollectionCommitResult)
  {
    && Consistent(env, after) && Extends(db, after)
    && (forall d :: d in c.batch.records ==> Bound(after.documents, d))
    && (forall w :: w in c.documentWorkItems ==> WorkBound(after.work, w))
    && r.documentsInserted + r.documentsExisting == |c.batch.records|
    && r.workCreated + r.workExisting == |c.documentWorkItems|
    && |after.documents.rows| == |db.documents.rows| + r.documentsInserted
    && |after.claims.rows| == |db.claims.rows| + 2 * r.documentsInserted
    && |after.work.rows| == |db.work.rows| + r.workCreated
    && CheckpointMoved(db, c, after, r.checkpoint)
  }

  /**
   * A commit that succeeds stores the whole command. (One that fails leaves every table as it
   * was: that is `SqliteStore.CommitCollection`.)
   */
  lemma CommitStoresAll(env: Env, db: Database, c: CollectionCommitCommand)
    requires Consistent(env, db) && ValidCommand(env, c) && Commit(env, db, c).Ok?
    ensures CommitStored(env, db, c, Commit(env, db, c).value.0, Commit(env, db, c).value.1)
  {
    hide StoreRecords, StoreWork, Commit, WorkOk, ClaimsOk, DocumentsOk, WorkBound, Bound, ValidCommand,
      ClaimsExtend, DocumentsExtend, WorkExtends, CheckpointMoved;
    CommitMovesCheckpoint(env, db, c);
    CommitSteps(env, db, c);
    PrecheckedWork(env, c);
    StoreRecordsKeep(env, db, c.batch.records);
    var p := StoreRecords(env, db, c.batch.records).value;
    StoreWorkKeeps(env, p.tables.work, c.documentWorkItems);
    ExtendsItself(p.tables);
    assert Extends(p.tables, Commit(env, db, c).value.0);
    ExtendsTransitive(db, p.tables, Commit(env, db, c).value.0);
  }

  lemma ExtendsItself(db: Database)
    ensures Extends(db, db)
  {
  }

  lemma CommitMovesCheckpoint(env: Env, db: Database, c: CollectionCommitCommand)
    requires Consistent(env, db) && ValidCommand(env, c) && Commit(env, db, c).Ok?
    ensures CheckpointMoved(db, c, Commit(env, db, c).value.0, Commit(env, db, c).value.1.checkpoint)
  {
    hide StoreRecords, StoreWork, Commit, Consistent, ValidCommand, Extends;
    CommitSteps(env, db, c);
    StoreRecordsKeep(env, db, c.batch.records);
  }

  // ---- every run of commits ----

  /** Commits in the order their transactions ran; a failed one changes nothing. */
  function RunCommits(env: Env, db: Database, commands: seq<CollectionCommitCommand>): Database
  {
    if commands == [] then db
    else
      var last := |commands| - 1;
      var before := RunCommits(env, db, commands[..last]);
      match Commit(env, before, commands[last])
      case Ok((after, _)) => after
      case Err(_) => before
  }

  /**
   * From any consistent database, and so from the empty one, every run of commits keeps the
   * tables consistent and never changes or removes a document, a claim or a work row.
   */
  lemma {:induction false} RunsStayConsistent(env: Env, db: Database, commands: seq<CollectionCommitCommand>)
    requires Consistent(env, db) && forall c :: c in commands ==> ValidCommand(env, c)
    ensures Consistent(env, RunCommits(env, db, commands))
    ensures Extends(db, RunCommits(env, db, commands))
  {
    hide Consistent, Commit, ValidCommand, DocumentsExtend, ClaimsExtend, WorkExtends, CheckpointMoved, Bound, WorkBound;
    if commands == [] {
      ExtendsItself(db);
    } else {
      var last := |commands| - 1;
      RunsStayConsistent(env, db, commands[..last]);
      var before := RunCommits(env, db, commands[..last]);
      if Commit(env, before, commands[last]).Ok? {
        CommitStoresAll(env, before, commands[last]);
        ExtendsTransitive(db, before, Commit(env, before, commands[last]).value.0);
      }
    }
  }

  // ---- where rows come from ----

  ghost predicate DocumentsFrom(before: DocumentTable, records: seq<RawDocument>, after: DocumentTable) {
    forall id :: id in after.rows ==> id in before.rows || exists d :: d in records && after.rows[id] == Stored(d)
  }

  ghost predicate WorkFrom(before: WorkTable, items: seq<WorkItem>, after: WorkTable) {
    forall id :: id in after.rows ==>
      id in before.rows || exists w :: w in items && id == w.id && after.rows[id] == RowOf(w)
  }

  lemma DocumentsFromStep(t: DocumentTable, front: seq<RawDocument>, d: RawDocument, mid: DocumentTable,
                          after: DocumentTable)
    requires DocumentsFrom(t, front, mid) && (after == mid || after.rows == mid.rows[d.id := Stored(d)])
    ensures DocumentsFrom(t, front + [d], after)
  {
    var records := front + [d];
    assert d == records[|front|];
    forall id | id in after.rows && id !in t.rows
      ensures exists e :: e in records && after.rows[id] == Stored(e)
    {
      if after.rows[id] != Stored(d) {
        var e :| e in front && mid.rows[id] == Stored(e);
        assert e in records;
      }
    }
  }

  /** Every new document row is a batch record as it was given. */
  lemma {:induction false} StoreRecordsFrom(env: Env, db: Database, records: seq<RawDocument>)
    requires Consistent(env, db) && StoreRecords(env, db, records).Ok?
    ensures DocumentsFrom(db.documents, records, StoreRecords(env, db, records).value.tables.documents)
  {
    hide Consistent, StoreRecord, DocumentsFrom, BatchStored;
    if records == [] {
      NoDocumentsFrom(db.documents);
    } else {
      var last := |records| - 1;
      var front := records[..last];
      StoreRecordsFrom(env, db, front);
      BatchConsistent(env, db, front);
      var mid := StoreRecords(env, db, front).value.tables;
      StoreRecordShape(env, mid, records[last]);
      DocumentsFromStep(db.documents, front, records[last], mid.documents,
                        StoreRecord(env, mid, records[last]).value.0.documents);
      assert front + [records[last]] == records;
    }
  }

  lemma NoDocumentsFrom(t: DocumentTable)
    ensures DocumentsFrom(t, [], t)
  {
  }

  lemma BatchConsistent(env: Env, db: Database, records: seq<RawDocument>)
    requires Consistent(env, db) && StoreRecords(env, db, records).Ok?
    ensures Consistent(env, StoreRecords(env, db, records).value.tables)
  {
    hide Consistent, StoreRecords, DocumentsExtend, ClaimsExtend, WorkExtends, Bound;
    StoreRecordsKeep(env, db, records);
  }

  lemma WorkFromStep(t: WorkTable, front: seq<WorkItem>, w: WorkItem, mid: WorkTable, after: WorkTable)
    requires WorkFrom(t, front, mid) && (after == mid || after.rows == mid.rows[w.id := RowOf(w)])
    ensures WorkFrom(t, front + [w], after)
  {
    var items := front + [w];
    assert w == items[|front|];
    forall id | id in after.rows && id !in t.rows
      ensures exists v :: v in items && id == v.id && after.rows[id] == RowOf(v)
    {
      if id != w.id || after.rows[id] != RowOf(w) {
        var v :| v in front && id == v.id && mid.rows[id] == RowOf(v);
        assert v in items;
      }
    }
  }

  /** Every new work row holds an item of the command as it was given. */
  lemma {:induction false} StoreWorkFrom(env: Env, t: WorkTable, items: seq<WorkItem>)
    requires WorkOk(env, t) && StoreWork(env, t, items).Ok?
    requires forall w :: w in items ==> ValidWork(env, w)
    ensures WorkFrom(t, items, StoreWork(env, t, items).value.tables)
  {
    hide WorkOk, InsertWork, WorkFrom, WorkBound, RowOf, ValidWork, WorkExtends, WorkKeyOf;
    if items == [] {
      NoWorkFrom(t);
    } else {
      var last := |items| - 1;
      var front := items[..last];
      StoreWorkFrom(env, t, front);
      StoreWorkKeeps(env, t, front);
      var mid := StoreWork(env, t, front).value.tables;
      InsertWorkKeeps(env, mid, items[last]);
      WorkFromStep(t, front, items[last], mid, InsertWork(env, mid, items[last]).value.0);
      assert front + [items[last]] == items;
    }
  }

  lemma NoWorkFrom(t: WorkTable)
    ensures WorkFrom(t, [], t)
  {
  }

  /** New rows of a whole commit. */
  lemma CommitFrom(env: Env, db: Database, c: CollectionCommitCommand)
    requires Consistent(env, db) && ValidCommand(env, c) && Commit(env, db, c).Ok?
    ensures DocumentsFrom(db.documents, c.batch.records, Commit(env, db, c).value.0.documents)
    ensures WorkFrom(db.work, c.documentWorkItems, Commit(env, db, c).value.0.work)
    ensures IdsAdded(db.documents, c.batch.records, Commit(env, db, c).value.0.documents)
  {
    hide StoreRecords, StoreWork, Commit, WorkOk, ClaimsOk, DocumentsOk, ValidCommand, Bound, IdsAdded,
      DocumentsExtend, ClaimsExtend, WorkExtends;
    CommitSteps(env, db, c);
    PrecheckedWork(env, c);
    StoreRecordsFrom(env, db, c.batch.records);
    StoreRecordsIds(env, db, c.batch.records);
    StoreRecordsKeep(env, db, c.batch.records);
    StoreWorkFrom(env, db.work, c.documentWorkItems);
  }

  // ---- resolving identities ----

  /** A content key resolves to exactly the stored documents with that hash, each once and in order. */
  lemma ContentResolves(env: Env, db: Database, key: string)
    requires Consistent(env, db)
    ensures var ids := ResolveIdentity(db.claims, ContentClaim, key, NORMALIZATION_VERSION);
      && (forall i, j :: 0 <= i < j < |ids| ==> Before(ids[i], ids[j]))
      && (forall id :: id in ids <==> id in db.documents.rows && db.documents.rows[id].contentHash == key)
  {
    hide Consistent, ClaimHolders, ResolveIdentity, Before, CollectionIdentity;
    ResolvedInOrder(db.claims, ContentClaim, key, NORMALIZATION_VERSION);
    HoldersOf(env, db, ContentClaim, key);
    RowsKeyedById(env, db);
  }

  /** A collection key resolves to the document with that identity, and to nothing else. */
  lemma CollectionResolves(env: Env, db: Database, key: string)
    requires Consistent(env, db)
    ensures var ids := ResolveIdentity(db.claims, CollectionClaim, key, IDENTITY_VERSION);
      |ids| <= 1
      && forall id :: id in ids <==>
           id in db.documents.rows
           && CollectionIdentity(env, db.documents.rows[id].sourceId, db.documents.rows[id].externalId) == Some(key)
  {
    hide Consistent, ClaimHolders, ResolveIdentity, Before, CollectionIdentity;
    ResolvedInOrder(db.claims, CollectionClaim, key, IDENTITY_VERSION);
    HoldersOf(env, db, CollectionClaim, key);
    RowsKeyedById(env, db);
    OneHolder(env, db, key);
    var ids := ResolveIdentity(db.claims, CollectionClaim, key, IDENTITY_VERSION);
    if |ids| > 1 {
      assert ids[0] in ids && ids[1] in ids;
      BeforeIsStrict(ids[0], ids[1]);
    }
  }

  /** Both kinds of identity key resolve to exactly the documents that have it. */
  lemma IdentitiesResolve(env: Env, db: Database, key: string)
    requires Consistent(env, db)
    ensures var ids := ResolveIdentity(db.claims, ContentClaim, key, NORMALIZATION_VERSION);
      && (forall i, j :: 0 <= i < j < |ids| ==> Before(ids[i], ids[j]))
      && (forall id :: id in ids <==> id in db.documents.rows && db.documents.rows[id].contentHash == key)
    ensures var ids := ResolveIdentity(db.claims, CollectionClaim, key, IDENTITY_VERSION);
      |ids| <= 1
      && forall id :: id in ids <==>
           id in db.documents.rows
           && CollectionIdentity(env, db.documents.rows[id].sourceId, db.documents.rows[id].externalId) == Some(key)
  {
    hide Consistent, ResolveIdentity, Before, CollectionIdentity;
    ContentResolves(env, db, key);
    CollectionResolves(env, db, key);
  }

  lemma BeforeIsStrict(a: string, b: string)
    requires Before(a, b)
    ensures a != b
  {
    AtMostTotal(a, b);
  }

  lemma RowsKeyedById(env: Env, db: Database)
    requires Consistent(env, db)
    ensures forall id :: id in db.documents.rows ==> db.documents.rows[id].id == id
  {
    hide ClaimsOk, WorkOk;
  }

  lemma OneHolder(env: Env, db: Database, key: string)
    requires Consistent(env, db)
    ensures var holders := ClaimHolders(db.claims, CollectionClaim, key, IDENTITY_VERSION);
            forall a, b :: a in holders && b in holders ==> a == b
  {
    hide DocumentsOk, WorkOk, ClaimsMatch, CollectionIdentity;
    forall id | id in ClaimHolders(db.claims, CollectionClaim, key, IDENTITY_VERSION)
      ensures key in db.claims.index && db.claims.index[key] == id
    {
      assert ClaimKey(CollectionClaim, key, id) in db.claims.rows;
    }
  }

  lemma HoldersOf(env: Env, db: Database, kind: IdentityKind, key: string)
    requires Consistent(env, db)
    ensures forall id ::
      id in ClaimHolders(db.claims, kind, key, VersionOf(kind))
      <==> id in db.documents.rows && IsClaimOf(env, db.documents.rows[id], ClaimKey(kind, key, id))
  {
    hide DocumentsOk, WorkOk, ClaimIndexOk, IsClaimOf, Claimable;
    forall id
      ensures id in ClaimHolders(db.claims, kind, key, VersionOf(kind))
         <==> ClaimKey(kind, key, id) in db.claims.rows
    {
      var c := ClaimKey(kind, key, id);
      if c in db.claims.rows {
        assert db.claims.rows[c] == VersionOf(kind);
      }
    }
  }

  lemma ResolvedInOrder(t: ClaimTable, kind: IdentityKind, key: string, version: string)
    ensures var ids := ResolveIdentity(t, kind, key, version);
      && (forall i, j :: 0 <= i < j < |ids| ==> Before(ids[i], ids[j]))
      && (forall id :: id in ids <==> id in ClaimHolders(t, kind, key, version))
  {
    var holders := ClaimHolders(t, kind, key, version);
    var ids := ResolveIdentity(t, kind, key, version);
    TextOrderFacts();
    SortKeepsElements(BY_TEXT, Listed(holders));
    SortSorted(BY_TEXT, Listed(holders));
    assert forall id :: id in ids <==> id in multiset(ids);
    assert forall id :: id in multiset(holders) <==> id in holders;
    assert multiset(ids) == multiset(holders);
    DistinctByCount(ids);
    forall i, j | 0 <= i < j < |ids|
      ensures Before(ids[i], ids[j])
    {
      var x, y := ids[i], ids[j];
      assert BY_TEXT(x, y) && x != y;
      if AtMost(y, x) {
        AtMostAntisymmetric(x, y);
      }
    }
  }

  // ---- work refers to stored documents ----

  /**
   * Record `i` resolves to a row with another id: its own id is free and its identity is taken,
   * either in the table or by an earlier record of the batch.
   */
  predicate Rebound(t: DocumentTable, records: seq<RawDocument>, i: nat)
    requires i < |records|
  {
    && records[i].id !in t.rows
    && (|| DocumentKeyOf(records[i]) in t.index
        || exists j :: 0 <= j < i && DocumentKeyOf(records[j]) == DocumentKeyOf(records[i]))
  }

  lemma StoreRecordIds(env: Env, db: Database, d: RawDocument)
    requires Consistent(env, db) && StoreRecord(env, db, d).Ok?
    ensures var after := StoreRecord(env, db, d).value.0.documents;
      && after.rows.Keys
      == db.documents.rows.Keys + (if DocumentKeyOf(d) in db.documents.index then {} else {d.id})
      && db.documents.rows.Keys <= after.rows.Keys <= db.documents.rows.Keys + {d.id}
      && after.index.Keys == db.documents.index.Keys + {DocumentKeyOf(d)}
  {
    hide Consistent, StoreRecord, WithClaims, Stored, Equivalent, Claimable, DocumentKeyOf;
    StoreRecordShape(env, db, d);
    BlockedByKey(env, db, d);
  }

  /** A record that finds its identity taken is blocked, and one that is bound has it taken. */
  lemma BlockedByKey(env: Env, db: Database, d: RawDocument)
    requires Consistent(env, db)
    ensures DocumentKeyOf(d) in db.documents.index ==> DocumentBlocked(db.documents, d)
    ensures Bound(db.documents, d) ==> DocumentKeyOf(d) in db.documents.index
  {
    hide Consistent, DocumentKeyOf, Equivalent;
  }

  function KeysOfBatch(records: seq<RawDocument>): set<(Id, string)> {
    set j | 0 <= j < |records| :: DocumentKeyOf(records[j])
  }

  function IdsOfBatch(records: seq<RawDocument>): set<Id> {
    set j | 0 <= j < |records| :: records[j].id
  }

  /** The keys of a batch are now indexed, and only ids of the batch were added. */
  ghost predicate IdsAdded(before: DocumentTable, records: seq<RawDocument>, after: DocumentTable) {
    && after.index.Keys == before.index.Keys + KeysOfBatch(records)
    && before.rows.Keys <= after.rows.Keys <= before.rows.Keys + IdsOfBatch(records)
  }

  lemma IdsStep(t: DocumentTable, front: seq<RawDocument>, d: RawDocument, mid: DocumentTable, after: DocumentTable)
    requires IdsAdded(t, front, mid)
    requires after.index.Keys == mid.index.Keys + {DocumentKeyOf(d)}
    requires mid.rows.Keys <= after.rows.Keys <= mid.rows.Keys + {d.id}
    ensures IdsAdded(t, front + [d], after)
  {
    var records := front + [d];
    assert KeysOfBatch(records) == KeysOfBatch(front) + {DocumentKeyOf(d)} by {
      assert records[|front|] == d;
      assert forall j :: 0 <= j < |front| ==> records[j] == front[j];
    }
    assert IdsOfBatch(records) == IdsOfBatch(front) + {d.id} by {
      assert records[|front|] == d;
      assert forall j :: 0 <= j < |front| ==> records[j] == front[j];
    }
  }

  lemma {:induction false} StoreRecordsIds(env: Env, db: Database, records: seq<RawDocument>)
    requires Consistent(env, db) && StoreRecords(env, db, records).Ok?
    ensures IdsAdded(db.documents, records, StoreRecords(env, db, records).value.tables.documents)
  {
    hide Consistent, StoreRecord, DocumentKeyOf, IdsAdded, BatchStored;
    if records == [] {
      NoIdsAdded(db.documents);
    } else {
      var last := |records| - 1;
      var front := records[..last];
      StoreRecordsIds(env, db, front);
      BatchConsistent(env, db, front);
      var mid := StoreRecords(env, db, front).value.tables;
      StoreRecordIds(env, mid, records[last]);
      IdsStep(db.documents, front, records[last], mid.documents,
              StoreRecord(env, mid, records[last]).value.0.documents);
      assert front + [records[last]] == records;
    }
  }

  lemma NoIdsAdded(t: DocumentTable)
    ensures IdsAdded(t, [], t)
  {
  }

  /** The first `n` records stored: the last of them is there unless its identity was taken. */
  lemma LastIdStored(env: Env, db: Database, records: seq<RawDocument>)
    requires Consistent(env, db) && StoreRecords(env, db, records).Ok?
    requires records != [] && DistinctIds(records)
    ensures records[|records| - 1].id in StoreRecords(env, db, records).value.tables.documents.rows
       <==> !Rebound(db.documents, records, |records| - 1)
  {
    hide Consistent, StoreRecord, DocumentKeyOf, BatchStored;
    var last := |records| - 1;
    var front := records[..last];
    StoreRecordsIds(env, db, front);
    BatchConsistent(env, db, front);
    StoreRecordIds(env, StoreRecords(env, db, front).value.tables, records[last]);
    assert records[last].id !in IdsOfBatch(front);
    var key := DocumentKeyOf(records[last]);
    assert key in KeysOfBatch(front) <==> exists j :: 0 <= j < last && DocumentKeyOf(records[j]) == key by {
      assert forall j :: 0 <= j < last ==> front[j] == records[j];
    }
  }

  lemma {:induction false} RecordIdStored(env: Env, db: Database, records: seq<RawDocument>, i: nat)
    requires Consistent(env, db) && StoreRecords(env, db, records).Ok?
    requires i < |records| && DistinctIds(records)
    ensures records[i].id in StoreRecords(env, db, records).value.tables.documents.rows
       <==> !Rebound(db.documents, records, i)
  {
    hide Consistent, StoreRecord, DocumentKeyOf, BatchStored;
    var last := |records| - 1;
    if i < last {
      var front := records[..last];
      RecordIdStored(env, db, front, i);
      assert Rebound(db.documents, front, i) <==> Rebound(db.documents, records, i);
      BatchConsistent(env, db, front);
      StoreRecordIds(env, StoreRecords(env, db, front).value.tables, records[last]);
      assert records[i].id != records[last].id;
    } else {
      LastIdStored(env, db, records);
    }
  }

  /**
   * After a successful commit, the id of a batch record, which is what its work item names, is
   * a stored document exactly when the record was not resolved to a row with another id.
   */
  lemma WorkNamesStoredDocument(env: Env, db: Database, c: CollectionCommitCommand, i: nat)
    requires Consistent(env, db) && ValidCommand(env, c) && Commit(env, db, c).Ok?
    requires i < |c.batch.records|
    ensures c.batch.records[i].id in Commit(env, db, c).value.0.documents.rows
       <==> !Rebound(db.documents, c.batch.records, i)
  {
    hide StoreRecords, StoreWork, Commit, Consistent;
    CommitSteps(env, db, c);
    RecordIdStored(env, db, c.batch.records, i);
  }
}
