/**
 * What is common to all connectors when any number of coordinators collect into one database:
 * their steps share the tables, and a log tells which commits succeeded.
 */
module CheckpointHistory {
  import opened Wrappers
  import opened IngestionModels
  import opened IngestionWork
  import opened Deduplication
  import opened IngestionTables
  import opened AtomicCommit
  import opened CollectionCommits
  import opened CollectionRunner
  import opened CollectionReplay

  /** How far one coordinator has come. */
  datatype Phase =
    | Idle
    | Planned(sourceId: Id, checkpoint: Option<IngestionCheckpoint>)
    | Ready(sourceId: Id, command: CollectionCommitCommand)

  /** A successful commit: the revision it expected, its page's size and time, what it moved to. */
  datatype Committed = Committed(
    sourceId: Id, expected: Option<int>, size: nat, collectedAt: string, checkpoint: IngestionCheckpoint)

  datatype System = System(db: Database, phases: map<nat, Phase>, log: seq<Committed>)

  const START := System(EMPTY, map[], [])

  function PhaseOf(s: System, coordinator: nat): Phase {
    if coordinator in s.phases then s.phases[coordinator] else Idle
  }

  function In(s: System, coordinator: nat, phase: Phase): System {
    s.(phases := s.phases[coordinator := phase])
  }

  function EntryFor(sourceId: Id, c: CollectionCommitCommand, stored: IngestionCheckpoint): Committed {
    Committed(sourceId, c.expectedRevision, |c.batch.records|, c.batch.collectedAt, stored)
  }

  /** One transaction, and the log entry of a successful one. */
  function Committing(env: Env, s: System, coordinator: nat, sourceId: Id, c: CollectionCommitCommand): System {
    match Commit(env, s.db, c)
    case Err(_) => In(s, coordinator, Idle)
    case Ok((after, r)) =>
      System(after, s.phases[coordinator := Idle],
             s.log + [EntryFor(sourceId, c, r.checkpoint)])
  }

  // ---- the log and the checkpoints ----

  /** The checkpoint was committed at some time. */
  ghost predicate WasCommitted(log: seq<Committed>, sourceId: Id, c: IngestionCheckpoint) {
    exists i :: 0 <= i < |log| && log[i].sourceId == sourceId && log[i].checkpoint == c
  }

  /** The entry is no later than the stored checkpoint, and of its revision only if it is the stored one. */
  predicate EntryOk(current: Option<IngestionCheckpoint>, entry: Committed) {
    && current.Some?
    && entry.checkpoint.revision <= current.value.revision
    && (entry.checkpoint.revision == current.value.revision ==> entry.checkpoint == current.value)
    && entry.checkpoint.revision == (if entry.expected.None? then 0 else entry.expected.value + 1)
  }

  /** Stored checkpoints were committed, and revisions grow along the log. */
  ghost predicate LogOk(db: Database, log: seq<Committed>) {
    && (forall i :: 0 <= i < |log| ==> EntryOk(GetCheckpoint(db, log[i].sourceId), log[i]))
    && (forall i, j :: 0 <= i < j < |log| && log[i].sourceId == log[j].sourceId ==>
          log[i].checkpoint.revision < log[j].checkpoint.revision)
    && (forall s :: s in db.checkpoints ==> WasCommitted(log, s, GetCheckpoint(db, s).value))
  }

  /** Every stored checkpoint is well formed and bound to the connector that its source is registered with. */
  ghost predicate BindingsOk(env: Env, connectors: map<Id, Connector>, db: Database) {
    forall s :: s in db.checkpoints ==> BindingOk(env, connectors, db, s)
  }

  ghost predicate BindingOk(env: Env, connectors: map<Id, Connector>, db: Database, s: Id)
    requires s in db.checkpoints
  {
    && s in connectors
    && db.checkpoints[s].connectorName == connectors[s].name
    && db.checkpoints[s].connectorVersion == connectors[s].version
    && ValidCheckpoint(env, GetCheckpoint(db, s).value)
  }

  /** Documents belong to registered sources. */
  ghost predicate SourcesOk(connectors: map<Id, Connector>, t: DocumentTable) {
    forall id :: id in t.rows ==> t.rows[id].sourceId in connectors
  }

  function CommitCount(log: seq<Committed>, sourceId: Id): nat {
    if log == [] then 0
    else CommitCount(log[..|log| - 1], sourceId) + (if log[|log| - 1].sourceId == sourceId then 1 else 0)
  }

  /** When the source was last collected successfully. */
  function LastCollected(log: seq<Committed>, sourceId: Id): Option<string> {
    if log == [] then None
    else if log[|log| - 1].sourceId == sourceId then Some(log[|log| - 1].collectedAt)
    else LastCollected(log[..|log| - 1], sourceId)
  }

  /** The stored checkpoint tells the number and the time of the commits. */
  ghost predicate HistoryOk(db: Database, log: seq<Committed>, sourceId: Id) {
    match GetCheckpoint(db, sourceId)
    case None => CommitCount(log, sourceId) == 0
    case Some(c) =>
      && c.revision + 1 == CommitCount(log, sourceId)
      && c.lastSuccessAt == LastCollected(log, sourceId)
      && c.watermark == None
  }

  // ---- commands as the runner makes them ----

  /** The checkpoint that the command was prepared from. */
  function Basis(c: CollectionCommitCommand): Option<IngestionCheckpoint> {
    if c.collectionWork.payload.CollectionPayload? then c.collectionWork.payload.checkpoint else None
  }

  /** The command is what the runner makes of its own batch and the checkpoint in its work item. */
  ghost predicate RunnerMade(env: Env, connector: Connector, sourceId: Id, c: CollectionCommitCommand) {
    && c.collectionWork.payload.CollectionPayload?
    && PrepareCommand(env, sourceId, connector, c.collectionWork.payload.checkpoint, c.collectionWork.payload.limit,
                      Ok(c.batch), c.collectionWork.createdAt) == Ok(c)
  }

  /** Whatever the connector returned, an accepted command is made of its batch. */
  lemma MadeOfBatch(env: Env, connector: Connector, sourceId: Id, checkpoint: Option<IngestionCheckpoint>, limit: int,
                    collected: Result<CollectionBatch, ConnectorFailure>, now: string)
    requires PrepareCommand(env, sourceId, connector, checkpoint, limit, collected, now).Ok?
    ensures var c := PrepareCommand(env, sourceId, connector, checkpoint, limit, collected, now).value;
      && collected == Ok(c.batch) && RunnerMade(env, connector, sourceId, c)
      && Basis(c) == checkpoint && c.collectionWork.createdAt == now
  {
    hide ValidCommand, ValidWorkItem, DocumentKey, CollectionKey, FirstOccurrences;
  }

  lemma MadeParts(env: Env, connector: Connector, sourceId: Id, c: CollectionCommitCommand)
    requires RunnerMade(env, connector, sourceId, c)
    ensures ValidCommand(env, c) && c.nextCheckpoint.sourceId == sourceId && !c.batch.isPartial
    ensures c.expectedRevision == if Basis(c).None? then None else Some(Basis(c).value.revision)
    ensures c.nextCheckpoint == NextCheckpoint(sourceId, connector, Basis(c), c.batch.nextCursor, c.batch.collectedAt)
    ensures c.documentWorkItems == DocumentWorkItems(env, c.batch.records, c.collectionWork.createdAt)
  {
    hide ValidCommand, ValidWorkItem, DocumentKey, CollectionKey, FirstOccurrences;
    CommandDistinct(env, c);
    DistinctBatchAccepted(c.batch.records);
  }

  lemma CommandDistinct(env: Env, c: CollectionCommitCommand)
    requires ValidCommand(env, c)
    ensures DistinctIds(c.batch.records)
  {
  }

  lemma MadeBinding(env: Env, connector: Connector, sourceId: Id, c: CollectionCommitCommand)
    requires RunnerMade(env, connector, sourceId, c)
    ensures ConnectorNameOf(c) == connector.name != "" && c.nextCheckpoint.connectorVersion == connector.version
    ensures ValidCheckpoint(env, c.nextCheckpoint)
    ensures c.expectedRevision.Some? ==> c.expectedRevision.value >= 0
  {
    hide CollectionKey, DocumentWorkItems, FirstOccurrences;
  }

  lemma MadeWork(env: Env, connector: Connector, sourceId: Id, c: CollectionCommitCommand)
    requires RunnerMade(env, connector, sourceId, c)
    ensures forall d :: d in c.batch.records ==>
              DocumentWork(env, d.id, c.collectionWork.createdAt) in c.documentWorkItems
    ensures forall w :: w in c.documentWorkItems ==> IsDocumentWork(env, w)
  {
    hide DocumentKey, RunnerMade;
    MadeParts(env, connector, sourceId, c);
    forall d | d in c.batch.records
      ensures DocumentWork(env, d.id, c.collectionWork.createdAt) in c.documentWorkItems
    {
      var i :| 0 <= i < |c.batch.records| && c.batch.records[i] == d;
      assert c.documentWorkItems[i] == DocumentWork(env, d.id, c.collectionWork.createdAt);
    }
  }

  // ---- what every run keeps ----

  /** The stored work is exactly one item for each stored document. */
  ghost predicate WorkExact(env: Env, db: Database) {
    forall id :: id in db.documents.rows ==> WorkBound(db.work, DocumentWork(env, id, ""))
  }

  ghost predicate HistoryInv(env: Env, connectors: map<Id, Connector>, s: System) {
    && (forall sourceId :: HistoryOk(s.db, s.log, sourceId))
    && LogOk(s.db, s.log)
    && BindingsOk(env, connectors, s.db)
    && SourcesOk(connectors, s.db.documents)
    && Consistent(env, s.db)
    && Derived(env, s.db)
    && WorkExact(env, s.db)
  }

  lemma StartHistory(env: Env, connectors: map<Id, Connector>)
    ensures HistoryInv(env, connectors, START)
  {
    hide Consistent, Derived;
    EmptyConsistent(env);
    EmptyDerived(env);
  }

  /**
   * The runner made the command for a registered source, from a checkpoint that was once
   * committed and with derived ids.
   */
  ghost predicate Sound(env: Env, connectors: map<Id, Connector>, log: seq<Committed>, sourceId: Id,
                        c: CollectionCommitCommand) {
    && sourceId in connectors && RunnerMade(env, connectors[sourceId], sourceId, c)
    && (Basis(c).Some? ==> WasCommitted(log, sourceId, Basis(c).value))
    && (forall d :: d in c.batch.records ==> DerivedId(env, d))
  }

  /** A successful commit of a sound command. */
  ghost predicate Lands(env: Env, connectors: map<Id, Connector>, s: System, sourceId: Id, c: CollectionCommitCommand,
                        after: Database, r: CollectionCommitResult) {
    && HistoryInv(env, connectors, s) && Sound(env, connectors, s.log, sourceId, c)
    && Commit(env, s.db, c) == Ok((after, r))
  }

  /** The checkpoint that the command was prepared from is still the stored one. */
  lemma CommittedFromCurrent(db: Database, log: seq<Committed>, sourceId: Id, c: CollectionCommitCommand,
                             after: Database, stored: IngestionCheckpoint)
    requires LogOk(db, log) && CheckpointMoved(db, c, after, stored) && c.nextCheckpoint.sourceId == sourceId
    requires c.expectedRevision == if Basis(c).None? then None else Some(Basis(c).value.revision)
    requires Basis(c).Some? ==> WasCommitted(log, sourceId, Basis(c).value)
    ensures GetCheckpoint(db, sourceId) == Basis(c)
  {
    hide CheckpointMoved, GetCheckpoint, Basis;
    CheckpointAfter(db, c, after, stored);
  }

  /** The command's own checkpoint, before and after; the others stay. */
  lemma CheckpointAfter(db: Database, c: CollectionCommitCommand, after: Database, stored: IngestionCheckpoint)
    requires CheckpointMoved(db, c, after, stored)
    ensures var source := c.nextCheckpoint.sourceId;
      && (forall s :: s != source ==> GetCheckpoint(after, s) == GetCheckpoint(db, s))
      && GetCheckpoint(after, source) == Some(stored)
      && (GetCheckpoint(db, source).Some? <==> c.expectedRevision.Some?)
      && (c.expectedRevision.Some? ==> GetCheckpoint(db, source).value.revision == c.expectedRevision.value)
      && stored == c.nextCheckpoint.(revision := if c.expectedRevision.None? then 0 else c.expectedRevision.value + 1)
    ensures after.checkpoints.Keys == db.checkpoints.Keys + {c.nextCheckpoint.sourceId}
    ensures forall s :: GetCheckpoint(after, s).Some? <==> s in after.checkpoints
    ensures forall s :: GetCheckpoint(db, s).Some? <==> s in db.checkpoints
  {
  }

  /** The command was prepared from the stored checkpoint, and stores all of its parts. */
  lemma LandsOnCurrent(env: Env, connectors: map<Id, Connector>, s: System, sourceId: Id, c: CollectionCommitCommand,
                       after: Database, r: CollectionCommitResult)
    requires Lands(env, connectors, s, sourceId, c, after, r)
    ensures GetCheckpoint(s.db, sourceId) == Basis(c)
    ensures c.nextCheckpoint.sourceId == sourceId && CheckpointMoved(s.db, c, after, r.checkpoint)
    ensures ValidCommand(env, c) && DerivedCommand(env, c) && CommitStored(env, s.db, c, after, r)
  {
    hide Commit, RunnerMade, ValidCommand, Consistent, Derived, CheckpointMoved, CommitStored, IsDocumentWork,
      WasCommitted, LogOk, BindingsOk, SourcesOk, WorkExact, NextCheckpoint, DocumentWorkItems;
    MadeParts(env, connectors[sourceId], sourceId, c);
    MadeWork(env, connectors[sourceId], sourceId, c);
    CommitStoresAll(env, s.db, c);
    CommitMovesCheckpoint(env, s.db, c);
    CommittedFromCurrent(s.db, s.log, sourceId, c, after, r.checkpoint);
  }

  lemma LogGrows(db: Database, log: seq<Committed>, sourceId: Id, c: CollectionCommitCommand,
                 after: Database, stored: IngestionCheckpoint)
    requires LogOk(db, log) && CheckpointMoved(db, c, after, stored) && c.nextCheckpoint.sourceId == sourceId
    ensures LogOk(after, log + [EntryFor(sourceId, c, stored)])
  {
    hide CheckpointMoved, GetCheckpoint, WasCommitted;
    CheckpointAfter(db, c, after, stored);
    var entry := EntryFor(sourceId, c, stored);
    var all := log + [entry];
    NewestCommitted(log, entry);
    forall i | 0 <= i < |all|
      ensures EntryOk(GetCheckpoint(after, all[i].sourceId), all[i])
    {
      if i < |log| {
        assert EntryOk(GetCheckpoint(db, log[i].sourceId), log[i]);
      }
    }
    forall s | s in after.checkpoints
      ensures WasCommitted(all, s, GetCheckpoint(after, s).value)
    {
      if s != sourceId {
        StillCommitted(log, entry, s, GetCheckpoint(db, s).value);
      }
    }
  }

  lemma NewestCommitted(log: seq<Committed>, entry: Committed)
    ensures WasCommitted(log + [entry], entry.sourceId, entry.checkpoint)
  {
    assert (log + [entry])[|log|] == entry;
  }

  lemma StillCommitted(log: seq<Committed>, entry: Committed, sourceId: Id, c: IngestionCheckpoint)
    requires WasCommitted(log, sourceId, c)
    ensures WasCommitted(log + [entry], sourceId, c)
  {
    var i :| 0 <= i < |log| && log[i].sourceId == sourceId && log[i].checkpoint == c;
    assert (log + [entry])[i] == log[i];
  }

  lemma BindingsStay(env: Env, connectors: map<Id, Connector>, db: Database, c: CollectionCommitCommand,
                     after: Database, stored: IngestionCheckpoint)
    requires BindingsOk(env, connectors, db) && CheckpointMoved(db, c, after, stored)
    requires c.nextCheckpoint.sourceId in connectors
    requires var connector := connectors[c.nextCheckpoint.sourceId];
             ConnectorNameOf(c) == connector.name && c.nextCheckpoint.connectorVersion == connector.version
    requires ValidCheckpoint(env, c.nextCheckpoint) && (c.expectedRevision.Some? ==> c.expectedRevision.value >= 0)
    ensures BindingsOk(env, connectors, after)
  {
    hide GetCheckpoint, CheckpointMoved;
    CheckpointAfter(db, c, after, stored);
    RowsAfter(db, c, after, stored);
    forall s | s in after.checkpoints
      ensures BindingOk(env, connectors, after, s)
    {
      if s != c.nextCheckpoint.sourceId {
        assert BindingOk(env, connectors, db, s);
      }
    }
  }

  /** What a commit does to the other sources: their checkpoints stay, and no document of theirs is added. */
  ghost predicate OthersStay(db: Database, sourceId: Id, after: Database) {
    && DocumentsExtend(db.documents, after.documents)
    && (forall x :: x != sourceId ==> GetCheckpoint(after, x) == GetCheckpoint(db, x))
    && (forall x :: x in after.checkpoints ==> x in db.checkpoints || x == sourceId)
    && (forall id :: id in after.documents.rows && id !in db.documents.rows ==>
          after.documents.rows[id].sourceId == sourceId)
    && (forall key :: key in after.documents.index && key !in db.documents.index ==> key.0 == sourceId)
  }

  lemma CommitIsLocal(env: Env, connectors: map<Id, Connector>, s: System, sourceId: Id, c: CollectionCommitCommand,
                      after: Database, r: CollectionCommitResult)
    requires Lands(env, connectors, s, sourceId, c, after, r)
    ensures OthersStay(s.db, sourceId, after)
  {
    hide Commit, RunnerMade, ValidCommand, DerivedCommand, Consistent, Derived, Bound, WorkBound, CheckpointMoved,
      ClaimsExtend, WorkExtends, DocumentsExtend, LogOk, BindingsOk, IdsAdded, WorkFrom, DerivedId, GetCheckpoint,
      WasCommitted, IsDocumentWork, HistoryOk, WorkExact, SourcesOk, Stored, DocumentsFrom;
    LandsOnCurrent(env, connectors, s, sourceId, c, after, r);
    CheckpointAfter(s.db, c, after, r.checkpoint);
    CommitFrom(env, s.db, c);
    BatchOfSource(env, connectors[sourceId], sourceId, c);
    DocumentsPart(env, after);
    DocumentsPart(env, s.db);
    NewRowsOfSource(s.db.documents, sourceId, c.batch.records, after.documents);
  }

  /** The new documents are records of the batch, and each record is stored under its own id. */
  ghost predicate BatchAdded(before: DocumentTable, records: seq<RawDocument>, after: DocumentTable) {
    && DocumentsExtend(before, after)
    && (forall key :: key in after.index && key !in before.index ==>
          exists j :: 0 <= j < |records| && DocumentKeyOf(records[j]) == key)
    && (forall d :: d in records ==> d.id in after.rows && after.rows[d.id] == Stored(d))
    && (forall d :: d in records ==> DocumentKeyOf(d) in after.index && after.index[DocumentKeyOf(d)] == d.id)
  }

  lemma CommitAdds(env: Env, connectors: map<Id, Connector>, s: System, sourceId: Id, c: CollectionCommitCommand,
                   after: Database, r: CollectionCommitResult)
    requires Lands(env, connectors, s, sourceId, c, after, r)
    ensures BatchAdded(s.db.documents, c.batch.records, after.documents)
  {
    hide Commit, RunnerMade, ValidCommand, DerivedCommand, Consistent, Derived, Bound, WorkBound, CheckpointMoved,
      ClaimsExtend, WorkExtends, DocumentsExtend, LogOk, BindingsOk, WorkFrom, DerivedId, GetCheckpoint, WasCommitted,
      IsDocumentWork, HistoryOk, WorkExact, SourcesOk, Stored, DocumentsFrom, DocumentKeyOf;
    LandsOnCurrent(env, connectors, s, sourceId, c, after, r);
    CommitStaysDerived(env, s.db, c);
    CommitFrom(env, s.db, c);
  }

  lemma BatchOfSource(env: Env, connector: Connector, sourceId: Id, c: CollectionCommitCommand)
    requires RunnerMade(env, connector, sourceId, c)
    ensures forall d :: d in c.batch.records ==> d.sourceId == sourceId
  {
    hide CollectionKey, DocumentWorkItems, FirstOccurrences, ValidWorkItem, ValidBatch, ValidDocument;
  }

  lemma NewRowsOfSource(before: DocumentTable, sourceId: Id, records: seq<RawDocument>, after: DocumentTable)
    requires DocumentsOk(before) && DocumentsOk(after) && DocumentsFrom(before, records, after)
    requires DocumentsExtend(before, after) && forall d :: d in records ==> d.sourceId == sourceId
    ensures forall id :: id in after.rows && id !in before.rows ==> after.rows[id].sourceId == sourceId
    ensures forall key :: key in after.index && key !in before.index ==> key.0 == sourceId
  {
    forall id | id in after.rows && id !in before.rows
      ensures after.rows[id].sourceId == sourceId
    {
      var d :| d in records && after.rows[id] == Stored(d);
    }
    forall key | key in after.index && key !in before.index
      ensures key.0 == sourceId
    {
      assert after.index[key] !in before.rows;
    }
  }

  lemma CursorOfRow(db: Database, sourceId: Id)
    requires sourceId in db.checkpoints
    ensures GetCheckpoint(db, sourceId).Some? && GetCheckpoint(db, sourceId).value.cursor == db.checkpoints[sourceId].cursor
  {
  }

  lemma RowsAfter(db: Database, c: CollectionCommitCommand, after: Database, stored: IngestionCheckpoint)
    requires CheckpointMoved(db, c, after, stored)
    ensures forall s :: s in db.checkpoints && s != c.nextCheckpoint.sourceId ==> after.checkpoints[s] == db.checkpoints[s]
    ensures c.nextCheckpoint.sourceId in after.checkpoints
    ensures var row := after.checkpoints[c.nextCheckpoint.sourceId];
            row.connectorName == ConnectorNameOf(c) && row.connectorVersion == c.nextCheckpoint.connectorVersion
  {
  }

  lemma HistoryGrows(db: Database, log: seq<Committed>, sourceId: Id, c: CollectionCommitCommand,
                     after: Database, stored: IngestionCheckpoint)
    requires (forall x :: HistoryOk(db, log, x)) && CheckpointMoved(db, c, after, stored)
    requires c.nextCheckpoint.sourceId == sourceId
    requires c.nextCheckpoint.lastSuccessAt == Some(c.batch.collectedAt) && c.nextCheckpoint.watermark == None
    ensures forall x :: HistoryOk(after, log + [EntryFor(sourceId, c, stored)], x)
  {
    hide CheckpointMoved, GetCheckpoint;
    CheckpointAfter(db, c, after, stored);
    var all := log + [EntryFor(sourceId, c, stored)];
    assert all[..|log|] == log && all[|log|] == EntryFor(sourceId, c, stored);
    forall x
      ensures HistoryOk(after, all, x)
    {
      assert HistoryOk(db, log, x);
    }
  }

  lemma WorkForDocument(env: Env, t: WorkTable, id: Id, now: string)
    requires WorkBound(t, DocumentWork(env, id, now))
    ensures WorkBound(t, DocumentWork(env, id, ""))
  {
  }

  lemma DocumentsPart(env: Env, db: Database)
    requires Consistent(env, db)
    ensures DocumentsOk(db.documents)
  {
    hide DocumentsOk, ClaimsOk, WorkOk;
  }

  lemma WorkStays(env: Env, connectors: map<Id, Connector>, s: System, sourceId: Id, c: CollectionCommitCommand,
                  after: Database, r: CollectionCommitResult)
    requires Lands(env, connectors, s, sourceId, c, after, r)
    ensures WorkExact(env, after)
  {
    hide Commit, RunnerMade, ValidCommand, DerivedCommand, Consistent, Derived, Bound, WorkBound, CheckpointMoved,
      ClaimsExtend, WorkExtends, DocumentsExtend, LogOk, BindingsOk, DocumentWork, IdsAdded, WorkFrom, DerivedId,
      WasCommitted, IsDocumentWork;
    LandsOnCurrent(env, connectors, s, sourceId, c, after, r);
    CommitFrom(env, s.db, c);
    DocumentsPart(env, after);
    MadeWork(env, connectors[sourceId], sourceId, c);
    forall id | id in after.documents.rows
      ensures WorkBound(after.work, DocumentWork(env, id, ""))
    {
      if id in s.db.documents.rows {
        WorkBoundPersists(s.db.work, after.work, DocumentWork(env, id, ""));
      } else {
        var d :| d in c.batch.records && after.documents.rows[id] == Stored(d);
        assert d.id == id;
        WorkForDocument(env, after.work, id, c.collectionWork.createdAt);
      }
    }
  }

  lemma SourcesStay(connectors: map<Id, Connector>, db: Database, sourceId: Id, after: Database)
    requires SourcesOk(connectors, db.documents) && OthersStay(db, sourceId, after) && sourceId in connectors
    ensures SourcesOk(connectors, after.documents)
  {
    hide GetCheckpoint;
    forall id | id in after.documents.rows
      ensures after.documents.rows[id].sourceId in connectors
    {
      if id in db.documents.rows {
        assert after.documents.rows[id] == db.documents.rows[id];
      }
    }
  }

  /** A successful commit keeps the history, with its own entry at the end of the log. */
  lemma HistoryStays(env: Env, connectors: map<Id, Connector>, s: System, i: nat, sourceId: Id,
                     c: CollectionCommitCommand, after: Database, r: CollectionCommitResult)
    requires Lands(env, connectors, s, sourceId, c, after, r)
    ensures Committing(env, s, i, sourceId, c)
         == System(after, s.phases[i := Idle], s.log + [EntryFor(sourceId, c, r.checkpoint)])
    ensures HistoryInv(env, connectors, Committing(env, s, i, sourceId, c))
    ensures forall x, k :: WasCommitted(s.log, x, k) ==> WasCommitted(Committing(env, s, i, sourceId, c).log, x, k)
  {
    hide Commit, RunnerMade, ValidCommand, DerivedCommand, Consistent, Derived, CheckpointMoved, LogOk, BindingsOk,
      SourcesOk, WorkExact, HistoryOk, WasCommitted, DerivedId, ValidCheckpoint, Extends, Bound, WorkBound;
    LandsOnCurrent(env, connectors, s, sourceId, c, after, r);
    CommitStaysDerived(env, s.db, c);
    LogGrows(s.db, s.log, sourceId, c, after, r.checkpoint);
    NextHistory(env, connectors, s, sourceId, c, after, r);
    HistoryGrows(s.db, s.log, sourceId, c, after, r.checkpoint);
    MadeBinding(env, connectors[sourceId], sourceId, c);
    BindingsStay(env, connectors, s.db, c, after, r.checkpoint);
    CommitIsLocal(env, connectors, s, sourceId, c, after, r);
    SourcesStay(connectors, s.db, sourceId, after);
    WorkStays(env, connectors, s, sourceId, c, after, r);
    var entry := EntryFor(sourceId, c, r.checkpoint);
    forall x, k | WasCommitted(s.log, x, k)
      ensures WasCommitted(s.log + [entry], x, k)
    {
      StillCommitted(s.log, entry, x, k);
    }
  }

  /** The next checkpoint takes its time from the batch and its watermark from the current one. */
  lemma NextHistory(env: Env, connectors: map<Id, Connector>, s: System, sourceId: Id, c: CollectionCommitCommand,
                    after: Database, r: CollectionCommitResult)
    requires Lands(env, connectors, s, sourceId, c, after, r)
    ensures c.nextCheckpoint.lastSuccessAt == Some(c.batch.collectedAt) && c.nextCheckpoint.watermark == None
  {
    hide Commit, RunnerMade, ValidCommand, DerivedCommand, Consistent, Derived, CheckpointMoved, LogOk, BindingsOk,
      SourcesOk, WorkExact, WasCommitted, DerivedId, Extends, Bound, WorkBound, DocumentWorkItems, CommitStored;
    LandsOnCurrent(env, connectors, s, sourceId, c, after, r);
    MadeParts(env, connectors[sourceId], sourceId, c);
    assert HistoryOk(s.db, s.log, sourceId);
  }

  /** A checkpoint that was committed before is not the one that is stored now. */
  lemma BasisPassed(env: Env, connectors: map<Id, Connector>, s: System, sourceId: Id, c: CollectionCommitCommand,
                    after: Database, r: CollectionCommitResult)
    requires Lands(env, connectors, s, sourceId, c, after, r)
    ensures GetCheckpoint(after, sourceId) == Some(r.checkpoint)
    ensures forall k :: WasCommitted(s.log, sourceId, k) ==> k != r.checkpoint
  {
    hide Commit, RunnerMade, ValidCommand, DerivedCommand, Consistent, Derived, CheckpointMoved, GetCheckpoint,
      BindingsOk, SourcesOk, WorkExact, HistoryOk, DerivedId, CommitStored;
    LandsOnCurrent(env, connectors, s, sourceId, c, after, r);
    CheckpointAfter(s.db, c, after, r.checkpoint);
    forall k | WasCommitted(s.log, sourceId, k)
      ensures k.revision < r.checkpoint.revision
    {
      var i :| 0 <= i < |s.log| && s.log[i].sourceId == sourceId && s.log[i].checkpoint == k;
      assert EntryOk(GetCheckpoint(s.db, s.log[i].sourceId), s.log[i]);
    }
  }
}
