/** What the constructors of the ingestion types accept and refuse, one condition at a time. */
module IngestionRefusals {
  import opened Wrappers
  import opened IngestionModels
  import opened IngestionWork
  import opened IngestionTables

  const ENV := Env(x => x, x => x, x => x != "never")

  const DOCUMENT := RawDocument(
    "i", "s", "e", "u", "t", "t", "text/plain", "sha256:h", Some("text"), None, None, "c", "1", [], "1.0.0")

  /** A document needs each of its names and times, and a content or a reference to one. */
  lemma DocumentsRefused()
    ensures ValidDocument(ENV, DOCUMENT) && ValidDocument(ENV, DOCUMENT.(content := None, rawPayloadRef := Some("p")))
    ensures forall d ::
              d in {DOCUMENT.(id := ""), DOCUMENT.(sourceId := ""), DOCUMENT.(externalId := ""),
                    DOCUMENT.(canonicalUri := ""), DOCUMENT.(publishedAt := ""), DOCUMENT.(retrievedAt := ""),
                    DOCUMENT.(mediaType := ""), DOCUMENT.(contentHash := ""), DOCUMENT.(content := None),
                    DOCUMENT.(connectorName := ""), DOCUMENT.(connectorVersion := ""), DOCUMENT.(schemaVersion := "")}
              ==> !ValidDocument(ENV, d)
  {
  }

  const CHECKPOINT := IngestionCheckpoint("s", None, None, None, "1", 0, "1.0.0")

  /** A checkpoint needs a source, a version and a revision, and its times are timestamps. */
  lemma CheckpointsRefused()
    ensures ValidCheckpoint(ENV, CHECKPOINT)
    ensures forall c ::
              c in {CHECKPOINT.(sourceId := ""), CHECKPOINT.(connectorVersion := ""), CHECKPOINT.(revision := -1),
                    CHECKPOINT.(watermark := Some("")), CHECKPOINT.(lastSuccessAt := Some(""))}
              ==> !ValidCheckpoint(ENV, c)
  {
  }

  const RESEARCH := ResearchPayload("e", ["a", "b"], "t")

  /** Work needs its names, a positive limit, a checkpoint of its own source and version, and distinct signals. */
  lemma WorkRefused()
    ensures ValidPayload(ENV, CollectionPayload("s", "c", "1", Some(CHECKPOINT), 1)) && ValidPayload(ENV, RESEARCH)
    ensures forall p ::
              p in {CollectionPayload("", "c", "1", None, 1), CollectionPayload("s", "", "1", None, 1),
                    CollectionPayload("s", "c", "", None, 1), CollectionPayload("s", "c", "1", None, 0),
                    CollectionPayload("x", "c", "1", Some(CHECKPOINT), 1),
                    CollectionPayload("s", "c", "2", Some(CHECKPOINT), 1),
                    CollectionPayload("s", "c", "1", Some(CHECKPOINT.(revision := -1)), 1), DocumentPayload(""),
                    RESEARCH.(entityId := ""), RESEARCH.(signalIds := []), RESEARCH.(signalIds := ["a", "a"]),
                    RESEARCH.(topicKey := "")}
              ==> !ValidPayload(ENV, p)
    ensures forall w ::
              w in {WorkItem(RESEARCH, "", "k", "t", "1.0.0"), WorkItem(RESEARCH, "i", "", "t", "1.0.0"),
                    WorkItem(RESEARCH, "i", "k", "t", ""), WorkItem(DocumentPayload(""), "i", "k", "t", "1.0.0")}
              ==> !ValidWorkItem(ENV, w)
  {
    assert "s"[0] != "x"[0] && "1"[0] != "2"[0] && ["a", "b"][0][0] != ["a", "b"][1][0];
    assert ["a", "a"][0] == ["a", "a"][1];
  }

  const WORK := WorkItem(CollectionPayload("s", "c", "1", None, 1), "w", "k", "t", "1.0.0")

  function DocumentItem(id: string, documentId: string): WorkItem {
    WorkItem(DocumentPayload(documentId), id, "k" + id, "t", "1.0.0")
  }

  const BATCH := CollectionBatch([DOCUMENT], "t", None, None, false)

  const COMMAND := CollectionCommitCommand(WORK, BATCH, None, CHECKPOINT, [DocumentItem("v", "i")])

  /** One complete batch, the checkpoint of its source and version, and the revision that its work starts from. */
  lemma CommandsRefused()
    ensures ValidCommand(ENV, COMMAND)
    ensures !ValidCommand(ENV, COMMAND.(collectionWork := DocumentItem("v", "i")))
    ensures !ValidCommand(ENV, COMMAND.(collectionWork := WORK.(id := "")))
    ensures !ValidCommand(ENV, COMMAND.(batch := BATCH.(isPartial := true)))
    ensures !ValidCommand(ENV, COMMAND.(batch := BATCH.(collectedAt := "")))
    ensures !ValidCommand(ENV, COMMAND.(expectedRevision := Some(0)))
    ensures !ValidCommand(ENV, COMMAND.(nextCheckpoint := CHECKPOINT.(sourceId := "x")))
    ensures !ValidCommand(ENV, COMMAND.(nextCheckpoint := CHECKPOINT.(connectorVersion := "2")))
  {
    hide ValidDocument;
    CheckpointsRefused();
    DocumentsRefused();
    assert COMMAND.batch.records[0] == DOCUMENT;
    assert "s"[0] != "x"[0] && "1"[0] != "2"[0];
  }

  function OfDocuments(records: seq<RawDocument>): CollectionCommitCommand {
    COMMAND.(batch := BATCH.(records := records))
  }

  /** Valid documents of the command's source and connector, each once. */
  lemma BatchesRefused()
    ensures !ValidCommand(ENV, OfDocuments([DOCUMENT, DOCUMENT]))
    ensures !ValidCommand(ENV, OfDocuments([DOCUMENT.(sourceId := "x")]))
    ensures !ValidCommand(ENV, OfDocuments([DOCUMENT.(connectorName := "d")]))
    ensures !ValidCommand(ENV, OfDocuments([DOCUMENT.(connectorVersion := "2")]))
    ensures !ValidCommand(ENV, OfDocuments([DOCUMENT.(canonicalUri := "")]))
  {
    hide ValidWorkItem, ValidCheckpoint;
    assert [DOCUMENT, DOCUMENT][0].id == [DOCUMENT, DOCUMENT][1].id;
    assert "s"[0] != "x"[0] && "1"[0] != "2"[0] && "c"[0] != "d"[0];
    forall d: RawDocument
      ensures d in OfDocuments([d]).batch.records
    {
    }
  }

  function OfWork(items: seq<WorkItem>): CollectionCommitCommand {
    COMMAND.(documentWorkItems := items)
  }

  /** Work for the documents of the batch, and once each. */
  lemma HandoffsRefused()
    ensures !ValidCommand(ENV, OfWork([WORK]))
    ensures !ValidCommand(ENV, OfWork([DocumentItem("v", "j")]))
    ensures !ValidCommand(ENV, OfWork([DocumentItem("v", "i"), DocumentItem("w", "i")]))
  {
    hide ValidWorkItem, ValidCheckpoint, ValidDocument;
    assert "i"[0] != "j"[0];
    assert WORK in OfWork([WORK]).documentWorkItems;
    assert DocumentItem("v", "j") in OfWork([DocumentItem("v", "j")]).documentWorkItems;
    var twice := OfWork([DocumentItem("v", "i"), DocumentItem("w", "i")]).documentWorkItems;
    assert twice[0].payload == twice[1].payload;
  }
}

/** The same for the types of the work lifecycle. */
module LifecycleRefusals {
  import opened Wrappers
  import opened IngestionWork
  import opened WorkPolicy
  import opened Lifecycle
  import opened LifecycleExamples

  /** Versions, delays, multiplier, jitter, and one entry for each kind. */
  lemma PoliciesRefused()
    ensures POLICY.Valid()
    ensures forall p ::
              p in {POLICY.(version := ""), POLICY.(version := "a b"), POLICY.(initialDelay := 0),
                    POLICY.(maximumDelay := 9), POLICY.(multiplier := 9_999), POLICY.(jitter := -1),
                    POLICY.(jitter := 10_000), POLICY.(kinds := POLICY.kinds[..2]),
                    POLICY.(kinds := POLICY.kinds + [KindOf(Collection)])}
              ==> !p.Valid()
    ensures forall k ::
              k in {KindPolicy(Research, 0, 300, 60), KindPolicy(Research, 3, 300, 0), KindPolicy(Research, 3, 300, 300)}
              ==> !k.Valid()
  {
    PolicyValid();
    assert "a b"[1] == ' ';
    KindsRefused(POLICY.kinds[..2], POLICY.kinds + [KindOf(Collection)]);
  }

  lemma KindsRefused(fewer: seq<KindPolicy>, more: seq<KindPolicy>)
    requires fewer == POLICY.kinds[..2] && more == POLICY.kinds + [KindOf(Collection)]
    ensures !POLICY.(kinds := fewer).Valid() && !POLICY.(kinds := more).Valid()
  {
    assert !Configures(fewer, Research);
    assert more[0].kind == more[3].kind;
  }

  const DECISION := RetryDecision("v", 3, 2, false, Some(1))

  /** A decision is exhausted exactly at the budget, and available exactly before. */
  lemma DecisionsRefused()
    ensures DECISION.Valid() && RetryDecision("v", 3, 3, true, None).Valid()
    ensures forall d ::
              d in {DECISION.(policyVersion := ""), DECISION.(maximumAttempts := 0), DECISION.(attemptCount := 0),
                    RetryDecision("v", 3, 3, false, Some(1)), RetryDecision("v", 3, 3, true, Some(1)),
                    RetryDecision("v", 3, 2, false, None), RetryDecision("v", 3, 2, true, None)}
              ==> !d.Valid()
  {
  }

  /** Which categories of errors may be retried. */
  lemma RetryableCategories(c: WorkErrorCategory)
    ensures c.Retryable()
       <==> || c.ConnectorTransient? || c.RateLimited? || c.PersistenceOperational?
            || c.CheckpointConflict? || c.DownstreamTransient? || c.Unexpected?
    ensures !WorkError(c, "", c.Retryable()).Valid() && !WorkError(c, "failed", !c.Retryable()).Valid()
  {
  }

  const RUNNING := Held("one", Token('A'), 0, 1)

  const FAILURE := WorkError(ConnectorTransient, "failed", true)

  const RETRYING := RUNNING.(status := Retrying, leaseOwner := None, claimToken := None, leaseExpiresAt := None,
                             availableAt := Some(1), failure := Some(FAILURE), revision := 2)

  const COMPLETED := RUNNING.(status := Completed, leaseOwner := None, claimToken := None, leaseExpiresAt := None,
                              completedAt := Some(0), revision := 2)

  const BURIED := RUNNING.(status := DeadLetter, leaseOwner := None, claimToken := None, leaseExpiresAt := None,
                           deadLetteredAt := Some(0), failure := Some(FAILURE), revision := 2)

  /** Waiting work has neither been claimed nor failed. */
  lemma PendingRefused()
    ensures ValidState(PENDING)
    ensures forall r ::
              r in {PENDING.(availableAt := None), PENDING.(attemptCount := 1), PENDING.(revision := 1),
                    PENDING.(claimedAt := Some(0)), PENDING.(completedAt := Some(0)),
                    PENDING.(deadLetteredAt := Some(0)), PENDING.(failure := Some(FAILURE))}
              ==> !ValidState(r)
  {
  }

  /** Running work holds a lease that ends after its last change, and was claimed no later. */
  lemma RunningRefused()
    ensures ValidState(RUNNING)
    ensures forall r ::
              r in {RUNNING.(leaseOwner := None), RUNNING.(claimToken := None), RUNNING.(leaseExpiresAt := None),
                    RUNNING.(leaseExpiresAt := Some(0)), RUNNING.(claimedAt := None), RUNNING.(claimedAt := Some(1)),
                    RUNNING.(availableAt := Some(0)), RUNNING.(attemptCount := 0), RUNNING.(revision := 0),
                    RUNNING.(failure := Some(FAILURE)), RUNNING.(completedAt := Some(0))}
              ==> !ValidState(r)
  {
  }

  /** Work that waits for a retry knows its retryable failure and is available later. */
  lemma RetryingRefused()
    ensures ValidState(RETRYING)
    ensures forall r ::
              r in {RETRYING.(availableAt := None), RETRYING.(availableAt := Some(0)), RETRYING.(failure := None),
                    RETRYING.(failure := Some(FAILURE.(retryable := false))), RETRYING.(attemptCount := 0),
                    RETRYING.(revision := 1), RETRYING.(claimedAt := None), RETRYING.(deadLetteredAt := Some(0))}
              ==> !ValidState(r)
  {
  }

  /** Ended work knows when it ended, and how. */
  lemma EndedRefused()
    ensures ValidState(COMPLETED) && ValidState(BURIED)
    ensures forall r ::
              r in {COMPLETED.(completedAt := None), COMPLETED.(completedAt := Some(1)), COMPLETED.(claimedAt := None),
                    COMPLETED.(failure := Some(FAILURE)), COMPLETED.(revision := 1), COMPLETED.(attemptCount := 0),
                    BURIED.(deadLetteredAt := None), BURIED.(deadLetteredAt := Some(1)), BURIED.(failure := None),
                    BURIED.(claimedAt := None), BURIED.(revision := 1), BURIED.(availableAt := Some(0))}
              ==> !ValidState(r)
  {
  }

  /** A record has the kind of its work, and counts from zero. */
  lemma RecordsRefused()
    ensures ValidRecord(PENDING)
    ensures forall r ::
              r in {PENDING.(kind := Research), RUNNING.(leaseOwner := Some("a b")), RUNNING.(claimToken := Some("short")),
                    RETRYING.(failure := Some(FAILURE.(message := "")))}
              ==> !ValidRecord(r)
  {
    assert "a b"[1] == ' ';
  }

  const AUTHORITY := Authority("w", "one", Token('A'), 1)

  const DUE_DECISION := RetryDecision("v", 3, 1, false, Some(1))

  /** What is refused before the state is looked at. */
  lemma CommandsRefused()
    ensures ValidAuthority(AUTHORITY)
    ensures forall a ::
              a in {AUTHORITY.(workItemId := ""), AUTHORITY.(workerId := ""), AUTHORITY.(claimToken := "short"),
                    AUTHORITY.(expectedRevision := -1)}
              ==> !ValidAuthority(a) && !ValidCall(RenewLease(a, 0, 1)) && !ValidCall(Complete(a, 0))
                  && !ValidCall(FailRetryable(a, 0, DUE_DECISION, FAILURE))
                  && !ValidCall(FailTerminal(a, 0, FAILURE.(category := DomainInvariant, retryable := false)))
    ensures ValidCall(RenewLease(AUTHORITY, 0, 1)) && !ValidCall(RenewLease(AUTHORITY, 0, 0))
    ensures !ValidCall(FailRetryable(AUTHORITY, 1, DUE_DECISION, FAILURE))
    ensures !ValidCall(FailRetryable(AUTHORITY, 0, DUE_DECISION, WorkError(DomainInvariant, "failed", false)))
    ensures !ValidCall(FailTerminal(AUTHORITY, 0, FAILURE))
    ensures !ValidCall(FailTerminal(AUTHORITY, 0, WorkError(DomainInvariant, "of " + Token('A'), false)))
  {
    NamesValid('A');
    MentionsIff("of " + Token('A'), Token('A'));
    assert "of " + Token('A') == "of " + Token('A') + "";
  }

  const CLAIM := WorkClaim(PENDING.work, DocumentProcessing, "one", Token('A'), 0, 1, 1, 1, false, None)

  /** A claim has a lease that lies ahead, and a prior worker exactly if it was reclaimed. */
  lemma ClaimResultsRefused()
    ensures CLAIM.Valid() && CLAIM.(reclaimed := true, priorWorkerId := Some("two")).Valid()
    ensures forall c ::
              c in {CLAIM.(kind := Research), CLAIM.(workerId := ""), CLAIM.(claimToken := "short"),
                    CLAIM.(leaseExpiresAt := 0), CLAIM.(attemptCount := 0), CLAIM.(revision := 0),
                    CLAIM.(reclaimed := true), CLAIM.(priorWorkerId := Some("two")),
                    CLAIM.(reclaimed := true, priorWorkerId := Some(""))}
              ==> !c.Valid()
  {
    NamesValid('A');
  }

  const DONE := TransitionResult("w", DocumentProcessing, Running, Completed, 0, 1, 2, None, None, None, false)

  const RENEWED := DONE.(toStatus := Running, leaseExpiresAt := Some(1))

  const RETRIED := DONE.(toStatus := Retrying, availableAt := Some(1), error := Some(FAILURE))

  const ENDED := DONE.(toStatus := DeadLetter, error := Some(FAILURE), exhausted := true)

  /** Each transition leaves running work and carries what belongs to its end, and nothing else. */
  lemma TransitionsRefused()
    ensures DONE.Valid() && RENEWED.Valid() && RETRIED.Valid() && ENDED.Valid()
    ensures ENDED.(error := Some(EXHAUSTED)).Valid()
    ensures forall t ::
              t in {DONE.(workItemId := ""), DONE.(attemptCount := 0), DONE.(revision := 1), DONE.(fromStatus := Pending),
                    DONE.(toStatus := Pending), DONE.(error := Some(FAILURE)), DONE.(exhausted := true),
                    DONE.(leaseExpiresAt := Some(1)), DONE.(availableAt := Some(1)),
                    RENEWED.(leaseExpiresAt := None), RENEWED.(leaseExpiresAt := Some(0)),
                    RENEWED.(availableAt := Some(1)), RENEWED.(error := Some(FAILURE)), RENEWED.(exhausted := true),
                    RETRIED.(availableAt := None), RETRIED.(availableAt := Some(0)), RETRIED.(error := None),
                    RETRIED.(leaseExpiresAt := Some(1)), RETRIED.(exhausted := true),
                    RETRIED.(error := Some(FAILURE.(retryable := false))),
                    ENDED.(error := None), ENDED.(availableAt := Some(1)), ENDED.(leaseExpiresAt := Some(1)),
                    ENDED.(exhausted := false), ENDED.(error := Some(WorkError(DomainInvariant, "failed", false)))}
              ==> !t.Valid()
  {
  }

  /** A claim needs a worker, kinds that are named once each, and a policy. */
  lemma ClaimsRefused(token: string)
    ensures ValidCall(ClaimNext(Request("two", 0), token))
    ensures forall r ::
              r in {Request("", 0), Request("two", 0).(allowedKinds := []),
                    Request("two", 0).(allowedKinds := [Research, Research]),
                    Request("two", 0).(policy := POLICY.(jitter := -1))}
              ==> !ValidCall(ClaimNext(r, token))
  {
    PolicyValid();
    assert [Research, Research][0] == [Research, Research][1];
    assert [DocumentProcessing][0] == DocumentProcessing;
  }
}
