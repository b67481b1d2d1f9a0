/** Concrete cases: an expired lease is reclaimed and the work completed, a renewal is refused, a retry overflows. */
module LifecycleExamples {
  import opened Wrappers
  import opened IngestionWork
  import opened WorkPolicy
  import opened RetryTiming
  import opened Lifecycle
  import opened LifecycleRuns
  import opened LifecycleFencing
  import opened ClaimOrder
  import opened TextOrder
  import opened ErrorText
  import opened Floats

  function KindOf(kind: WorkItemKind): KindPolicy {
    KindPolicy(kind, 3, 300, 60)
  }

  const POLICY := LifecyclePolicy(
    "contract-v1", [KindOf(Collection), KindOf(DocumentProcessing), KindOf(Research)], 10, 100, 20_000, 0)

  const PENDING := Record(
    Work("w", DocumentPayload("d"), 0), DocumentProcessing, Pending, 50, Some(0), 0, 0, None, None, None, None, None,
    None, None, 0)

  const SEED := Store(map["w" := PENDING], map[])

  const EXPIRY := 300 * SECOND

  function Request(worker: string, at: int): ClaimRequest {
    ClaimRequest(worker, [DocumentProcessing], at, POLICY)
  }

  function Token(c: char): string {
    Repeat(c, 43)
  }

  const CALLS := [
    ClaimNext(Request("one", 0), Token('A')),
    ClaimNext(Request("two", EXPIRY), Token('B')),
    Complete(Authority("w", "one", Token('A'), 1), EXPIRY),
    Complete(Authority("w", "two", Token('B'), 2), EXPIRY)]

  /** Running for a worker since a time, in its `attempt`-th attempt. */
  function Held(worker: string, token: string, at: int, attempt: int): Record {
    PENDING.(status := Running, availableAt := None, leaseOwner := Some(worker), claimToken := Some(token),
             claimedAt := Some(at), updatedAt := at, leaseExpiresAt := Some(at + EXPIRY), attemptCount := attempt,
             revision := attempt)
  }

  lemma PolicyValid()
    ensures POLICY.Valid()
    ensures POLICY.ForKind(DocumentProcessing) == KindOf(DocumentProcessing)
  {
    assert POLICY.kinds[0].kind == Collection && POLICY.kinds[1].kind == DocumentProcessing
        && POLICY.kinds[2].kind == Research;
    forall kind
      ensures Configures(POLICY.kinds, kind)
    {
      match kind
      case Collection => assert POLICY.kinds[0].kind == kind;
      case DocumentProcessing => assert POLICY.kinds[1].kind == kind;
      case Research => assert POLICY.kinds[2].kind == kind;
    }
  }

  lemma NamesValid(c: char)
    requires c in {'A', 'B'}
    ensures ValidWorkerId("one") && ValidWorkerId("two") && ValidToken(Token(c))
    ensures Token('A') != Token('B')
  {
    assert Token('A')[0] == 'A' && Token('B')[0] == 'B';
  }

  lemma HeldValid(worker: string, token: string, at: int, attempt: int)
    requires ValidWorkerId(worker) && ValidToken(token) && attempt >= 1
    ensures ValidRecord(Held(worker, token, at, attempt))
  {
    hide ValidWorkerId, ValidToken;
  }

  lemma OnlyWork(s: Store, request: ClaimRequest)
    requires s.records.Keys == {"w"} && s.records["w"].work.id == "w" && Eligible(s.records["w"], request)
    ensures Next(s.records, request) == Some("w")
  {
    NextIff(s.records, request);
    assert "w" in s.records;
  }

  lemma Claim(s: Store, before: Record, worker: string, token: string, at: int, attempt: int)
    requires POLICY.Valid() && POLICY.ForKind(DocumentProcessing) == KindOf(DocumentProcessing)
    requires ValidWorkerId(worker) && ValidToken(token) && 1 <= attempt <= 3
    requires s.records == map["w" := before] && Eligible(before, Request(worker, at)) && before.claimToken != Some(token)
    requires attempt == 1 ==> before == PENDING
    requires attempt > 1 ==>
               && before.leaseOwner.Some? && before.claimToken.Some?
               && before == Held(before.leaseOwner.value, before.claimToken.value, before.updatedAt, attempt - 1)
    ensures var step := Step(POLICY, s, ClaimNext(Request(worker, at), token));
      && step.Ok? && step.value.0.records == map["w" := Held(worker, token, at, attempt)]
      && step.value.1.Claimed? && step.value.1.claim.reclaimed == (attempt > 1)
      && step.value.1.claim.priorWorkerId == before.leaseOwner
  {
    hide ValidWorkerId, ValidToken, Next, ValidRecord;
    OnlyWork(s, Request(worker, at));
    HeldValid(worker, token, at, attempt);
    assert s.records["w" := Held(worker, token, at, attempt)] == map["w" := Held(worker, token, at, attempt)];
  }

  predicate ReclaimedFrom(outcome: Result<Outcome, LifecycleError>, worker: string) {
    outcome.Ok? && outcome.value.Claimed? && outcome.value.claim.priorWorkerId == Some(worker)
  }

  predicate Done(s: Store) {
    "w" in s.records && s.records["w"].status.Completed?
    && s.records["w"].attemptCount == 2 && s.records["w"].revision == 3
  }

  /** The two claims: the first worker's, and the second worker's at the first one's expiry. */
  lemma Reclaims()
    requires POLICY.Valid() && POLICY.ForKind(DocumentProcessing) == KindOf(DocumentProcessing)
    ensures At(POLICY, SEED, CALLS, 0).Ok? && ReclaimedFrom(At(POLICY, SEED, CALLS, 1), "one")
    ensures Exec(POLICY, SEED, CALLS[..2]).records == map["w" := Held("two", Token('B'), EXPIRY, 2)]
  {
    hide Step, Next, ValidWorkerId, ValidToken, Good, LifecyclePolicy.Valid;
    NamesValid('A');
    NamesValid('B');
    assert CALLS[..0] == [];
    ExecStep(POLICY, SEED, CALLS, 0);
    Claim(SEED, PENDING, "one", Token('A'), 0, 1);
    var s1 := Exec(POLICY, SEED, CALLS[..1]);
    assert s1.records["w"] == Held("one", Token('A'), 0, 1);
    ExecStep(POLICY, SEED, CALLS, 1);
    Claim(s1, s1.records["w"], "two", Token('B'), EXPIRY, 2);
  }

  /**
   * The second worker gets the work at the very moment the first lease expires. The first
   * worker's completion then fails and the second worker's succeeds, in the second attempt.
   */
  lemma ReclaimedWorkIsCompleted()
    ensures POLICY.Valid() && AllPending(SEED) && Good(POLICY, SEED, 0)
    ensures At(POLICY, SEED, CALLS, 0).Ok? && ReclaimedFrom(At(POLICY, SEED, CALLS, 1), "one")
    ensures At(POLICY, SEED, CALLS, 2) == Err(ClaimLost)
    ensures At(POLICY, SEED, CALLS, 3).Ok? && Done(Exec(POLICY, SEED, CALLS))
  {
    hide Step, Next, ValidWorkerId, ValidToken, Held, Good, Done, LifecyclePolicy.Valid, LifecyclePolicy.ForKind;
    PolicyValid();
    NamesValid('B');
    SeedGood();
    Reclaims();
    ExecStep(POLICY, SEED, CALLS, 2);
    Completions(Exec(POLICY, SEED, CALLS[..2]));
    ExecStep(POLICY, SEED, CALLS, 3);
    assert CALLS[..4] == CALLS;
  }

  // ---- the order of claims ----

  const NOW := 36_000 * SECOND
  const BEFORE_NOW := NOW - 60 * SECOND
  const EARLIER := NOW - 3_600 * SECOND

  function Waiting(id: string, priority: int, available: int, created: int): Record {
    PENDING.(work := Work(id, DocumentPayload("d"), created), priority := priority, availableAt := Some(available),
             updatedAt := BEFORE_NOW)
  }

  /** Held by an old worker until now. */
  function Expiring(id: string, priority: int): Record {
    Waiting(id, priority, NOW, BEFORE_NOW).(
      status := Running, availableAt := None, attemptCount := 1, revision := 1, leaseOwner := Some("one"),
      claimToken := Some(Token('A')), leaseExpiresAt := Some(NOW), claimedAt := Some(BEFORE_NOW))
  }

  const DUE := Store(map[
    "work-priority" := Waiting("work-priority", 10, NOW, BEFORE_NOW),
    "work-z" := Waiting("work-z", 20, BEFORE_NOW, BEFORE_NOW),
    "work-a" := Waiting("work-a", 20, BEFORE_NOW, BEFORE_NOW),
    "work-z-old" := Waiting("work-z-old", 20, BEFORE_NOW, EARLIER),
    "work-later" := Waiting("work-later", 20, NOW, BEFORE_NOW)], map[])

  const DUE_ORDER := ["work-priority", "work-z-old", "work-a", "work-z", "work-later"]

  const MIXED := Store(map[
    "work-z" := Waiting("work-z", 10, BEFORE_NOW, BEFORE_NOW),
    "work-a" := Waiting("work-a", 10, BEFORE_NOW, BEFORE_NOW),
    "work-expired" := Expiring("work-expired", 99)], map[])

  const MIXED_ORDER := ["work-expired", "work-a", "work-z"]

  const TOKENS := [Token('B'), Token('C'), Token('D'), Token('E'), Token('F')]

  /** Claim `i` of the row is granted this work item. */
  predicate Granted(outcome: Result<Outcome, LifecycleError>, id: string) {
    outcome.Ok? && outcome.value.Claimed? && outcome.value.claim.work.id == id
  }

  /**
   * Five claims in a row: the smallest priority first, then what has been available longest, of
   * that the oldest, and of work created together the smaller id.
   */
  lemma DueWorkInOrder(i: nat)
    requires i < 5
    ensures POLICY.Valid()
    ensures Granted(At(POLICY, DUE, Claims(Request("two", NOW), TOKENS), i), DUE_ORDER[i])
  {
    hide LifecyclePolicy.Valid, LifecyclePolicy.ForKind, At, UsableClaims, IsQueue, Step;
    PolicyValid();
    TokensUsable();
    DueIsQueue();
    QueueIsServed(POLICY, DUE, Request("two", NOW), TOKENS, DUE_ORDER);
  }

  /** Work whose lease has run out is claimed before waiting work, even with the largest priority. */
  lemma ExpiredWorkFirst(i: nat)
    requires i < 3
    ensures POLICY.Valid()
    ensures Granted(At(POLICY, MIXED, Claims(Request("two", NOW), TOKENS), i), MIXED_ORDER[i])
  {
    hide LifecyclePolicy.Valid, LifecyclePolicy.ForKind, At, UsableClaims, IsQueue, Step;
    PolicyValid();
    TokensUsable();
    MixedIsQueue();
    QueueIsServed(POLICY, MIXED, Request("two", NOW), TOKENS, MIXED_ORDER);
  }

  lemma TokensUsable()
    ensures UsableClaims(POLICY, Request("two", NOW), TOKENS)
    ensures Token('A') !in TOKENS && ValidWorkerId("one") && ValidToken(Token('A'))
  {
    forall t | t in TOKENS
      ensures ValidToken(t) && t[0] != 'A'
    {
    }
  }

  lemma WaitingGrantable(id: string, priority: int, available: int, created: int)
    requires POLICY.Valid() && available <= NOW
    ensures Grantable(POLICY, Waiting(id, priority, available, created), Request("two", NOW), TOKENS)
  {
  }

  lemma ExpiringGrantable(id: string, priority: int)
    requires POLICY.Valid() && POLICY.ForKind(DocumentProcessing) == KindOf(DocumentProcessing)
    ensures Grantable(POLICY, Expiring(id, priority), Request("two", NOW), TOKENS)
  {
    hide ValidToken, ValidWorkerId, Token;
    TokensUsable();
  }

  lemma SmallerLastLetter()
    ensures AtMost("work-a", "work-z")
  {
    hide AtMost;
    AtMostIff("work-a", "work-z");
    assert "work-a"[..5] == "work-z"[..5] && "work-a"[5] < "work-z"[5];
  }

  lemma NamesDiffer()
    ensures forall i, j :: 0 <= i < j < 5 ==> DUE_ORDER[i] != DUE_ORDER[j]
    ensures forall i, j :: 0 <= i < j < 3 ==> MIXED_ORDER[i] != MIXED_ORDER[j]
  {
    assert DUE_ORDER[0][5] == 'p' && DUE_ORDER[1][5] == 'z' && DUE_ORDER[2][5] == 'a' && DUE_ORDER[3][5] == 'z'
        && DUE_ORDER[4][5] == 'l' && |DUE_ORDER[1]| != |DUE_ORDER[3]|;
    assert MIXED_ORDER[0][5] == 'e' && MIXED_ORDER[1][5] == 'a' && MIXED_ORDER[2][5] == 'z';
  }

  lemma DueOrdered()
    ensures forall i, j :: 0 <= i < j < 5 ==> ServedBefore(DUE.records[DUE_ORDER[i]], DUE.records[DUE_ORDER[j]])
  {
    hide AtMost;
    NamesDiffer();
    SmallerLastLetter();
  }

  lemma DueIsQueue()
    requires POLICY.Valid()
    ensures IsQueue(POLICY, DUE, Request("two", NOW), TOKENS, DUE_ORDER)
  {
    hide Grantable, ServedBefore, Claimable, LifecyclePolicy.Valid;
    NamesDiffer();
    DueOrdered();
    WaitingGrantable("work-priority", 10, NOW, BEFORE_NOW);
    WaitingGrantable("work-z", 20, BEFORE_NOW, BEFORE_NOW);
    WaitingGrantable("work-a", 20, BEFORE_NOW, BEFORE_NOW);
    WaitingGrantable("work-z-old", 20, BEFORE_NOW, EARLIER);
    WaitingGrantable("work-later", 20, NOW, BEFORE_NOW);
  }

  lemma MixedIsQueue()
    requires POLICY.Valid() && POLICY.ForKind(DocumentProcessing) == KindOf(DocumentProcessing)
    ensures IsQueue(POLICY, MIXED, Request("two", NOW), TOKENS, MIXED_ORDER)
  {
    hide Grantable, AtMost, LifecyclePolicy.Valid;
    NamesDiffer();
    SmallerLastLetter();
    WaitingGrantable("work-z", 10, BEFORE_NOW, BEFORE_NOW);
    WaitingGrantable("work-a", 10, BEFORE_NOW, BEFORE_NOW);
    ExpiringGrantable("work-expired", 99);
  }

  // ---- a renewal dated before its claim ----

  /** Claimed at second 100 for ten seconds only, as an earlier policy had it. */
  const SHORT_LEASE := Held("one", Token('A'), 100 * SECOND, 1).(leaseExpiresAt := Some(110 * SECOND))

  /**
   * Renewed at second 90, the lease would reach to second 390 and so be longer, but the record
   * would be updated before it was claimed: the invariant refuses it. At second 100 it is renewed.
   */
  lemma BackdatedRenewalBreaksInvariant()
    ensures POLICY.Valid() && ValidStore(Store(map["w" := SHORT_LEASE], map[]))
    ensures var (s, a) := (Store(map["w" := SHORT_LEASE], map[]), Authority("w", "one", Token('A'), 1));
      && ValidCall(RenewLease(a, 90 * SECOND, 300))
      && Step(POLICY, s, RenewLease(a, 90 * SECOND, 300)) == Err(InvariantBroken)
      && Step(POLICY, s, RenewLease(a, 100 * SECOND, 300)).Ok?
  {
    hide ValidWorkerId, ValidToken, ValidRecord, LifecyclePolicy.Valid, LifecyclePolicy.ForKind;
    PolicyValid();
    NamesValid('A');
    ShortLeaseValid();
    var s := Store(map["w" := SHORT_LEASE], map[]);
    RenewedValid(SHORT_LEASE, 90 * SECOND, 390 * SECOND);
    RenewedValid(SHORT_LEASE, 100 * SECOND, 400 * SECOND);
  }

  lemma ShortLeaseValid()
    requires ValidWorkerId("one") && ValidToken(Token('A'))
    ensures ValidRecord(SHORT_LEASE)
  {
    hide ValidWorkerId, ValidToken;
  }

  lemma SeedGood()
    requires POLICY.Valid() && POLICY.ForKind(DocumentProcessing) == KindOf(DocumentProcessing)
    ensures AllPending(SEED) && Good(POLICY, SEED, 0)
  {
    forall id | id in SEED.records
      ensures id == "w"
    {
    }
    assert GoodRecord(POLICY, "w", PENDING, 0);
  }

  lemma Completions(s: Store)
    requires POLICY.Valid() && ValidWorkerId("two") && ValidToken(Token('B'))
    requires s.records == map["w" := Held("two", Token('B'), EXPIRY, 2)]
    ensures Step(POLICY, s, CALLS[2]) == Err(ClaimLost)
    ensures Step(POLICY, s, CALLS[3]).Ok? && Done(Step(POLICY, s, CALLS[3]).value.0)
  {
    hide ValidWorkerId, ValidToken;
    assert "one"[0] != "two"[0];
  }

  // ---- evaluations without a decision ----

  const NO_DIGEST: string -> Digest := x => 0

  /**
   * The first failure of three allowed attempts: a hint of 2 to the 1024 seconds has no float, and
   * a failure at the last moment has no time for its retry. With the policy's maximal delay left,
   * there is a decision.
   */
  lemma EvaluationOverflows(at: int)
    ensures POLICY.Valid()
    ensures EvaluateRetry(POLICY, DocumentProcessing, "w", 1, at, at, Whole(TwoTo(1024)), NO_DIGEST) == Err(HintOverflow)
    ensures EvaluateRetry(POLICY, DocumentProcessing, "w", 1, at, at, Unusable, NO_DIGEST) == Err(TimeOverflow)
    ensures EvaluateRetry(POLICY, DocumentProcessing, "w", 1, at, at + 100 * SECOND, Unusable, NO_DIGEST).Ok?
  {
    hide TwoTo, EvaluateRetry, IsDecision;
    PolicyValid();
    PowerFitsIff(1024);
    DecisionAccepted(POLICY, DocumentProcessing, "w", 1, at, at, Whole(TwoTo(1024)), NO_DIGEST);
    DecisionAccepted(POLICY, DocumentProcessing, "w", 1, at, at, Unusable, NO_DIGEST);
    DecisionAccepted(POLICY, DocumentProcessing, "w", 1, at, at + 100 * SECOND, Unusable, NO_DIGEST);
    NoRetryInTime(at);
  }

  /** The decision on a failure at this time, with the seconds until the retry. */
  predicate RetriesAfter(policy: LifecyclePolicy, attempt: int, at: int, last: int, hint: Hint, digest: string -> Digest,
                         seconds: int)
    requires policy.Valid() && attempt >= 1
  {
    EvaluateRetry(policy, DocumentProcessing, "w", attempt, at, last, hint, digest)
    == Ok(RetryDecision("contract-v1", 3, attempt, false, Some(at + seconds * 1_000_000)))
  }

  /**
   * Ten seconds, doubled after each attempt and at most a hundred. A hint of sixty seconds
   * lengthens the wait, one of half a second does not, and one of five hundred is cut. The third
   * attempt was the last one.
   */
  lemma WaitsDouble(at: int, last: int)
    requires at + 100_000_000 <= last
    ensures POLICY.Valid()
    ensures RetriesAfter(POLICY, 1, at, last, Unusable, NO_DIGEST, 10)
    ensures RetriesAfter(POLICY, 2, at, last, Unusable, NO_DIGEST, 20)
    ensures RetriesAfter(POLICY, 2, at, last, Whole(60), NO_DIGEST, 60)
    ensures RetriesAfter(POLICY, 2, at, last, Finite(0.5), NO_DIGEST, 20)
    ensures RetriesAfter(POLICY, 2, at, last, Finite(59.5), NO_DIGEST, 60)
    ensures RetriesAfter(POLICY, 2, at, last, Whole(-60), NO_DIGEST, 20)
    ensures RetriesAfter(POLICY, 2, at, last, Whole(500), NO_DIGEST, 100)
    ensures EvaluateRetry(POLICY, DocumentProcessing, "w", 3, at, last, Whole(60), NO_DIGEST)
         == Ok(RetryDecision("contract-v1", 3, 3, true, None))
  {
    hide Fits, LifecyclePolicy.Valid;
    PolicyValid();
    SmallFits();
    TenSeconds(0);
    TenSeconds(1);
  }

  const JITTERY := POLICY.(jitter := 5_000)

  const FULL_DIGEST: string -> Digest := x => MAX_DIGEST

  /** Half of the wait as jitter: five to fifteen seconds after the first attempt. */
  lemma WaitsJitter(at: int, last: int)
    requires at + 100_000_000 <= last
    ensures JITTERY.Valid()
    ensures RetriesAfter(JITTERY, 1, at, last, Unusable, NO_DIGEST, 5)
    ensures RetriesAfter(JITTERY, 1, at, last, Unusable, FULL_DIGEST, 15)
  {
    hide LifecyclePolicy.Valid;
    PolicyValid();
    JitteryValid();
    HalfOfTen();
  }

  lemma JitteryValid()
    requires POLICY.Valid()
    ensures JITTERY.Valid() && JITTERY.ForKind(DocumentProcessing) == POLICY.ForKind(DocumentProcessing)
  {
  }

  lemma HalfOfTen()
    requires JITTERY.Valid()
    ensures CalculatedDelay(JITTERY, 0, 0) == 5 && CalculatedDelay(JITTERY, 0, MAX_DIGEST) == 15
  {
    hide LifecyclePolicy.Valid;
    assert Base(JITTERY, 0) == 10;
    JitterWithin(5_000, 0);
    JitterWithin(5_000, MAX_DIGEST);
  }

  lemma SmallFits()
    ensures Fits(60) && Fits(-60) && Fits(500)
  {
    hide FloatEnd, TwoTo;
    PowerFitsIff(9);
    NinthPower();
  }

  lemma NinthPower()
    ensures TwoTo(9) == 512
  {
    assert TwoTo(3) == 8 && TwoTo(6) == 64;
  }

  lemma TenSeconds(e: nat)
    requires e <= 1 && POLICY.Valid()
    ensures Base(POLICY, e) == if e == 0 then 10 else 20
    ensures CalculatedDelay(POLICY, e, 0) == Base(POLICY, e)
  {
  }

  lemma NoRetryInTime(at: int)
    requires POLICY.Valid() && POLICY.ForKind(DocumentProcessing) == KindOf(DocumentProcessing)
    ensures !HasDecision(POLICY, DocumentProcessing, "w", 1, at, at, Unusable, NO_DIGEST)
  {
    hide Delay;
    DelayEnvelope(POLICY, 0, NO_DIGEST(Seed(POLICY, "w", 1)), Unusable);
  }
}
