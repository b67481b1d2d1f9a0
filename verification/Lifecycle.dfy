/** Durable work: records and their invariant, commands, results, and each port operation as a step. */
module Lifecycle {
  import opened Wrappers
  import opened IngestionModels
  import opened IngestionWork
  import opened WorkPolicy
  import opened RetryTiming
  import opened TextOrder

  // ---- records ----

  datatype Status = Pending | Running | Retrying | Completed | DeadLetter

  /** A typed work item, with its creation time as a number. */
  datatype Work = Work(id: Id, payload: WorkPayload, createdAt: int)

  datatype Record = Record(
    work: Work, kind: WorkItemKind, status: Status, priority: int, availableAt: Option<int>,
    attemptCount: int, revision: int, leaseOwner: Option<string>, claimToken: Option<string>,
    leaseExpiresAt: Option<int>, claimedAt: Option<int>, completedAt: Option<int>,
    deadLetteredAt: Option<int>, failure: Option<WorkError>, updatedAt: int)

  predicate ValidWorkerId(s: string) {
    1 <= |s| <= 128 && forall i :: 0 <= i < |s| ==> IsNameChar(s[i]) || s[i] == '.' || s[i] == ':'
  }

  predicate ValidToken(s: string) {
    |s| >= 43 && forall i :: 0 <= i < |s| ==> IsNameChar(s[i])
  }

  /**
   * Worker ids have 1 to 128 characters and tokens at least 43, out of letters, digits, `_` and `-`;
   * worker ids may also have `.` and `:`.
   */
  lemma NamesAccepted(s: string)
    ensures var plain := (c: char) => 'A' <= c <= 'Z' || 'a' <= c <= 'z' || '0' <= c <= '9' || c in {'_', '-'};
      && (ValidWorkerId(s) <==> 1 <= |s| <= 128 && forall c :: c in s ==> plain(c) || c in {'.', ':'})
      && (ValidToken(s) <==> |s| >= 43 && forall c :: c in s ==> plain(c))
  {
    forall i | 0 <= i < |s|
      ensures s[i] in s
    {
    }
  }

  /** Which optional fields a record has. */
  predicate Has(r: Record, available: bool, lease: bool, claimed: bool, completed: bool, deadLettered: bool,
                failure: bool)
  {
    && r.availableAt.Some? == available && r.leaseOwner.Some? == lease && r.claimedAt.Some? == claimed
    && r.completedAt.Some? == completed && r.deadLetteredAt.Some? == deadLettered && r.failure.Some? == failure
  }

  /** `_validate_record_state` */
  predicate ValidState(r: Record) {
    && (r.leaseOwner.Some? == r.claimToken.Some? == r.leaseExpiresAt.Some?)
    && match r.status
       case Pending =>
         Has(r, true, false, false, false, false, false) && r.attemptCount == 0 && r.revision == 0
       case Running =>
         && Has(r, false, true, true, false, false, false) && r.attemptCount >= 1 && r.revision >= 1
         && r.leaseExpiresAt.value > r.updatedAt && r.claimedAt.value <= r.updatedAt
       case Retrying =>
         && Has(r, true, false, true, false, false, true) && r.attemptCount >= 1 && r.revision >= 2
         && r.failure.value.retryable && r.availableAt.value > r.updatedAt
       case Completed =>
         && Has(r, false, false, true, true, false, false) && r.attemptCount >= 1 && r.revision >= 2
         && r.completedAt.value == r.updatedAt
       case DeadLetter =>
         && Has(r, false, false, true, false, true, true) && r.attemptCount >= 1 && r.revision >= 2
         && r.deadLetteredAt.value == r.updatedAt
  }

  /** What the record's constructor accepts. */
  predicate ValidRecord(r: Record) {
    && r.kind == r.work.payload.Kind() && r.attemptCount >= 0 && r.revision >= 0
    && (r.leaseOwner.Some? ==> ValidWorkerId(r.leaseOwner.value))
    && (r.claimToken.Some? ==> ValidToken(r.claimToken.value))
    && (r.failure.Some? ==> r.failure.value.Valid())
    && ValidState(r)
  }

  predicate Terminal(r: Record) {
    r.status.Completed? || r.status.DeadLetter?
  }

  // ---- commands ----

  datatype ClaimRequest = ClaimRequest(
    workerId: string, allowedKinds: seq<WorkItemKind>, claimedAt: int, policy: LifecyclePolicy)

  datatype Authority = Authority(workItemId: Id, workerId: string, claimToken: string, expectedRevision: int)

  /** The calls of the five port operations; a claim draws one token from the token source. */
  datatype Call =
    | ClaimNext(request: ClaimRequest, token: string)
    | RenewLease(authority: Authority, at: int, leaseDuration: int)
    | Complete(authority: Authority, at: int)
    | FailRetryable(authority: Authority, at: int, decision: RetryDecision, error: WorkError)
    | FailTerminal(authority: Authority, at: int, error: WorkError)
  {
    function Time(): int {
      if ClaimNext? then request.claimedAt else at
    }
  }

  predicate ValidAuthority(a: Authority) {
    a.workItemId != "" && ValidWorkerId(a.workerId) && ValidToken(a.claimToken) && a.expectedRevision >= 0
  }

  predicate OccursAt(text: string, token: string, i: nat) {
    i + |token| <= |text| && text[i..i + |token|] == token
  }

  predicate Mentions(text: string, token: string) {
    exists i: nat :: i <= |text| && OccursAt(text, token, i)
  }

  /** A text mentions a token that stands anywhere in it. */
  lemma MentionsIff(text: string, token: string)
    ensures Mentions(text, token) <==> exists a, b :: text == a + token + b
  {
    if i: nat :| i <= |text| && OccursAt(text, token, i) {
      assert text == text[..i] + token + text[i + |token|..];
    }
    if a, b :| text == a + token + b {
      assert OccursAt(text, token, |a|);
    }
  }

  /** What the command constructors accept. */
  predicate ValidCall(call: Call) {
    match call
    case ClaimNext(request, token) =>
      ValidWorkerId(request.workerId) && request.allowedKinds != [] && Distinct(request.allowedKinds)
      && request.policy.Valid()
    case RenewLease(authority, _, leaseDuration) => ValidAuthority(authority) && leaseDuration >= 1
    case Complete(authority, _) => ValidAuthority(authority)
    case FailRetryable(authority, failedAt, decision, error) =>
      && ValidAuthority(authority) && decision.Valid() && error.Valid() && error.retryable
      && (decision.availableAt.Some? ==> decision.availableAt.value > failedAt)
      && !Mentions(error.message, authority.claimToken)
    case FailTerminal(authority, _, error) =>
      ValidAuthority(authority) && error.Valid() && !error.retryable && !Mentions(error.message, authority.claimToken)
  }

  // ---- results ----

  datatype WorkClaim = WorkClaim(
    work: Work, kind: WorkItemKind, workerId: string, claimToken: string, claimedAt: int,
    leaseExpiresAt: int, attemptCount: int, revision: int, reclaimed: bool, priorWorkerId: Option<string>)
  {
    predicate Valid() {
      && kind == work.payload.Kind() && ValidWorkerId(workerId) && ValidToken(claimToken)
      && leaseExpiresAt > claimedAt && attemptCount >= 1 && revision >= 1
      && reclaimed == priorWorkerId.Some?
      && (priorWorkerId.Some? ==> ValidWorkerId(priorWorkerId.value))
    }

    /** The authority that the claim gives its worker. */
    function Held(): Authority {
      Authority(work.id, workerId, claimToken, revision)
    }
  }

  datatype TransitionResult = TransitionResult(
    workItemId: Id, kind: WorkItemKind, fromStatus: Status, toStatus: Status, occurredAt: int,
    attemptCount: int, revision: int, availableAt: Option<int>, leaseExpiresAt: Option<int>,
    error: Option<WorkError>, exhausted: bool)
  {
    /** `_validate_transition_result` and the constructor's own checks. */
    predicate Valid() {
      && workItemId != "" && attemptCount >= 1 && revision >= 2 && fromStatus.Running?
      && match toStatus
         case Running =>
           leaseExpiresAt.Some? && availableAt.None? && error.None? && !exhausted && leaseExpiresAt.value > occurredAt
         case Completed => leaseExpiresAt.None? && availableAt.None? && error.None? && !exhausted
         case Retrying =>
           availableAt.Some? && leaseExpiresAt.None? && error.Some? && error.value.retryable && !exhausted
           && availableAt.value > occurredAt
         case DeadLetter =>
           && availableAt.None? && leaseExpiresAt.None? && error.Some?
           && (exhausted ==> error.value.retryable || error.value.category.AttemptsExhausted?)
           && (!exhausted ==> !error.value.retryable)
         case Pending => false
    }
  }

  datatype Outcome = NothingDue | Claimed(claim: WorkClaim) | Transitioned(result: TransitionResult)

  datatype LifecycleError = ClaimLost | InvalidTransition | PolicyDisagreement | InvariantBroken

  // ---- durable state ----

  /** `priors` holds the previous owner of work whose current grant began as a reclaim. */
  datatype Store = Store(records: map<Id, Record>, priors: map<Id, string>)

  type StepResult = Result<(Store, Outcome), LifecycleError>

  /** Write the successor of a record, unless the record invariant refuses it. */
  function Put(s: Store, r: Record, outcome: Outcome): StepResult {
    if ValidRecord(r) then Ok((s.(records := s.records[r.work.id := r]), outcome)) else Err(InvariantBroken)
  }

  function WithoutLease(r: Record, at: int): Record {
    r.(leaseOwner := None, claimToken := None, leaseExpiresAt := None, revision := r.revision + 1, updatedAt := at)
  }

  function Bury(s: Store, r: Record, at: int, error: WorkError, exhausted: bool): StepResult {
    Put(s, WithoutLease(r, at).(status := DeadLetter, deadLetteredAt := Some(at), failure := Some(error)),
        Transitioned(TransitionResult(
          r.work.id, r.kind, Running, DeadLetter, at, r.attemptCount, r.revision + 1, None, None, Some(error), exhausted)))
  }

  // ---- claim ----

  predicate Expired(r: Record, now: int) {
    r.status.Running? && r.leaseExpiresAt.Some? && r.leaseExpiresAt.value <= now
  }

  predicate DueNow(r: Record, now: int) {
    (r.status.Pending? || r.status.Retrying?) && r.availableAt.Some? && r.availableAt.value <= now
  }

  predicate Eligible(r: Record, request: ClaimRequest) {
    r.kind in request.allowedKinds && (Expired(r, request.claimedAt) || DueNow(r, request.claimedAt))
  }

  /** When the record became claimable. */
  function Since(r: Record): int {
    var since := if r.status.Running? then r.leaseExpiresAt else r.availableAt;
    if since.Some? then since.value else 0
  }

  /** The claim order: expired work first, then priority, then the longest due, then age, then id. */
  predicate NoLater(a: Record, b: Record) {
    if a.status.Running? != b.status.Running? then a.status.Running?
    else if a.priority != b.priority then a.priority < b.priority
    else if Since(a) != Since(b) then Since(a) < Since(b)
    else if a.work.createdAt != b.work.createdAt then a.work.createdAt < b.work.createdAt
    else AtMost(a.work.id, b.work.id)
  }

  ghost predicate IsNext(records: map<Id, Record>, request: ClaimRequest, id: Id) {
    && id in records && Eligible(records[id], request)
    && forall other :: other in records && Eligible(records[other], request) ==> NoLater(records[id], records[other])
  }

  ghost function Next(records: map<Id, Record>, request: ClaimRequest): Option<Id> {
    if exists id :: IsNext(records, request, id) then
      var id :| IsNext(records, request, id);
      Some(id)
    else None
  }

  const EXHAUSTED := WorkError(AttemptsExhausted, "attempts_exhausted", false)

  function ClaimOf(r: Record, prior: Option<string>): WorkClaim
    requires r.leaseOwner.Some? && r.claimToken.Some? && r.leaseExpiresAt.Some? && r.claimedAt.Some?
  {
    WorkClaim(r.work, r.kind, r.leaseOwner.value, r.claimToken.value, r.claimedAt.value, r.leaseExpiresAt.value,
              r.attemptCount, r.revision, prior.Some?, prior)
  }

  /** A new execution grant; an expired record is reclaimed from its owner. */
  function Grant(s: Store, r: Record, request: ClaimRequest, token: string): StepResult
    requires request.policy.Valid()
  {
    var now := request.claimedAt;
    var after := r.(status := Running, availableAt := None, failure := None, leaseOwner := Some(request.workerId),
                    claimToken := Some(token), claimedAt := Some(now), updatedAt := now,
                    leaseExpiresAt := Some(now + request.policy.ForKind(r.kind).leaseDuration * SECOND),
                    attemptCount := r.attemptCount + 1, revision := r.revision + 1);
    var prior := if r.status.Running? then r.leaseOwner else None;
    var priors := if prior.Some? then s.priors[r.work.id := prior.value] else s.priors - {r.work.id};
    Put(s.(priors := priors), after, Claimed(ClaimOf(after, prior)))
  }

  /** What happens to the selected record: expired work without attempts left becomes a dead letter. */
  function ClaimRecord(s: Store, r: Record, request: ClaimRequest, token: string): StepResult
    requires request.policy.Valid()
  {
    if r.status.Running? && r.attemptCount >= request.policy.ForKind(r.kind).maximumAttempts then
      Bury(s, r, request.claimedAt, EXHAUSTED, true)
    else if r.claimToken == Some(token) then Err(InvariantBroken)
    else Grant(s, r, request, token)
  }

  // ---- owner-conditional operations ----

  function Authorize(s: Store, a: Authority, at: int): Result<Record, LifecycleError> {
    if a.workItemId !in s.records then Err(ClaimLost)
    else
      var r := s.records[a.workItemId];
      if !r.status.Running? then Err(InvalidTransition)
      else if r.leaseOwner != Some(a.workerId) || r.claimToken != Some(a.claimToken)
              || r.revision != a.expectedRevision || Expired(r, at)
      then Err(ClaimLost)
      else Ok(r)
  }

  function PriorOf(s: Store, id: Id): Option<string> {
    if id in s.priors then Some(s.priors[id]) else None
  }

  function Renew(policy: LifecyclePolicy, s: Store, a: Authority, at: int, leaseDuration: int): StepResult
    requires policy.Valid()
  {
    var r :- Authorize(s, a, at);
    var proposed := at + leaseDuration * SECOND;
    if leaseDuration != policy.ForKind(r.kind).leaseDuration then Err(PolicyDisagreement)
    else if r.leaseExpiresAt.None? || proposed <= r.leaseExpiresAt.value then Err(PolicyDisagreement)
    else
      var after := r.(leaseExpiresAt := Some(proposed), revision := r.revision + 1, updatedAt := at);
      if r.claimedAt.None? then Err(InvariantBroken) else Put(s, after, Claimed(ClaimOf(after, PriorOf(s, r.work.id))))
  }

  function CompleteWork(s: Store, a: Authority, at: int): StepResult {
    var r :- Authorize(s, a, at);
    Put(s, WithoutLease(r, at).(status := Completed, completedAt := Some(at), failure := None),
        Transitioned(TransitionResult(
          r.work.id, r.kind, Running, Completed, at, r.attemptCount, r.revision + 1, None, None, None, false)))
  }

  function Reschedule(s: Store, r: Record, at: int, error: WorkError, availableAt: Option<int>): StepResult {
    Put(s, WithoutLease(r, at).(status := Retrying, availableAt := availableAt, failure := Some(error)),
        Transitioned(TransitionResult(
          r.work.id, r.kind, Running, Retrying, at, r.attemptCount, r.revision + 1, availableAt, None, Some(error), false)))
  }

  function RetryWork(policy: LifecyclePolicy, s: Store, a: Authority, at: int, decision: RetryDecision, error: WorkError)
    : StepResult
    requires policy.Valid()
  {
    var r :- Authorize(s, a, at);
    if decision.policyVersion != policy.version
       || decision.maximumAttempts != policy.ForKind(r.kind).maximumAttempts
       || decision.attemptCount != r.attemptCount
    then Err(PolicyDisagreement)
    else if decision.exhausted then Bury(s, r, at, error, true)
    else Reschedule(s, r, at, error, decision.availableAt)
  }

  function FailWork(s: Store, a: Authority, at: int, error: WorkError): StepResult {
    var r :- Authorize(s, a, at);
    Bury(s, r, at, error, false)
  }

  // ---- one call ----

  ghost function Step(policy: LifecyclePolicy, s: Store, call: Call): StepResult
    requires policy.Valid()
  {
    match call
    case ClaimNext(request, token) =>
      if request.policy != policy then Err(PolicyDisagreement)
      else if !ValidToken(token) then Err(InvariantBroken)
      else
        (match Next(s.records, request)
         case None => Ok((s, NothingDue))
         case Some(id) => if id in s.records then ClaimRecord(s, s.records[id], request, token) else Err(InvariantBroken))
    case RenewLease(a, at, leaseDuration) => Renew(policy, s, a, at, leaseDuration)
    case Complete(a, at) => CompleteWork(s, a, at)
    case FailRetryable(a, at, decision, error) => RetryWork(policy, s, a, at, decision, error)
    case FailTerminal(a, at, error) => FailWork(s, a, at, error)
  }

  // ---- the claim order selects one record ----

  /** Records are stored under the ids of their work. */
  ghost predicate Keyed(records: map<Id, Record>) {
    forall id :: id in records ==> records[id].work.id == id
  }

  lemma NoLaterTotal(a: Record, b: Record)
    ensures NoLater(a, b) || NoLater(b, a)
  {
    AtMostTotal(a.work.id, b.work.id);
  }

  lemma NoLaterTransitive(a: Record, b: Record, c: Record)
    requires NoLater(a, b) && NoLater(b, c)
    ensures NoLater(a, c)
  {
    if AtMost(a.work.id, b.work.id) && AtMost(b.work.id, c.work.id) {
      AtMostTransitive(a.work.id, b.work.id, c.work.id);
    }
  }

  lemma NextUnique(records: map<Id, Record>, request: ClaimRequest, a: Id, b: Id)
    requires Keyed(records) && IsNext(records, request, a) && IsNext(records, request, b)
    ensures a == b
  {
    AtMostAntisymmetricIds(records[a], records[b]);
  }

  lemma AtMostAntisymmetricIds(a: Record, b: Record)
    requires NoLater(a, b) && NoLater(b, a)
    ensures a.work.id == b.work.id
  {
    AtMostAntisymmetric(a.work.id, b.work.id);
  }

  /** Among the records with ids in a set, the first one that is eligible. */
  lemma {:induction false} FirstAmong(records: map<Id, Record>, request: ClaimRequest, ids: set<Id>)
    returns (first: Option<Id>)
    requires ids <= records.Keys
    ensures first.None? ==> forall id :: id in ids ==> !Eligible(records[id], request)
    ensures first.Some? ==>
              && first.value in ids && Eligible(records[first.value], request)
              && forall id :: id in ids && Eligible(records[id], request) ==> NoLater(records[first.value], records[id])
    decreases |ids|
  {
    if ids == {} {
      first := None;
    } else {
      var x :| x in ids;
      first := FirstAmong(records, request, ids - {x});
      if Eligible(records[x], request) {
        if first.None? {
          first := Some(x);
          NoLaterTotal(records[x], records[x]);
        } else {
          var best := first.value;
          NoLaterTotal(records[x], records[best]);
          NoLaterTotal(records[x], records[x]);
          if !NoLater(records[best], records[x]) {
            forall id | id in ids - {x} && Eligible(records[id], request)
              ensures NoLater(records[x], records[id])
            {
              NoLaterTransitive(records[x], records[best], records[id]);
            }
            first := Some(x);
          }
        }
      }
    }
  }

  /** A claim finds work exactly when some record is eligible, and then the one that is first. */
  lemma NextIff(records: map<Id, Record>, request: ClaimRequest)
    ensures Next(records, request).Some? <==> exists id :: id in records && Eligible(records[id], request)
    ensures Next(records, request).Some? ==> IsNext(records, request, Next(records, request).value)
  {
    var first := FirstAmong(records, request, records.Keys);
    if first.Some? {
      assert IsNext(records, request, first.value);
    }
  }

  // ---- the claim order on the fields of the records ----

  /** Of an allowed kind, and either waiting and due or held under a lease that has run out. */
  predicate Claimable(r: Record, request: ClaimRequest) {
    && r.kind in request.allowedKinds
    && match r.status
       case Pending => Reached(r.availableAt, request.claimedAt)
       case Retrying => Reached(r.availableAt, request.claimedAt)
       case Running => Reached(r.leaseExpiresAt, request.claimedAt)
       case _ => false
  }

  predicate Reached(time: Option<int>, now: int) {
    time.Some? && time.value <= now
  }

  /**
   * Held work comes before waiting work. Of two of a sort, the smaller priority comes first, then
   * the lease that ended or the availability that came earlier, then the earlier creation, and
   * last the id.
   */
  predicate ServedBefore(a: Record, b: Record) {
    var (x, y) := if a.status.Running? then (a.leaseExpiresAt, b.leaseExpiresAt) else (a.availableAt, b.availableAt);
    || (a.status.Running? && !b.status.Running?)
    || (&& a.status.Running? == b.status.Running?
        && (|| a.priority < b.priority
            || (a.priority == b.priority && x.Some? && y.Some? && x.value < y.value)
            || (a.priority == b.priority && x == y && a.work.createdAt < b.work.createdAt)
            || (a.priority == b.priority && x == y && a.work.createdAt == b.work.createdAt
                && AtMost(a.work.id, b.work.id))))
  }

  ghost predicate ServedFirst(records: map<Id, Record>, request: ClaimRequest, id: Id) {
    && id in records && Claimable(records[id], request)
    && forall other :: other in records && Claimable(records[other], request) ==>
         ServedBefore(records[id], records[other])
  }

  lemma EligibleIff(r: Record, request: ClaimRequest)
    ensures Eligible(r, request) <==> Claimable(r, request)
  {
  }

  lemma OrderIff(a: Record, b: Record, request: ClaimRequest)
    requires Claimable(a, request) && Claimable(b, request)
    ensures NoLater(a, b) <==> ServedBefore(a, b)
  {
  }

  /** The claim order is the one on the fields. */
  lemma NextServesFirst(records: map<Id, Record>, request: ClaimRequest, id: Id)
    ensures IsNext(records, request, id) <==> ServedFirst(records, request, id)
  {
    hide Eligible, Claimable, NoLater, ServedBefore;
    forall other | other in records
      ensures Eligible(records[other], request) <==> Claimable(records[other], request)
      ensures id in records && Claimable(records[id], request) && Claimable(records[other], request) ==>
                (NoLater(records[id], records[other]) <==> ServedBefore(records[id], records[other]))
    {
      EligibleIff(records[other], request);
      if id in records && Claimable(records[id], request) && Claimable(records[other], request) {
        OrderIff(records[id], records[other], request);
      }
    }
  }

  /** Some claimable record is served first, and no other is, unless none is claimable. */
  lemma ServedFirstIff(records: map<Id, Record>, request: ClaimRequest)
    requires Keyed(records)
    ensures (exists id :: ServedFirst(records, request, id))
       <==> exists id :: id in records && Claimable(records[id], request)
    ensures forall id :: ServedFirst(records, request, id) <==> Next(records, request) == Some(id)
  {
    hide Eligible, Claimable, NoLater, ServedBefore, ServedFirst, IsNext, Next;
    NextIff(records, request);
    forall id
      ensures id in records ==> (Eligible(records[id], request) <==> Claimable(records[id], request))
      ensures IsNext(records, request, id) <==> ServedFirst(records, request, id)
      ensures ServedFirst(records, request, id) <==> Next(records, request) == Some(id)
    {
      if id in records {
        EligibleIff(records[id], request);
      }
      NextServesFirst(records, request, id);
      NextIsSome(records, request, id);
    }
    ServedIsClaimable(records, request);
  }

  lemma ServedIsClaimable(records: map<Id, Record>, request: ClaimRequest)
    ensures forall id :: ServedFirst(records, request, id) ==> id in records && Claimable(records[id], request)
  {
  }

  lemma NoneClaimable(records: map<Id, Record>, request: ClaimRequest)
    requires Keyed(records) && forall id :: id in records ==> !Claimable(records[id], request)
    ensures Next(records, request).None?
  {
    hide Claimable, ServedFirst, Next, Keyed;
    ServedFirstIff(records, request);
    ServedIsClaimable(records, request);
    assert forall id :: Next(records, request) != Some(id);
  }

  lemma NextIsSome(records: map<Id, Record>, request: ClaimRequest, id: Id)
    requires Keyed(records)
    ensures IsNext(records, request, id) <==> Next(records, request) == Some(id)
  {
    NextIff(records, request);
    if IsNext(records, request, id) {
      assert Eligible(records[id], request);
      NextUnique(records, request, id, Next(records, request).value);
    }
  }
}

/** An adapter for the lifecycle port over a map of records that it updates in place. */
module LifecycleAdapters {
  import opened Wrappers
  import opened IngestionModels
  import opened WorkPolicy
  import opened RetryTiming
  import opened Lifecycle

  class LifecycleAdapter {
    var records: map<Id, Record>
    var priors: map<Id, string>
    const policy: LifecyclePolicy

    constructor (policy: LifecyclePolicy, seeds: map<Id, Record>)
      requires policy.Valid()
      ensures State() == Store(seeds, map[]) && this.policy == policy
    {
      this.policy := policy;
      records, priors := seeds, map[];
    }

    function State(): Store
      reads this
    {
      Store(records, priors)
    }

    /** The eligible record that the claim order puts first. */
    method Select(request: ClaimRequest) returns (next: Option<Id>)
      ensures next.Some? ==> ServedFirst(records, request, next.value)
      ensures next.None? ==> forall id :: id in records ==> !Claimable(records[id], request)
    {
      next := None;
      var left := records.Keys;
      while left != {}
        invariant left <= records.Keys
        invariant next.None? ==> forall id :: id in records.Keys - left ==> !Eligible(records[id], request)
        invariant next.Some? ==>
                    && next.value in records && Eligible(records[next.value], request)
                    && forall id :: id in records.Keys - left && Eligible(records[id], request) ==>
                         NoLater(records[next.value], records[id])
        decreases |left|
      {
        var id :| id in left;
        left := left - {id};
        if Eligible(records[id], request) {
          NoLaterTotal(records[id], records[id]);
          if next.None? {
            next := Some(id);
          } else if !NoLater(records[next.value], records[id]) {
            NoLaterTotal(records[next.value], records[id]);
            forall other | other in records.Keys - left - {id} && Eligible(records[other], request)
              ensures NoLater(records[id], records[other])
            {
              NoLaterTransitive(records[id], records[next.value], records[other]);
            }
            next := Some(id);
          }
        }
      }
      if next.Some? {
        assert IsNext(records, request, next.value);
        NextServesFirst(records, request, next.value);
      } else {
        forall id | id in records
          ensures !Claimable(records[id], request)
        {
          EligibleIff(records[id], request);
        }
      }
    }

    /** Store the successor of a record, if the record invariant accepts it. */
    method Save(after: Record) returns (saved: bool)
      modifies this`records
      ensures saved == ValidRecord(after)
      ensures records == if saved then old(records)[after.work.id := after] else old(records)
    {
      saved := ValidRecord(after);
      if saved {
        records := records[after.work.id := after];
      }
    }

    method ClaimNext(request: ClaimRequest, token: string) returns (o: Result<Outcome, LifecycleError>)
      requires policy.Valid() && Keyed(records)
      modifies this
      ensures o.Ok? ==> Step(policy, old(State()), Call.ClaimNext(request, token)) == Ok((State(), o.value))
      ensures o.Err? ==> Step(policy, old(State()), Call.ClaimNext(request, token)) == Err(o.error)
      ensures o.Err? ==> State() == old(State())
      ensures o.Ok? ==>
                match o.value
                case NothingDue => forall id :: id in old(records) ==> !Claimable(old(records)[id], request)
                case Claimed(claim) => ServedFirst(old(records), request, claim.work.id)
                case Transitioned(result) => ServedFirst(old(records), request, result.workItemId)
    {
      hide Claimable, ServedBefore, NoLater, ServedFirst, IsNext, Next, Eligible, ValidRecord, ValidToken;
      if request.policy != policy {
        return Err(PolicyDisagreement);
      }
      if !ValidToken(token) {
        return Err(InvariantBroken);
      }
      var next := Select(request);
      ServedFirstIff(records, request);
      if next.None? {
        NoneClaimable(records, request);
        return Ok(NothingDue);
      }
      ServedIsClaimable(records, request);
      var r := records[next.value];
      var kind := policy.ForKind(r.kind);
      if r.status.Running? && r.attemptCount >= kind.maximumAttempts {
        o := DeadLetterNow(r, request.claimedAt, EXHAUSTED, true);
      } else if r.claimToken == Some(token) {
        o := Err(InvariantBroken);
      } else {
        o := GrantClaim(r, request, token);
      }
    }

    method GrantClaim(r: Record, request: ClaimRequest, token: string) returns (o: Result<Outcome, LifecycleError>)
      requires policy.Valid() && request.policy == policy
      modifies this
      ensures o.Ok? ==> Grant(old(State()), r, request, token) == Ok((State(), o.value))
      ensures o.Err? ==> Grant(old(State()), r, request, token) == Err(o.error) && State() == old(State())
    {
      var now := request.claimedAt;
      var after := r.(status := Running, availableAt := None, failure := None, leaseOwner := Some(request.workerId),
                      claimToken := Some(token), claimedAt := Some(now), updatedAt := now,
                      leaseExpiresAt := Some(now + policy.ForKind(r.kind).leaseDuration * SECOND),
                      attemptCount := r.attemptCount + 1, revision := r.revision + 1);
      var saved := Save(after);
      if !saved {
        return Err(InvariantBroken);
      }
      var prior: Option<string> := None;
      if r.status.Running? && r.leaseOwner.Some? {
        prior := r.leaseOwner;
        priors := priors[r.work.id := r.leaseOwner.value];
      } else {
        priors := priors - {r.work.id};
      }
      return Ok(Claimed(ClaimOf(after, prior)));
    }

    /** The record an authority may change now. */
    method Authorized(a: Authority, at: int) returns (r: Result<Record, LifecycleError>)
      ensures r == Authorize(State(), a, at)
    {
      if a.workItemId !in records {
        return Err(ClaimLost);
      }
      var record := records[a.workItemId];
      if record.status != Running {
        return Err(InvalidTransition);
      }
      if record.leaseOwner != Some(a.workerId) || record.claimToken != Some(a.claimToken)
         || record.revision != a.expectedRevision || Expired(record, at)
      {
        return Err(ClaimLost);
      }
      return Ok(record);
    }

    method RenewLease(a: Authority, at: int, leaseDuration: int) returns (o: Result<Outcome, LifecycleError>)
      requires policy.Valid()
      modifies this
      ensures o.Ok? ==> Step(policy, old(State()), Call.RenewLease(a, at, leaseDuration)) == Ok((State(), o.value))
      ensures o.Err? ==> Step(policy, old(State()), Call.RenewLease(a, at, leaseDuration)) == Err(o.error)
      ensures o.Err? ==> State() == old(State())
    {
      var r :- this.Authorized(a, at);
      var proposed := at + leaseDuration * SECOND;
      if leaseDuration != policy.ForKind(r.kind).leaseDuration
         || r.leaseExpiresAt.None? || proposed <= r.leaseExpiresAt.value
      {
        return Err(PolicyDisagreement);
      }
      if r.claimedAt.None? {
        return Err(InvariantBroken);
      }
      var after := r.(leaseExpiresAt := Some(proposed), revision := r.revision + 1, updatedAt := at);
      var saved := Save(after);
      if !saved {
        return Err(InvariantBroken);
      }
      return Ok(Claimed(ClaimOf(after, PriorOf(State(), r.work.id))));
    }

    method Complete(a: Authority, at: int) returns (o: Result<Outcome, LifecycleError>)
      requires policy.Valid()
      modifies this
      ensures o.Ok? ==> Step(policy, old(State()), Call.Complete(a, at)) == Ok((State(), o.value))
      ensures o.Err? ==> Step(policy, old(State()), Call.Complete(a, at)) == Err(o.error)
      ensures o.Err? ==> State() == old(State())
    {
      var r :- this.Authorized(a, at);
      var saved := Save(r.(status := Completed, leaseOwner := None, claimToken := None, leaseExpiresAt := None,
                           completedAt := Some(at), failure := None, revision := r.revision + 1, updatedAt := at));
      if !saved {
        return Err(InvariantBroken);
      }
      return Ok(Transitioned(TransitionResult(
        r.work.id, r.kind, Running, Completed, at, r.attemptCount, r.revision + 1, None, None, None, false)));
    }

    method FailRetryable(a: Authority, at: int, decision: RetryDecision, error: WorkError)
      returns (o: Result<Outcome, LifecycleError>)
      requires policy.Valid()
      modifies this
      ensures o.Ok? ==>
                Step(policy, old(State()), Call.FailRetryable(a, at, decision, error)) == Ok((State(), o.value))
      ensures o.Err? ==> Step(policy, old(State()), Call.FailRetryable(a, at, decision, error)) == Err(o.error)
      ensures o.Err? ==> State() == old(State())
    {
      var r :- this.Authorized(a, at);
      if decision.policyVersion != policy.version
         || decision.maximumAttempts != policy.ForKind(r.kind).maximumAttempts
         || decision.attemptCount != r.attemptCount
      {
        return Err(PolicyDisagreement);
      }
      if decision.exhausted {
        o := this.DeadLetterNow(r, at, error, true);
        return;
      }
      var saved := Save(r.(status := Retrying, leaseOwner := None, claimToken := None, leaseExpiresAt := None,
                           availableAt := decision.availableAt, failure := Some(error), revision := r.revision + 1,
                           updatedAt := at));
      if !saved {
        return Err(InvariantBroken);
      }
      return Ok(Transitioned(TransitionResult(
        r.work.id, r.kind, Running, Retrying, at, r.attemptCount, r.revision + 1, decision.availableAt, None,
        Some(error), false)));
    }

    method FailTerminal(a: Authority, at: int, error: WorkError) returns (o: Result<Outcome, LifecycleError>)
      requires policy.Valid()
      modifies this
      ensures o.Ok? ==> Step(policy, old(State()), Call.FailTerminal(a, at, error)) == Ok((State(), o.value))
      ensures o.Err? ==> Step(policy, old(State()), Call.FailTerminal(a, at, error)) == Err(o.error)
      ensures o.Err? ==> State() == old(State())
    {
      var r :- this.Authorized(a, at);
      o := this.DeadLetterNow(r, at, error, false);
    }

    method DeadLetterNow(r: Record, at: int, error: WorkError, exhausted: bool)
      returns (o: Result<Outcome, LifecycleError>)
      modifies this
      ensures o.Ok? ==> Bury(old(State()), r, at, error, exhausted) == Ok((State(), o.value))
      ensures o.Err? ==> Bury(old(State()), r, at, error, exhausted) == Err(o.error) && State() == old(State())
    {
      var saved := Save(r.(status := DeadLetter, leaseOwner := None, claimToken := None, leaseExpiresAt := None,
                           deadLetteredAt := Some(at), failure := Some(error), revision := r.revision + 1,
                           updatedAt := at));
      if !saved {
        return Err(InvariantBroken);
      }
      return Ok(Transitioned(TransitionResult(
        r.work.id, r.kind, Running, DeadLetter, at, r.attemptCount, r.revision + 1, None, None, Some(error), exhausted)));
    }
  }
}
