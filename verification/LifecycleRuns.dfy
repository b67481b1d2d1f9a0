/** What single steps and whole runs of the lifecycle port keep. */
module LifecycleRuns {
  import opened Wrappers
  import opened IngestionModels
  import opened WorkPolicy
  import opened RetryTiming
  import opened Lifecycle
  import opened ErrorText
  import opened Text

  // ---- one step ----

  function Subject(outcome: Outcome): Option<Id> {
    match outcome
    case NothingDue => None
    case Claimed(claim) => Some(claim.work.id)
    case Transitioned(result) => Some(result.workItemId)
  }

  /** The record after the step is the successor of the one before. */
  ghost predicate Succeeded(a: Record, b: Record, isClaim: bool, outcome: Outcome) {
    && ValidRecord(b) && !Terminal(a)
    && b.work == a.work && b.kind == a.kind && b.priority == a.priority
    && b.revision == a.revision + 1
    && b.attemptCount == a.attemptCount + (if isClaim && outcome.Claimed? then 1 else 0)
    && b.status == (match outcome case Transitioned(result) => result.toStatus case _ => Running)
    && match outcome
       case Claimed(claim) =>
         b.leaseOwner == Some(claim.workerId) && b.claimToken == Some(claim.claimToken)
         && b.leaseExpiresAt == Some(claim.leaseExpiresAt) && b.revision == claim.revision
       case _ => !b.status.Running?
  }

  /** The authority that a call other than a claim acts under. */
  function ActsUnder(call: Call): Option<Authority> {
    if call.ClaimNext? then None else Some(call.authority)
  }

  /** Only an expired lease is claimed over; anything else acts under the current, unexpired one. */
  ghost predicate LeaseRule(a: Record, b: Record, call: Call) {
    match call
    case ClaimNext(request, token) =>
      && a.kind in request.allowedKinds
      && (if a.status.Running? then Reached(a.leaseExpiresAt, call.Time())
          else Reached(a.availableAt, call.Time()) && b.status.Running?)
      && (b.status.Running? ==>
            b.claimToken == Some(token) && b.leaseOwner == Some(request.workerId) && a.claimToken != b.claimToken)
    case _ =>
      var authority := ActsUnder(call).value;
      && a.status.Running? && !Expired(a, call.Time())
      && a.leaseOwner == Some(authority.workerId) && a.claimToken == Some(authority.claimToken)
      && a.revision == authority.expectedRevision && a.work.id == authority.workItemId
      && (b.status.Running? <==> call.RenewLease?)
      && (b.status.Running? ==> b.claimToken == a.claimToken && b.leaseOwner == a.leaseOwner)
  }

  /** What the operation leaves on the record: the lease it grants or extends, or the end it records. */
  ghost predicate Terms(a: Record, b: Record, call: Call) {
    match call
    case ClaimNext(request, token) =>
      b.status.Running? ==>
        && b.claimedAt == Some(call.Time()) && request.policy.Valid()
        && b.leaseExpiresAt == Some(call.Time() + request.policy.ForKind(a.kind).leaseDuration * SECOND)
    case RenewLease(authority, at, leaseDuration) =>
      && b.claimedAt == a.claimedAt && a.leaseExpiresAt.Some?
      && b.leaseExpiresAt == Some(at + leaseDuration * SECOND) && a.leaseExpiresAt.value < at + leaseDuration * SECOND
    case Complete(authority, at) => b.status.Completed?
    case FailRetryable(authority, at, decision, error) =>
      b.failure == Some(error)
      && if decision.exhausted then b.status.DeadLetter?
         else b.status.Retrying? && b.availableAt == decision.availableAt
    case FailTerminal(authority, at, error) => b.status.DeadLetter? && b.failure == Some(error)
  }

  /** What a successful step did: nothing, or one record's success. */
  ghost predicate Shape(s: Store, call: Call, t: Store, outcome: Outcome) {
    match Subject(outcome)
    case None => call.ClaimNext? && t == s
    case Some(id) =>
      && id in s.records && id in t.records && t.records == s.records[id := t.records[id]]
      && (forall other :: other != id ==> PriorOf(t, other) == PriorOf(s, other))
      && PriorOf(t, id) == (if !call.ClaimNext? || !outcome.Claimed? then PriorOf(s, id)
                            else if s.records[id].status.Running? then s.records[id].leaseOwner else None)
      && Succeeded(s.records[id], t.records[id], call.ClaimNext?, outcome)
      && LeaseRule(s.records[id], t.records[id], call)
      && Terms(s.records[id], t.records[id], call)
      && t.records[id].updatedAt == call.Time()
  }

  /**
   * A step that succeeds either finds nothing due and changes nothing, or changes exactly one
   * record that was not terminal: one revision up, and one attempt up only for a claim.
   */
  lemma StepShape(policy: LifecyclePolicy, s: Store, call: Call)
    requires policy.Valid() && Keyed(s.records) && Step(policy, s, call).Ok?
    ensures Shape(s, call, Step(policy, s, call).value.0, Step(policy, s, call).value.1)
  {
    hide ValidRecord, Next;
    match call
    case ClaimNext(request, token) => ClaimShape(policy, s, request, token);
    case RenewLease(_, _, _) => RenewShape(policy, s, call);
    case FailRetryable(_, _, _, _) => RetryShape(policy, s, call);
    case _ =>
  }

  lemma RenewShape(policy: LifecyclePolicy, s: Store, call: Call)
    requires policy.Valid() && Keyed(s.records) && call.RenewLease? && Step(policy, s, call).Ok?
    ensures Shape(s, call, Step(policy, s, call).value.0, Step(policy, s, call).value.1)
  {
    hide ValidRecord, Next;
  }

  lemma RetryShape(policy: LifecyclePolicy, s: Store, call: Call)
    requires policy.Valid() && Keyed(s.records) && call.FailRetryable? && Step(policy, s, call).Ok?
    ensures Shape(s, call, Step(policy, s, call).value.0, Step(policy, s, call).value.1)
  {
    hide ValidRecord, Next;
  }

  lemma ClaimShape(policy: LifecyclePolicy, s: Store, request: ClaimRequest, token: string)
    requires policy.Valid() && Keyed(s.records) && Step(policy, s, ClaimNext(request, token)).Ok?
    ensures var (t, outcome) := Step(policy, s, ClaimNext(request, token)).value;
            Shape(s, ClaimNext(request, token), t, outcome)
  {
    hide ValidRecord, Next, ValidToken, Grant, Bury, Shape;
    if Next(s.records, request).Some? {
      NextStatus(s, request);
      var id := Next(s.records, request).value;
      var r := s.records[id];
      if r.status.Running? && r.attemptCount >= request.policy.ForKind(r.kind).maximumAttempts {
        ExhaustedShape(s, id, request, token);
      } else {
        GrantShape(s, id, request, token);
      }
    } else {
      NothingShape(s, request, token);
    }
  }

  lemma NothingShape(s: Store, request: ClaimRequest, token: string)
    ensures Shape(s, ClaimNext(request, token), s, NothingDue)
  {
  }

  lemma ExhaustedShape(s: Store, id: Id, request: ClaimRequest, token: string)
    requires Keyed(s.records) && id in s.records && Claimable(s.records[id], request) && s.records[id].status.Running?
    requires Bury(s, s.records[id], request.claimedAt, EXHAUSTED, true).Ok?
    ensures var (t, outcome) := Bury(s, s.records[id], request.claimedAt, EXHAUSTED, true).value;
            Shape(s, ClaimNext(request, token), t, outcome)
  {
    hide ValidRecord;
  }

  lemma GrantShape(s: Store, id: Id, request: ClaimRequest, token: string)
    requires request.policy.Valid() && Keyed(s.records) && id in s.records && Claimable(s.records[id], request)
    requires s.records[id].claimToken != Some(token) && Grant(s, s.records[id], request, token).Ok?
    ensures var (t, outcome) := Grant(s, s.records[id], request, token).value;
            Shape(s, ClaimNext(request, token), t, outcome)
  {
    hide ValidRecord;
  }

  lemma NextStatus(s: Store, request: ClaimRequest)
    requires Next(s.records, request).Some?
    ensures var id := Next(s.records, request).value;
      && id in s.records && !Terminal(s.records[id]) && Claimable(s.records[id], request)
      && (s.records[id].status.Running? ==> Expired(s.records[id], request.claimedAt))
  {
    NextIff(s.records, request);
  }

  // ---- the invariant of a run ----

  /** A record that calls at or after `now` can work on, within its policy's attempts. */
  ghost predicate GoodRecord(policy: LifecyclePolicy, id: Id, r: Record, now: int)
    requires policy.Valid()
  {
    && id != "" && r.work.id == id && ValidRecord(r) && r.updatedAt <= now
    && var maximum := policy.ForKind(r.kind).maximumAttempts;
    && r.attemptCount <= maximum
    && (r.status.Pending? || r.status.Retrying? ==> r.attemptCount < maximum)
    && r.revision >= r.attemptCount + (if r.status.Retrying? || Terminal(r) then 1 else 0)
  }

  ghost predicate Good(policy: LifecyclePolicy, s: Store, now: int)
    requires policy.Valid()
  {
    && (forall id :: id in s.records ==> GoodRecord(policy, id, s.records[id], now))
    && (forall id :: id in s.priors ==> ValidWorkerId(s.priors[id]))
  }

  /** The result passes its own constructor and tells the stored record. */
  ghost predicate Committed(t: Store, outcome: Outcome) {
    match outcome
    case NothingDue => true
    case Claimed(claim) =>
      && claim.Valid() && claim.work.id in t.records
      && var r := t.records[claim.work.id];
      && r.status.Running? && r.leaseOwner == Some(claim.workerId) && r.claimToken == Some(claim.claimToken)
      && r.leaseExpiresAt == Some(claim.leaseExpiresAt) && r.claimedAt == Some(claim.claimedAt)
      && r.revision == claim.revision && r.attemptCount == claim.attemptCount && r.work == claim.work
      && claim.priorWorkerId == PriorOf(t, claim.work.id)
    case Transitioned(result) =>
      && result.Valid() && result.workItemId in t.records
      && var r := t.records[result.workItemId];
      && r.status == result.toStatus && r.failure == result.error && r.availableAt == result.availableAt
      && r.revision == result.revision && r.attemptCount == result.attemptCount && r.updatedAt == result.occurredAt
  }

  /** The claim drew a malformed token, or the one that the selected record already holds. */
  ghost predicate BadToken(s: Store, call: Call) {
    call.ClaimNext?
    && (!ValidToken(call.token)
        || exists id :: id in s.records && s.records[id].claimToken == Some(call.token))
  }

  ghost predicate StepGood(policy: LifecyclePolicy, s: Store, call: Call)
    requires policy.Valid()
  {
    match Step(policy, s, call)
    case Ok((t, outcome)) => Good(policy, t, call.Time()) && Committed(t, outcome)
    case Err(e) => e.InvariantBroken? ==> BadToken(s, call)
  }

  lemma ExhaustedValid()
    ensures EXHAUSTED.Valid()
  {
    hide Sanitize, Collapse, IsSpace;
    var m := EXHAUSTED.message;
    assert |m| == 18;
    forall i | 0 <= i < |m|
      ensures Printable(m[i]) && !IsSpace(m[i]) && m[i] != ' '
    {
      assert 'a' <= m[i] <= 'z' || m[i] == '_';
      LetterNotSpace(m[i]);
    }
    SanitizeSpaced(m);
  }

  lemma LetterNotSpace(c: char)
    requires 'a' <= c <= 'z' || c == '_'
    ensures !IsSpace(c)
  {
  }

  lemma PutGood(policy: LifecyclePolicy, s: Store, r: Record, now: int, at: int)
    requires policy.Valid() && Good(policy, s, now) && now <= at && GoodRecord(policy, r.work.id, r, at)
    ensures Good(policy, s.(records := s.records[r.work.id := r]), at)
  {
    hide ValidRecord, ValidWorkerId;
    LaterGood(policy, s, now, at);
  }

  lemma GrantedRecord(policy: LifecyclePolicy, id: Id, r: Record, after: Record, worker: string, token: string, now: int)
    requires policy.Valid() && ValidWorkerId(worker) && ValidToken(token)
    requires GoodRecord(policy, id, r, now) && !Terminal(r)
    requires r.status.Running? ==> r.attemptCount < policy.ForKind(r.kind).maximumAttempts
    requires after == r.(status := Running, availableAt := None, failure := None, leaseOwner := Some(worker),
                         claimToken := Some(token), claimedAt := Some(now), updatedAt := now,
                         leaseExpiresAt := Some(now + policy.ForKind(r.kind).leaseDuration * SECOND),
                         attemptCount := r.attemptCount + 1, revision := r.revision + 1)
    ensures GoodRecord(policy, id, after, now)
  {
    hide ValidWorkerId, ValidToken;
  }

  lemma GrantGood(policy: LifecyclePolicy, s: Store, id: Id, request: ClaimRequest, token: string, now: int)
    requires policy.Valid() && request.policy == policy && ValidWorkerId(request.workerId) && ValidToken(token)
    requires Good(policy, s, now) && now <= request.claimedAt && id in s.records && !Terminal(s.records[id])
    requires s.records[id].status.Running? ==> s.records[id].attemptCount < policy.ForKind(s.records[id].kind).maximumAttempts
    ensures Grant(s, s.records[id], request, token).Ok?
    ensures var (t, outcome) := Grant(s, s.records[id], request, token).value;
            Good(policy, t, request.claimedAt) && Committed(t, outcome)
  {
    hide GoodRecord, ValidWorkerId, ValidToken, ClaimOf, ValidRecord;
    var r := s.records[id];
    var at := request.claimedAt;
    LaterGood(policy, s, now, at);
    GoodIsValid(policy, id, r, at);
    var after := r.(status := Running, availableAt := None, failure := None, leaseOwner := Some(request.workerId),
                    claimToken := Some(token), claimedAt := Some(at), updatedAt := at,
                    leaseExpiresAt := Some(at + policy.ForKind(r.kind).leaseDuration * SECOND),
                    attemptCount := r.attemptCount + 1, revision := r.revision + 1);
    GrantedRecord(policy, id, r, after, request.workerId, token, at);
    GoodIsValid(policy, id, after, at);
    var prior := if r.status.Running? then r.leaseOwner else None;
    var priors := if prior.Some? then s.priors[r.work.id := prior.value] else s.priors - {r.work.id};
    var mid := s.(priors := priors);
    PutGood(policy, mid, after, at, at);
    ClaimCommitted(policy, mid.(records := s.records[id := after]), id, at, prior);
  }

  lemma GoodIsValid(policy: LifecyclePolicy, id: Id, r: Record, now: int)
    requires policy.Valid() && GoodRecord(policy, id, r, now)
    ensures ValidRecord(r) && r.work.id == id && id != ""
    ensures r.leaseOwner.Some? ==> ValidWorkerId(r.leaseOwner.value)
  {
    hide ValidWorkerId, ValidToken;
  }

  lemma ClaimCommitted(policy: LifecyclePolicy, t: Store, id: Id, now: int, prior: Option<string>)
    requires policy.Valid() && id in t.records && t.records[id].status.Running?
    requires GoodRecord(policy, id, t.records[id], now)
    requires prior == PriorOf(t, id) && (prior.Some? ==> ValidWorkerId(prior.value))
    ensures var r := t.records[id]; r.leaseOwner.Some? && r.claimToken.Some? && r.leaseExpiresAt.Some? && r.claimedAt.Some?
    ensures Committed(t, Claimed(ClaimOf(t.records[id], prior)))
  {
    hide ValidWorkerId, ValidToken;
  }

  lemma RenewedRecord(policy: LifecyclePolicy, id: Id, r: Record, at: int, expiry: int)
    requires policy.Valid() && GoodRecord(policy, id, r, at) && r.status.Running? && expiry > at
    ensures GoodRecord(policy, id, r.(leaseExpiresAt := Some(expiry), revision := r.revision + 1, updatedAt := at), at)
    ensures r.claimedAt.Some? && r.leaseExpiresAt.Some? && r.leaseOwner.Some? && r.claimToken.Some?
  {
    hide ValidWorkerId, ValidToken;
  }

  lemma RetriedRecord(policy: LifecyclePolicy, id: Id, r: Record, at: int, error: WorkError, availableAt: int)
    requires policy.Valid() && GoodRecord(policy, id, r, at) && r.status.Running? && availableAt > at
    requires error.Valid() && error.retryable && r.attemptCount < policy.ForKind(r.kind).maximumAttempts
    ensures GoodRecord(policy, id, WithoutLease(r, at)
                         .(status := Retrying, availableAt := Some(availableAt), failure := Some(error)), at)
  {
    hide ValidWorkerId, ValidToken;
  }

  lemma BuriedRecord(policy: LifecyclePolicy, id: Id, r: Record, at: int, error: WorkError)
    requires policy.Valid() && GoodRecord(policy, id, r, at) && r.status.Running? && error.Valid()
    ensures GoodRecord(policy, id,
      WithoutLease(r, at).(status := DeadLetter, deadLetteredAt := Some(at), failure := Some(error)), at)
  {
    hide ValidWorkerId, ValidToken;
  }

  lemma BuryGood(policy: LifecyclePolicy, s: Store, id: Id, at: int, error: WorkError, exhausted: bool, now: int)
    requires policy.Valid() && Good(policy, s, now) && now <= at && id in s.records && s.records[id].status.Running?
    requires error.Valid() && (exhausted ==> error.retryable || error.category.AttemptsExhausted?)
    requires !exhausted ==> !error.retryable
    ensures Bury(s, s.records[id], at, error, exhausted).Ok?
    ensures var (t, outcome) := Bury(s, s.records[id], at, error, exhausted).value;
            Good(policy, t, at) && Committed(t, outcome)
  {
    hide GoodRecord, ValidRecord, ValidWorkerId, ValidToken, WorkError.Valid;
    LaterGood(policy, s, now, at);
    var r := s.records[id];
    RunningCounts(policy, id, r, at);
    GoodIsValid(policy, id, r, at);
    BuriedRecord(policy, id, r, at, error);
    var after := WithoutLease(r, at).(status := DeadLetter, deadLetteredAt := Some(at), failure := Some(error));
    GoodIsValid(policy, id, after, at);
    PutGood(policy, s, after, at, at);
  }

  lemma CompletedRecord(policy: LifecyclePolicy, id: Id, r: Record, at: int)
    requires policy.Valid() && GoodRecord(policy, id, r, at) && r.status.Running?
    ensures GoodRecord(policy, id, WithoutLease(r, at).(status := Completed, completedAt := Some(at), failure := None), at)
  {
    hide ValidWorkerId, ValidToken;
  }

  lemma ClaimGood(policy: LifecyclePolicy, s: Store, request: ClaimRequest, token: string, now: int)
    requires policy.Valid() && ValidCall(ClaimNext(request, token)) && Good(policy, s, now) && now <= request.claimedAt
    ensures StepGood(policy, s, ClaimNext(request, token))
  {
    hide Grant, Bury, GoodRecord, ValidWorkerId, ValidToken, Next, Committed;
    if request.policy == policy && ValidToken(token) {
      if Next(s.records, request).None? {
        NothingCommitted(s);
        LaterGood(policy, s, now, request.claimedAt);
      } else {
        NextStatus(s, request);
        var id := Next(s.records, request).value;
        var r := s.records[id];
        if r.status.Running? && r.attemptCount >= policy.ForKind(r.kind).maximumAttempts {
          ExhaustedValid();
          BuryGood(policy, s, id, request.claimedAt, EXHAUSTED, true, now);
        } else if r.claimToken != Some(token) {
          GrantGood(policy, s, id, request, token, now);
        }
      }
    }
  }

  lemma NothingCommitted(s: Store)
    ensures Committed(s, NothingDue)
  {
  }

  lemma LaterGood(policy: LifecyclePolicy, s: Store, now: int, later: int)
    requires policy.Valid() && Good(policy, s, now) && now <= later
    ensures Good(policy, s, later)
  {
    forall id | id in s.records
      ensures GoodRecord(policy, id, s.records[id], later)
    {
      assert GoodRecord(policy, id, s.records[id], now);
    }
  }

  lemma RenewGood(policy: LifecyclePolicy, s: Store, a: Authority, at: int, leaseDuration: int, now: int)
    requires policy.Valid() && ValidCall(RenewLease(a, at, leaseDuration)) && Good(policy, s, now) && now <= at
    ensures StepGood(policy, s, RenewLease(a, at, leaseDuration))
  {
    hide GoodRecord, ValidWorkerId, ValidToken, ValidRecord, ClaimOf, Committed;
    if Authorize(s, a, at).Ok? {
      var id := a.workItemId;
      var r := s.records[id];
      var expiry := at + leaseDuration * SECOND;
      LaterGood(policy, s, now, at);
      RenewedRecord(policy, id, r, at, expiry);
      var after := r.(leaseExpiresAt := Some(expiry), revision := r.revision + 1, updatedAt := at);
      GoodIsValid(policy, id, r, at);
      GoodIsValid(policy, id, after, at);
      PutGood(policy, s, after, at, at);
      ClaimCommitted(policy, s.(records := s.records[id := after]), id, at, PriorOf(s, id));
    }
  }

  lemma CompleteGood(policy: LifecyclePolicy, s: Store, a: Authority, at: int, now: int)
    requires policy.Valid() && ValidCall(Complete(a, at)) && Good(policy, s, now) && now <= at
    ensures StepGood(policy, s, Complete(a, at))
  {
    hide GoodRecord, ValidRecord, ValidWorkerId, ValidToken;
    if Authorize(s, a, at).Ok? {
      var id := a.workItemId;
      var r := s.records[id];
      LaterGood(policy, s, now, at);
      RunningCounts(policy, id, r, at);
      GoodIsValid(policy, id, r, at);
      CompletedRecord(policy, id, r, at);
      var after := WithoutLease(r, at).(status := Completed, completedAt := Some(at), failure := None);
      GoodIsValid(policy, id, after, at);
      PutGood(policy, s, after, at, at);
    }
  }

  lemma RetryGood(policy: LifecyclePolicy, s: Store, a: Authority, at: int, decision: RetryDecision,
                  error: WorkError, now: int)
    requires policy.Valid() && ValidCall(FailRetryable(a, at, decision, error)) && Good(policy, s, now) && now <= at
    ensures StepGood(policy, s, FailRetryable(a, at, decision, error))
  {
    hide GoodRecord, ValidWorkerId, ValidToken, ValidRecord, Bury, Mentions, WorkError.Valid;
    if Authorize(s, a, at).Ok? {
      var id := a.workItemId;
      var r := s.records[id];
      if decision.exhausted {
        BuryGood(policy, s, id, at, error, true, now);
      } else if decision.maximumAttempts == policy.ForKind(r.kind).maximumAttempts
                && decision.attemptCount == r.attemptCount {
        LaterGood(policy, s, now, at);
        RetriedRecord(policy, id, r, at, error, decision.availableAt.value);
        var after := WithoutLease(r, at)
          .(status := Retrying, availableAt := decision.availableAt, failure := Some(error));
        GoodIsValid(policy, id, r, at);
        GoodIsValid(policy, id, after, at);
        RunningCounts(policy, id, r, at);
        PutGood(policy, s, after, at, at);
      }
    }
  }

  lemma RunningCounts(policy: LifecyclePolicy, id: Id, r: Record, now: int)
    requires policy.Valid() && GoodRecord(policy, id, r, now) && r.status.Running?
    ensures r.attemptCount >= 1 && r.revision >= 1 && r.availableAt.None?
  {
    hide ValidWorkerId, ValidToken;
  }

  lemma FailGood(policy: LifecyclePolicy, s: Store, a: Authority, at: int, error: WorkError, now: int)
    requires policy.Valid() && ValidCall(FailTerminal(a, at, error)) && Good(policy, s, now) && now <= at
    ensures StepGood(policy, s, FailTerminal(a, at, error))
  {
    hide GoodRecord, ValidWorkerId, ValidToken, Bury, Mentions;
    if Authorize(s, a, at).Ok? {
      BuryGood(policy, s, a.workItemId, at, error, false, now);
    }
  }

  /**
   * With a clock that does not run backwards, every step keeps every record valid and within
   * its attempts, returns a result that passes its constructor and tells what was stored, and
   * is never refused for breaking the record invariant, unless the token source misbehaves.
   */
  lemma StepKeeps(policy: LifecyclePolicy, s: Store, call: Call, now: int)
    requires policy.Valid() && ValidCall(call) && Good(policy, s, now) && now <= call.Time()
    ensures StepGood(policy, s, call)
  {
    hide StepGood, ValidCall, Good;
    match call
    case ClaimNext(request, token) => ClaimGood(policy, s, request, token, now);
    case RenewLease(a, at, leaseDuration) => RenewGood(policy, s, a, at, leaseDuration, now);
    case Complete(a, at) => CompleteGood(policy, s, a, at, now);
    case FailRetryable(a, at, decision, error) => RetryGood(policy, s, a, at, decision, error, now);
    case FailTerminal(a, at, error) => FailGood(policy, s, a, at, error, now);
  }

  // ---- refusals by the record invariant ----

  /** Every record is one that its constructor accepts, under its own id; nothing is said about the clock. */
  ghost predicate ValidStore(s: Store) {
    forall id :: id in s.records ==> ValidRecord(s.records[id]) && s.records[id].work.id == id
  }

  /** The claim drew a malformed token, or one that the record it would be granted for still holds. */
  ghost predicate UnusableToken(policy: LifecyclePolicy, s: Store, call: Call)
    requires policy.Valid()
  {
    && call.ClaimNext? && call.request.policy == policy
    && (|| !ValidToken(call.token)
        || (&& Next(s.records, call.request).Some? && Next(s.records, call.request).value in s.records
            && var r := s.records[Next(s.records, call.request).value];
               && r.claimToken == Some(call.token)
               && (r.status.Running? ==> r.attemptCount < policy.ForKind(r.kind).maximumAttempts)))
  }

  /** A renewal that the policy would allow, dated before the claim it extends. */
  predicate BackdatedRenewal(policy: LifecyclePolicy, s: Store, call: Call)
    requires policy.Valid()
  {
    && call.RenewLease? && Authorize(s, call.authority, call.at).Ok?
    && var r := Authorize(s, call.authority, call.at).value;
    && call.leaseDuration == policy.ForKind(r.kind).leaseDuration
    && r.leaseExpiresAt.Some? && r.leaseExpiresAt.value < call.at + call.leaseDuration * SECOND
    && r.claimedAt.Some? && call.at < r.claimedAt.value
  }

  /**
   * Whatever the times of the calls: from a store of valid records, an accepted command is
   * refused for breaking the record invariant exactly for an unusable token or a backdated
   * renewal.
   */
  lemma InvariantBrokenIff(policy: LifecyclePolicy, s: Store, call: Call)
    requires policy.Valid() && ValidCall(call) && ValidStore(s)
    ensures Step(policy, s, call) == Err(InvariantBroken)
       <==> UnusableToken(policy, s, call) || BackdatedRenewal(policy, s, call)
  {
    hide ValidWorkerId, ValidToken, Mentions, ValidRecord, WorkError.Valid, Next, RetryDecision.Valid;
    match call
    case ClaimNext(request, token) =>
      if request.policy == policy && ValidToken(token) && Next(s.records, request).Some? {
        NextStatus(s, request);
        var r := s.records[Next(s.records, request).value];
        ExhaustedValid();
        BuriedValid(r, request.claimedAt, EXHAUSTED);
        GrantedValid(r, request, token);
      }
    case RenewLease(a, at, leaseDuration) =>
      if Authorize(s, a, at).Ok? {
        RenewedValid(s.records[a.workItemId], at, at + leaseDuration * SECOND);
      }
    case Complete(a, at) =>
      if Authorize(s, a, at).Ok? {
        CompletedValid(s.records[a.workItemId], at);
      }
    case FailRetryable(a, at, decision, error) =>
      if Authorize(s, a, at).Ok? {
        var r := s.records[a.workItemId];
        BuriedValid(r, at, error);
        if !decision.exhausted {
          AvailableUnlessExhausted(decision);
          RetriedValid(r, at, error, decision.availableAt.value);
        }
      }
    case FailTerminal(a, at, error) =>
      if Authorize(s, a, at).Ok? {
        BuriedValid(s.records[a.workItemId], at, error);
      }
  }

  lemma AvailableUnlessExhausted(decision: RetryDecision)
    requires decision.Valid() && !decision.exhausted
    ensures decision.availableAt.Some?
  {
  }

  lemma BuriedValid(r: Record, at: int, error: WorkError)
    requires ValidRecord(r) && error.Valid()
    ensures r.status.Running? ==>
              ValidRecord(WithoutLease(r, at).(status := DeadLetter, deadLetteredAt := Some(at), failure := Some(error)))
  {
    hide ValidWorkerId, ValidToken, WorkError.Valid;
  }

  lemma CompletedValid(r: Record, at: int)
    requires ValidRecord(r) && r.status.Running?
    ensures ValidRecord(WithoutLease(r, at).(status := Completed, completedAt := Some(at), failure := None))
  {
    hide ValidWorkerId, ValidToken, WorkError.Valid;
  }

  lemma RetriedValid(r: Record, at: int, error: WorkError, availableAt: int)
    requires ValidRecord(r) && r.status.Running? && error.Valid() && error.retryable && availableAt > at
    ensures ValidRecord(WithoutLease(r, at)
                          .(status := Retrying, availableAt := Some(availableAt), failure := Some(error)))
  {
    hide ValidWorkerId, ValidToken, WorkError.Valid;
  }

  lemma GrantedValid(r: Record, request: ClaimRequest, token: string)
    requires ValidRecord(r) && !Terminal(r) && request.policy.Valid()
    requires ValidWorkerId(request.workerId) && ValidToken(token)
    ensures ValidRecord(r.(status := Running, availableAt := None, failure := None,
                           leaseOwner := Some(request.workerId), claimToken := Some(token),
                           claimedAt := Some(request.claimedAt), updatedAt := request.claimedAt,
                           leaseExpiresAt :=
                             Some(request.claimedAt + request.policy.ForKind(r.kind).leaseDuration * SECOND),
                           attemptCount := r.attemptCount + 1, revision := r.revision + 1))
  {
    hide ValidWorkerId, ValidToken, WorkError.Valid;
  }

  lemma RenewedValid(r: Record, at: int, expiry: int)
    requires ValidRecord(r) && r.status.Running? && expiry > at
    ensures r.leaseExpiresAt.Some? && r.claimedAt.Some?
    ensures ValidRecord(r.(leaseExpiresAt := Some(expiry), revision := r.revision + 1, updatedAt := at))
       <==> r.claimedAt.value <= at
  {
    hide ValidWorkerId, ValidToken, WorkError.Valid;
  }

  /** A lengthening renewal is refused exactly when it is dated before its claim. */
  lemma BackdatedRenewalRefused(policy: LifecyclePolicy, s: Store, a: Authority, at: int)
    requires policy.Valid() && ValidStore(s) && Authorize(s, a, at).Ok?
    requires var r := s.records[a.workItemId];
             at + policy.ForKind(r.kind).leaseDuration * SECOND > r.leaseExpiresAt.value
    ensures var r := s.records[a.workItemId];
            var step := Step(policy, s, RenewLease(a, at, policy.ForKind(r.kind).leaseDuration));
            step == Err(InvariantBroken) <==> at < r.claimedAt.value
  {
    hide ValidWorkerId, ValidToken, WorkError.Valid;
    var r := s.records[a.workItemId];
    RenewedValid(r, at, at + policy.ForKind(r.kind).leaseDuration * SECOND);
  }

  /** The retry command is valid, and the step reschedules the work, or buries it at its last attempt. */
  ghost predicate RetryAccepted(policy: LifecyclePolicy, s: Store, a: Authority, at: int, decision: RetryDecision,
                                error: WorkError)
    requires policy.Valid() && a.workItemId in s.records
  {
    var r := s.records[a.workItemId];
    var call := FailRetryable(a, at, decision, error);
    && ValidCall(call)
    && match Step(policy, s, call)
       case Err(_) => false
       case Ok((t, _)) =>
         && a.workItemId in t.records
         && t.records[a.workItemId].status
            == if r.attemptCount >= policy.ForKind(r.kind).maximumAttempts then DeadLetter else Retrying
  }

  /**
   * For a live claim the runtime finds a decision exactly when the work is at its last attempt or
   * neither its hint nor the time of the retry overflows. The decision is then always accepted:
   * the retry command is valid, and the step reschedules the work, or buries it at its last attempt.
   */
  lemma EvaluatedRetryAccepted(policy: LifecyclePolicy, s: Store, a: Authority, at: int, last: int, error: WorkError,
                               hint: Hint, digest: string -> Digest, now: int)
    requires policy.Valid() && Good(policy, s, now) && now <= at && ValidAuthority(a) && Authorize(s, a, at).Ok?
    requires error.Valid() && error.retryable && !Mentions(error.message, a.claimToken)
    ensures a.workItemId in s.records
    ensures var r := s.records[a.workItemId];
      && r.attemptCount >= 1
      && var evaluated := EvaluateRetry(policy, r.kind, a.workItemId, r.attemptCount, at, last, hint, digest);
         && (evaluated.Ok? <==> HasDecision(policy, r.kind, a.workItemId, r.attemptCount, at, last, hint, digest))
         && (evaluated.Ok? <== !hint.Overflows() && at + policy.maximumDelay * SECOND <= last)
         && (evaluated.Ok? ==>
               && IsDecision(policy, r.kind, r.attemptCount, at, last, hint, evaluated.value)
               && RetryAccepted(policy, s, a, at, evaluated.value, error))
  {
    hide GoodRecord, IsDecision, ValidRecord, ValidWorkerId, ValidToken, Mentions, WorkError.Valid, EvaluateRetry, HasDecision,
         Hint.Overflows;
    var r := s.records[a.workItemId];
    LaterGood(policy, s, now, at);
    RunningCounts(policy, a.workItemId, r, at);
    DecisionAccepted(policy, r.kind, a.workItemId, r.attemptCount, at, last, hint, digest);
    var evaluated := EvaluateRetry(policy, r.kind, a.workItemId, r.attemptCount, at, last, hint, digest);
    if evaluated.Ok? {
      DecisionIsTaken(policy, s, a, at, last, hint, evaluated.value, error, now);
    }
  }

  lemma DecisionIsTaken(policy: LifecyclePolicy, s: Store, a: Authority, at: int, last: int, hint: Hint,
                        decision: RetryDecision, error: WorkError, now: int)
    requires policy.Valid() && Good(policy, s, now) && now <= at && ValidAuthority(a) && Authorize(s, a, at).Ok?
    requires error.Valid() && error.retryable && !Mentions(error.message, a.claimToken)
    requires a.workItemId in s.records
    requires var r := s.records[a.workItemId];
             r.attemptCount >= 1 && IsDecision(policy, r.kind, r.attemptCount, at, last, hint, decision)
    ensures RetryAccepted(policy, s, a, at, decision, error)
  {
    hide GoodRecord, ValidRecord, ValidWorkerId, ValidToken, Mentions, WorkError.Valid, ValidVersion, IsWait;
    var r := s.records[a.workItemId];
    LaterGood(policy, s, now, at);
    RunningCounts(policy, a.workItemId, r, at);
    GoodIsValid(policy, a.workItemId, r, at);
    if decision.exhausted {
      BuryGood(policy, s, a.workItemId, at, error, true, now);
    } else {
      RetriedRecord(policy, a.workItemId, r, at, error, decision.availableAt.value);
      GoodIsValid(policy, a.workItemId, WithoutLease(r, at)
                    .(status := Retrying, availableAt := decision.availableAt, failure := Some(error)), at);
    }
  }

  // ---- runs ----

  /** The stored state after some calls; a refused call changes nothing. */
  ghost function Exec(policy: LifecyclePolicy, s: Store, calls: seq<Call>): Store
    requires policy.Valid()
  {
    if calls == [] then s
    else
      var before := Exec(policy, s, calls[..|calls| - 1]);
      match Step(policy, before, calls[|calls| - 1])
      case Ok((after, _)) => after
      case Err(_) => before
  }

  /** What call `i` returned. */
  ghost function At(policy: LifecyclePolicy, s: Store, calls: seq<Call>, i: nat): Result<Outcome, LifecycleError>
    requires policy.Valid() && i < |calls|
  {
    match Step(policy, Exec(policy, s, calls[..i]), calls[i])
    case Ok((_, outcome)) => Ok(outcome)
    case Err(e) => Err(e)
  }

  /** Call `i` changed the record of this work item. */
  ghost predicate Changed(policy: LifecyclePolicy, s: Store, calls: seq<Call>, i: nat, id: Id)
    requires policy.Valid() && i < |calls|
  {
    At(policy, s, calls, i).Ok? && Subject(At(policy, s, calls, i).value) == Some(id)
  }

  lemma ExecStep(policy: LifecyclePolicy, s: Store, calls: seq<Call>, i: nat)
    requires policy.Valid() && i < |calls|
    ensures Exec(policy, s, calls[..i + 1])
         == match Step(policy, Exec(policy, s, calls[..i]), calls[i])
            case Ok((after, _)) => after
            case Err(_) => Exec(policy, s, calls[..i])
  {
    hide Step;
    assert calls[..i + 1][..i] == calls[..i];
  }

  lemma {:induction false} ExecKeyed(policy: LifecyclePolicy, s: Store, calls: seq<Call>, i: nat)
    requires policy.Valid() && Keyed(s.records) && i <= |calls|
    ensures Keyed(Exec(policy, s, calls[..i]).records)
    ensures Exec(policy, s, calls[..i]).records.Keys == s.records.Keys
  {
    hide Step;
    if i > 0 {
      ExecKeyed(policy, s, calls, i - 1);
      ExecStep(policy, s, calls, i - 1);
      var before := Exec(policy, s, calls[..i - 1]);
      if Step(policy, before, calls[i - 1]).Ok? {
        StepShape(policy, before, calls[i - 1]);
      }
    }
  }

  /** The invariant over whole runs, and the results it implies. */
  lemma {:induction false} RunKeeps(policy: LifecyclePolicy, s: Store, calls: seq<Call>, start: int, i: nat)
    requires policy.Valid() && Good(policy, s, start) && i <= |calls|
    requires forall k :: 0 <= k < |calls| ==> ValidCall(calls[k]) && start <= calls[k].Time()
    requires forall j, k :: 0 <= j < k < |calls| ==> calls[j].Time() <= calls[k].Time()
    ensures Good(policy, Exec(policy, s, calls[..i]), if i == 0 then start else calls[i - 1].Time())
    ensures i > 0 ==> StepGood(policy, Exec(policy, s, calls[..i - 1]), calls[i - 1])
  {
    hide Good, StepGood, ValidCall;
    if i > 0 {
      RunKeeps(policy, s, calls, start, i - 1);
      ExecStep(policy, s, calls, i - 1);
      var before := Exec(policy, s, calls[..i - 1]);
      var now := if i == 1 then start else calls[i - 2].Time();
      assert now <= calls[i - 1].Time() by {
        if i >= 2 {
          assert calls[i - 2].Time() <= calls[i - 1].Time();
        }
      }
      StepKeeps(policy, before, calls[i - 1], now);
      StepGoodParts(policy, before, calls[i - 1]);
      LaterGood(policy, before, now, calls[i - 1].Time());
    }
  }

  lemma StepGoodParts(policy: LifecyclePolicy, s: Store, call: Call)
    requires policy.Valid() && StepGood(policy, s, call)
    ensures Step(policy, s, call).Ok? ==> Good(policy, Step(policy, s, call).value.0, call.Time())
  {
    hide Step;
  }

  // ---- refusals over a run ----

  /** The lease reaches at least as far as the policy's grant would. */
  predicate Covered(policy: LifecyclePolicy, r: Record)
    requires policy.Valid()
  {
    && r.claimedAt.Some? && r.leaseExpiresAt.Some?
    && r.leaseExpiresAt.value >= r.claimedAt.value + policy.ForKind(r.kind).leaseDuration * SECOND
  }

  ghost predicate LeasesCover(policy: LifecyclePolicy, s: Store)
    requires policy.Valid()
  {
    forall id :: id in s.records && s.records[id].status.Running? ==> Covered(policy, s.records[id])
  }

  lemma StepKeepsCover(policy: LifecyclePolicy, s: Store, call: Call)
    requires policy.Valid() && ValidStore(s) && LeasesCover(policy, s) && Step(policy, s, call).Ok?
    ensures ValidStore(Step(policy, s, call).value.0) && LeasesCover(policy, Step(policy, s, call).value.0)
  {
    hide Step, ValidRecord;
    StepShape(policy, s, call);
    ClaimPolicy(policy, s, call);
  }

  lemma ClaimPolicy(policy: LifecyclePolicy, s: Store, call: Call)
    requires policy.Valid() && Step(policy, s, call).Ok?
    ensures call.ClaimNext? ==> call.request.policy == policy
  {
    hide Next, ClaimRecord;
  }

  lemma {:induction false} RunKeepsCover(policy: LifecyclePolicy, s: Store, calls: seq<Call>, i: nat)
    requires policy.Valid() && ValidStore(s) && LeasesCover(policy, s) && i <= |calls|
    ensures ValidStore(Exec(policy, s, calls[..i])) && LeasesCover(policy, Exec(policy, s, calls[..i]))
  {
    hide Step, ValidStore, LeasesCover;
    if i > 0 {
      RunKeepsCover(policy, s, calls, i - 1);
      ExecStep(policy, s, calls, i - 1);
      if Step(policy, Exec(policy, s, calls[..i - 1]), calls[i - 1]).Ok? {
        StepKeepsCover(policy, Exec(policy, s, calls[..i - 1]), calls[i - 1]);
      }
    }
  }

  /**
   * Under one policy the clock does not matter: when no lease is shorter than the policy's grant
   * at the start, as when no work is running, then over every run, whatever the times of its
   * calls, the record invariant refuses a call exactly for an unusable token.
   */
  lemma InvariantBrokenByTokensOnly(policy: LifecyclePolicy, s: Store, calls: seq<Call>, i: nat)
    requires policy.Valid() && ValidStore(s) && LeasesCover(policy, s) && i < |calls|
    requires forall k :: 0 <= k < |calls| ==> ValidCall(calls[k])
    ensures At(policy, s, calls, i) == Err(InvariantBroken)
       <==> UnusableToken(policy, Exec(policy, s, calls[..i]), calls[i])
  {
    hide Step, ValidStore, ValidCall, UnusableToken, Exec;
    RunKeepsCover(policy, s, calls, i);
    InvariantBrokenIff(policy, Exec(policy, s, calls[..i]), calls[i]);
  }
}
