/** Safety over whole runs of the lifecycle port: fencing, terminal states and the attempt budget. */
module LifecycleFencing {
  import opened Wrappers
  import opened IngestionModels
  import opened WorkPolicy
  import opened Lifecycle
  import opened LifecycleRuns

  /** Record `id` before call `i`. */
  ghost function RecordAt(policy: LifecyclePolicy, s: Store, calls: seq<Call>, i: nat, id: Id): Record
    requires policy.Valid() && Keyed(s.records) && i <= |calls| && id in s.records
  {
    ExecKeyed(policy, s, calls, i);
    Exec(policy, s, calls[..i]).records[id]
  }

  /** One call either changes a record in the way of a successful step, or leaves it as it is. */
  lemma RecordStep(policy: LifecyclePolicy, s: Store, calls: seq<Call>, i: nat, id: Id)
    requires policy.Valid() && Keyed(s.records) && i < |calls| && id in s.records
    ensures var (a, b) := (RecordAt(policy, s, calls, i, id), RecordAt(policy, s, calls, i + 1, id));
      if Changed(policy, s, calls, i, id)
      then Succeeded(a, b, calls[i].ClaimNext?, At(policy, s, calls, i).value) && LeaseRule(a, b, calls[i])
      else a == b
  {
    hide Step, Succeeded, LeaseRule;
    ExecKeyed(policy, s, calls, i);
    ExecKeyed(policy, s, calls, i + 1);
    ExecStep(policy, s, calls, i);
    var before := Exec(policy, s, calls[..i]);
    if Step(policy, before, calls[i]).Ok? {
      StepShape(policy, before, calls[i]);
    }
  }

  /** How many of the first `n` calls changed the record. */
  ghost function Changes(policy: LifecyclePolicy, s: Store, calls: seq<Call>, id: Id, n: nat): nat
    requires policy.Valid() && n <= |calls|
  {
    if n == 0 then 0
    else Changes(policy, s, calls, id, n - 1) + if Changed(policy, s, calls, n - 1, id) then 1 else 0
  }

  /** How many of the first `n` calls renewed its lease. */
  ghost function Renewals(policy: LifecyclePolicy, s: Store, calls: seq<Call>, id: Id, n: nat): nat
    requires policy.Valid() && n <= |calls|
  {
    if n == 0 then 0
    else Renewals(policy, s, calls, id, n - 1)
         + if Changed(policy, s, calls, n - 1, id) && calls[n - 1].RenewLease? then 1 else 0
  }

  /** A revision counts the changes of its record; between equal revisions nothing changed. */
  lemma {:induction false} RevisionCounts(policy: LifecyclePolicy, s: Store, calls: seq<Call>, id: Id, i: nat, k: nat)
    requires policy.Valid() && Keyed(s.records) && i <= k <= |calls| && id in s.records
    ensures RecordAt(policy, s, calls, k, id).revision
         == RecordAt(policy, s, calls, i, id).revision
            + Changes(policy, s, calls, id, k) - Changes(policy, s, calls, id, i)
    ensures Changes(policy, s, calls, id, k) >= Changes(policy, s, calls, id, i)
    ensures Changes(policy, s, calls, id, k) == Changes(policy, s, calls, id, i) ==>
              RecordAt(policy, s, calls, k, id) == RecordAt(policy, s, calls, i, id)
  {
    hide RecordAt, Changed, LeaseRule;
    if i < k {
      RevisionCounts(policy, s, calls, id, i, k - 1);
      RecordStep(policy, s, calls, k - 1, id);
    }
  }

  // ---- fencing by revision ----

  lemma StaleRefused(policy: LifecyclePolicy, s: Store, calls: seq<Call>, k: nat, id: Id)
    requires policy.Valid() && Keyed(s.records) && k < |calls| && id in s.records
    requires !calls[k].ClaimNext? && calls[k].authority.workItemId == id
    requires RecordAt(policy, s, calls, k, id).revision != calls[k].authority.expectedRevision
    ensures At(policy, s, calls, k).Err? && Exec(policy, s, calls[..k + 1]) == Exec(policy, s, calls[..k])
  {
    ExecKeyed(policy, s, calls, k);
    ExecStep(policy, s, calls, k);
    AuthorityNeeded(policy, Exec(policy, s, calls[..k]), calls[k]);
  }

  lemma AuthorityNeeded(policy: LifecyclePolicy, s: Store, call: Call)
    requires policy.Valid() && !call.ClaimNext? && Authorize(s, call.authority, call.Time()).Err?
    ensures Step(policy, s, call) == Err(Authorize(s, call.authority, call.Time()).error)
  {
    hide Put, Bury, Reschedule, ClaimOf;
  }

  /**
   * Once a claimed work item has been changed by anyone else, its claimant, who knows no later
   * revision, can never change it again: every such call fails and leaves the state as it is.
   */
  lemma StaleClaimantFenced(policy: LifecyclePolicy, s: Store, calls: seq<Call>, i: nat, j: nat, k: nat, claim: WorkClaim)
    requires policy.Valid() && Keyed(s.records) && i < j < k < |calls|
    requires At(policy, s, calls, i) == Ok(Claimed(claim)) && claim.work.id in s.records
    requires Changed(policy, s, calls, j, claim.work.id)
    requires !calls[k].ClaimNext? && calls[k].authority.workItemId == claim.work.id
    requires calls[k].authority.expectedRevision <= claim.revision
    ensures At(policy, s, calls, k).Err? && Exec(policy, s, calls[..k + 1]) == Exec(policy, s, calls[..k])
  {
    hide RecordAt, Changed, LeaseRule, At, Exec;
    var id := claim.work.id;
    ClaimChanged(policy, s, calls, i, claim);
    RecordStep(policy, s, calls, i, id);
    RevisionCounts(policy, s, calls, id, i + 1, j);
    RecordStep(policy, s, calls, j, id);
    RevisionCounts(policy, s, calls, id, j + 1, k);
    StaleRefused(policy, s, calls, k, id);
  }

  lemma ClaimChanged(policy: LifecyclePolicy, s: Store, calls: seq<Call>, i: nat, claim: WorkClaim)
    requires policy.Valid() && i < |calls| && At(policy, s, calls, i) == Ok(Claimed(claim))
    ensures Changed(policy, s, calls, i, claim.work.id)
  {
    hide Exec;
  }

  // ---- the authority that succeeds is the latest grant ----

  ghost predicate UnchangedBetween(policy: LifecyclePolicy, s: Store, calls: seq<Call>, id: Id, from: nat, to: nat)
    requires policy.Valid() && to <= |calls|
  {
    forall j: nat :: from <= j < to ==> !Changed(policy, s, calls, j, id)
  }

  /** Running work holds what the latest successful claim or renewal of it returned. */
  lemma {:induction false} LatestGrant(policy: LifecyclePolicy, s: Store, calls: seq<Call>, n: nat, id: Id)
    returns (i: nat, claim: WorkClaim)
    requires policy.Valid() && Keyed(s.records) && n <= |calls| && id in s.records && !s.records[id].status.Running?
    requires RecordAt(policy, s, calls, n, id).status.Running?
    ensures i < n && At(policy, s, calls, i) == Ok(Claimed(claim)) && claim.work.id == id
    ensures UnchangedBetween(policy, s, calls, id, i + 1, n)
    ensures var r := RecordAt(policy, s, calls, n, id);
      r.leaseOwner == Some(claim.workerId) && r.claimToken == Some(claim.claimToken)
      && r.leaseExpiresAt == Some(claim.leaseExpiresAt) && r.revision == claim.revision
  {
    hide LeaseRule, Exec, Step;
    if n == 0 {
      FirstRecord(policy, s, calls, id);
      assert false;
    } else {
      RecordStep(policy, s, calls, n - 1, id);
      if Changed(policy, s, calls, n - 1, id) {
        i, claim := n - 1, At(policy, s, calls, n - 1).value.claim;
      } else {
        i, claim := LatestGrant(policy, s, calls, n - 1, id);
      }
    }
  }

  lemma FirstRecord(policy: LifecyclePolicy, s: Store, calls: seq<Call>, id: Id)
    requires policy.Valid() && Keyed(s.records) && id in s.records
    ensures RecordAt(policy, s, calls, 0, id) == s.records[id]
  {
  }

  /**
   * A renewal, completion or failure succeeds only with exactly the authority of the latest
   * claim or renewal of its work item, and strictly before that lease expires.
   */
  lemma AuthorityIsLatestGrant(policy: LifecyclePolicy, s: Store, calls: seq<Call>, k: nat, id: Id)
    returns (i: nat, claim: WorkClaim)
    requires policy.Valid() && Keyed(s.records) && k < |calls| && id in s.records && !s.records[id].status.Running?
    requires Changed(policy, s, calls, k, id) && !calls[k].ClaimNext?
    ensures i < k && At(policy, s, calls, i) == Ok(Claimed(claim)) && claim.Held() == calls[k].authority
    ensures UnchangedBetween(policy, s, calls, id, i + 1, k)
    ensures calls[k].Time() < claim.leaseExpiresAt
  {
    hide RecordAt, Changed, At, Exec, Succeeded;
    RecordStep(policy, s, calls, k, id);
    i, claim := LatestGrant(policy, s, calls, k, id);
    RecordKeyed(policy, s, calls, k, id);
  }

  lemma RecordKeyed(policy: LifecyclePolicy, s: Store, calls: seq<Call>, i: nat, id: Id)
    requires policy.Valid() && Keyed(s.records) && i <= |calls| && id in s.records
    ensures RecordAt(policy, s, calls, i, id).work.id == id
  {
    ExecKeyed(policy, s, calls, i);
  }

  /** A claim takes running work from its holder only when the holder's lease has run out. */
  lemma LeasesNeverOverlap(policy: LifecyclePolicy, s: Store, calls: seq<Call>, i: nat, k: nat, claim: WorkClaim)
    requires policy.Valid() && Keyed(s.records) && i < k < |calls|
    requires At(policy, s, calls, i) == Ok(Claimed(claim)) && claim.work.id in s.records
    requires UnchangedBetween(policy, s, calls, claim.work.id, i + 1, k)
    requires Changed(policy, s, calls, k, claim.work.id) && calls[k].ClaimNext?
    ensures calls[k].Time() >= claim.leaseExpiresAt
  {
    hide RecordAt, Changed, At, Exec;
    var id := claim.work.id;
    ClaimChanged(policy, s, calls, i, claim);
    RecordStep(policy, s, calls, i, id);
    SameWhileUnchanged(policy, s, calls, id, i + 1, k);
    RecordStep(policy, s, calls, k, id);
  }

  lemma {:induction false} SameWhileUnchanged(policy: LifecyclePolicy, s: Store, calls: seq<Call>, id: Id, i: nat, k: nat)
    requires policy.Valid() && Keyed(s.records) && i <= k <= |calls| && id in s.records
    requires UnchangedBetween(policy, s, calls, id, i, k)
    ensures RecordAt(policy, s, calls, k, id) == RecordAt(policy, s, calls, i, id)
  {
    hide RecordAt, Changed, Succeeded, LeaseRule;
    if i < k {
      SameWhileUnchanged(policy, s, calls, id, i, k - 1);
      RecordStep(policy, s, calls, k - 1, id);
    }
  }

  // ---- fencing by token ----

  /** The claim that gave the running record its token; it has only been renewed since. */
  lemma {:induction false} TokenOrigin(policy: LifecyclePolicy, s: Store, calls: seq<Call>, n: nat, id: Id) returns (m: nat)
    requires policy.Valid() && Keyed(s.records) && n <= |calls| && id in s.records && !s.records[id].status.Running?
    requires RecordAt(policy, s, calls, n, id).status.Running?
    ensures m < n && calls[m].ClaimNext? && Changed(policy, s, calls, m, id)
    ensures RecordAt(policy, s, calls, n, id).claimToken == Some(calls[m].token)
    ensures forall j: nat :: m < j < n && Changed(policy, s, calls, j, id) ==> calls[j].RenewLease?
  {
    hide Changed, Exec, Step, At;
    if n == 0 {
      FirstRecord(policy, s, calls, id);
      assert false;
    } else {
      RecordStep(policy, s, calls, n - 1, id);
      if Changed(policy, s, calls, n - 1, id) && calls[n - 1].ClaimNext? {
        m := n - 1;
      } else {
        m := TokenOrigin(policy, s, calls, n - 1, id);
      }
    }
  }

  /** The token source never repeats itself. */
  predicate FreshTokens(calls: seq<Call>) {
    forall i, j :: 0 <= i < j < |calls| && calls[i].ClaimNext? && calls[j].ClaimNext? ==>
      calls[i].token != calls[j].token
  }

  /**
   * With fresh tokens, work that has been claimed again is out of reach of every earlier
   * claimant, whatever revision it presents.
   */
  lemma TokenFenced(policy: LifecyclePolicy, s: Store, calls: seq<Call>, i: nat, j: nat, k: nat, id: Id)
    requires policy.Valid() && Keyed(s.records) && i < j < k < |calls| && FreshTokens(calls)
    requires id in s.records && !s.records[id].status.Running?
    requires calls[i].ClaimNext? && Changed(policy, s, calls, i, id)
    requires calls[j].ClaimNext? && Changed(policy, s, calls, j, id)
    requires !calls[k].ClaimNext? && calls[k].authority.workItemId == id && calls[k].authority.claimToken == calls[i].token
    ensures At(policy, s, calls, k).Err? && !Changed(policy, s, calls, k, id)
    ensures RecordAt(policy, s, calls, k + 1, id) == RecordAt(policy, s, calls, k, id)
  {
    hide RecordAt, Exec, Step, Succeeded;
    RecordStep(policy, s, calls, k, id);
    if Changed(policy, s, calls, k, id) {
      var m := TokenOrigin(policy, s, calls, k, id);
      assert false;
    }
    AuthoritySubject(policy, s, calls, k);
  }

  /** A call that acts under an authority changes the work item that the authority names, or fails. */
  lemma AuthoritySubject(policy: LifecyclePolicy, s: Store, calls: seq<Call>, k: nat)
    requires policy.Valid() && Keyed(s.records) && k < |calls| && !calls[k].ClaimNext?
    ensures At(policy, s, calls, k).Ok? ==> Changed(policy, s, calls, k, calls[k].authority.workItemId)
  {
    hide Exec;
    ExecKeyed(policy, s, calls, k);
    var before := Exec(policy, s, calls[..k]);
    if Step(policy, before, calls[k]).Ok? {
      StepShape(policy, before, calls[k]);
    }
  }

  // ---- terminal states ----

  lemma {:induction false} TerminalStays(policy: LifecyclePolicy, s: Store, calls: seq<Call>, i: nat, k: nat, id: Id)
    requires policy.Valid() && Keyed(s.records) && i <= k <= |calls| && id in s.records
    requires Terminal(RecordAt(policy, s, calls, i, id))
    ensures RecordAt(policy, s, calls, k, id) == RecordAt(policy, s, calls, i, id)
    ensures forall j: nat :: i <= j < k ==> !Changed(policy, s, calls, j, id)
  {
    hide RecordAt, Changed, LeaseRule;
    if i < k {
      TerminalStays(policy, s, calls, i, k - 1, id);
      RecordStep(policy, s, calls, k - 1, id);
    }
  }

  /** A work item is completed or dead-lettered at most once, and never changes afterwards. */
  lemma AtMostOneTerminalTransition(policy: LifecyclePolicy, s: Store, calls: seq<Call>, i: nat, k: nat, id: Id)
    requires policy.Valid() && Keyed(s.records) && i < k < |calls| && id in s.records
    requires Changed(policy, s, calls, i, id) && Terminal(RecordAt(policy, s, calls, i + 1, id))
    ensures !Changed(policy, s, calls, k, id)
    ensures RecordAt(policy, s, calls, k, id) == RecordAt(policy, s, calls, i + 1, id)
    ensures !calls[k].ClaimNext? && calls[k].authority.workItemId == id ==>
              At(policy, s, calls, k) == Err(InvalidTransition)
  {
    hide Succeeded, LeaseRule, Changed;
    TerminalStays(policy, s, calls, i + 1, k + 1, id);
    TerminalStays(policy, s, calls, i + 1, k, id);
    if !calls[k].ClaimNext? && calls[k].authority.workItemId == id {
      ExecKeyed(policy, s, calls, k);
      AuthorityNeeded(policy, Exec(policy, s, calls[..k]), calls[k]);
    }
  }

  // ---- the budget ----

  ghost predicate AllPending(s: Store) {
    Keyed(s.records) && forall id :: id in s.records ==> s.records[id].status.Pending? && ValidRecord(s.records[id])
  }

  /** What a change costs of the bound on changes. */
  lemma ChangeCosts(a: Record, b: Record, call: Call, changed: bool, outcome: Result<Outcome, LifecycleError>)
    requires changed ==> outcome.Ok? && Succeeded(a, b, call.ClaimNext?, outcome.value) && LeaseRule(a, b, call)
    requires !changed ==> a == b
    ensures var spent := (r: Record) => 2 * r.attemptCount - (if r.status.Running? then 1 else 0);
      spent(b) >= spent(a) + (if changed && !call.RenewLease? then 1 else 0)
    ensures changed ==> b.revision == a.revision + 1 && ValidRecord(b)
  {
    hide ValidRecord;
  }

  /** Each attempt is one claim and at most one end besides its renewals. */
  lemma {:induction false} ChangesBounded(policy: LifecyclePolicy, s: Store, calls: seq<Call>, id: Id, n: nat)
    requires policy.Valid() && AllPending(s) && n <= |calls| && id in s.records
    ensures var r := RecordAt(policy, s, calls, n, id);
      && r.revision == Changes(policy, s, calls, id, n)
      && Changes(policy, s, calls, id, n)
         <= 2 * r.attemptCount + Renewals(policy, s, calls, id, n) - (if r.status.Running? then 1 else 0)
      && ValidRecord(r)
  {
    hide Exec, At, Succeeded, LeaseRule, RecordAt;
    if n == 0 {
      FirstRecord(policy, s, calls, id);
    } else {
      ChangesBounded(policy, s, calls, id, n - 1);
      RecordStep(policy, s, calls, n - 1, id);
      ChangeCosts(RecordAt(policy, s, calls, n - 1, id), RecordAt(policy, s, calls, n, id), calls[n - 1],
                  Changed(policy, s, calls, n - 1, id), At(policy, s, calls, n - 1));
    }
  }

  /**
   * From pending records, with the policy's attempt budget: whatever the calls and their order,
   * a work item is granted at most `maximumAttempts` times and changed at most twice that
   * often, not counting renewals.
   */
  lemma BudgetHolds(policy: LifecyclePolicy, s: Store, calls: seq<Call>, id: Id, start: int)
    requires policy.Valid() && AllPending(s) && Good(policy, s, start) && id in s.records
    requires forall k :: 0 <= k < |calls| ==> ValidCall(calls[k]) && start <= calls[k].Time()
    requires forall j, k :: 0 <= j < k < |calls| ==> calls[j].Time() <= calls[k].Time()
    ensures var r := RecordAt(policy, s, calls, |calls|, id);
      && ValidRecord(r)
      && r.attemptCount <= policy.ForKind(r.kind).maximumAttempts
      && r.attemptCount + (if r.status.Retrying? || Terminal(r) then 1 else 0) <= r.revision
      && r.revision == Changes(policy, s, calls, id, |calls|)
      && Changes(policy, s, calls, id, |calls|)
         <= 2 * policy.ForKind(r.kind).maximumAttempts + Renewals(policy, s, calls, id, |calls|)
  {
    hide Exec, Changed, At, ValidCall, ValidRecord, Changes, Renewals, Good, StepGood, AllPending;
    PendingKeyed(s);
    var n := |calls|;
    RunKeeps(policy, s, calls, start, n);
    ChangesBounded(policy, s, calls, id, n);
    ExecKeyed(policy, s, calls, n);
    GoodAt(policy, Exec(policy, s, calls[..n]), id, if n == 0 then start else calls[n - 1].Time());
  }

  lemma PendingKeyed(s: Store)
    requires AllPending(s)
    ensures Keyed(s.records)
  {
  }

  lemma GoodAt(policy: LifecyclePolicy, s: Store, id: Id, now: int)
    requires policy.Valid() && Good(policy, s, now) && id in s.records
    ensures GoodRecord(policy, id, s.records[id], now)
  {
  }

  // ---- claims ----

  /**
   * A claim with a fresh token never fails: it serves the claimable record that comes before
   * every other one, and finds nothing exactly when no record is claimable.
   */
  lemma ClaimServesFirst(policy: LifecyclePolicy, s: Store, request: ClaimRequest, token: string, now: int)
    requires policy.Valid() && Good(policy, s, now) && now <= request.claimedAt
    requires ValidCall(ClaimNext(request, token)) && request.policy == policy && !BadToken(s, ClaimNext(request, token))
    ensures var step := Step(policy, s, ClaimNext(request, token));
      && step.Ok?
      && match Subject(step.value.1)
         case None => forall id :: id in s.records ==> !Claimable(s.records[id], request)
         case Some(id) => ServedFirst(s.records, request, id)
  {
    hide Good, Claimable, ServedFirst, Next, Step;
    StepKeeps(policy, s, ClaimNext(request, token), now);
    GoodKeyed(policy, s, now);
    ServedFirstIff(s.records, request);
    StepGoodOk(policy, s, ClaimNext(request, token));
    ClaimOutcome(policy, s, request, token);
  }

  lemma ClaimOutcome(policy: LifecyclePolicy, s: Store, request: ClaimRequest, token: string)
    requires policy.Valid() && Keyed(s.records) && request.policy == policy
    ensures match Step(policy, s, ClaimNext(request, token))
            case Ok((_, outcome)) => Subject(outcome) == Next(s.records, request)
            case Err(e) => e.InvariantBroken?
  {
    hide Next, ValidRecord;
  }

  lemma StepGoodOk(policy: LifecyclePolicy, s: Store, call: Call)
    requires policy.Valid() && StepGood(policy, s, call) && !BadToken(s, call)
    ensures Step(policy, s, call).Err? ==> !Step(policy, s, call).error.InvariantBroken?
  {
    hide Step;
  }

  lemma GoodKeyed(policy: LifecyclePolicy, s: Store, now: int)
    requires policy.Valid() && Good(policy, s, now)
    ensures Keyed(s.records)
  {
    forall id | id in s.records
      ensures s.records[id].work.id == id
    {
      assert GoodRecord(policy, id, s.records[id], now);
    }
  }

  /** Of two claims in a row, the second does not get the work of the first while its lease lasts. */
  lemma ClaimRaceHasOneWinner(policy: LifecyclePolicy, s: Store, first: Call, second: Call, id: Id)
    requires policy.Valid() && Keyed(s.records) && first.ClaimNext? && second.ClaimNext?
    requires Step(policy, s, first).Ok? && Step(policy, s, first).value.1.Claimed?
    requires var claim := Step(policy, s, first).value.1.claim;
             claim.work.id == id && second.Time() < claim.leaseExpiresAt
    requires Step(policy, Step(policy, s, first).value.0, second).Ok?
    ensures Subject(Step(policy, Step(policy, s, first).value.0, second).value.1) != Some(id)
  {
    hide Step;
    StepShape(policy, s, first);
    StepShape(policy, Step(policy, s, first).value.0, second);
  }
}
