/** Claims in a row serve the claimable work in one order, each work item once. */
module ClaimOrder {
  import opened Wrappers
  import opened IngestionModels
  import opened IngestionWork
  import opened WorkPolicy
  import opened TextOrder
  import opened Lifecycle
  import opened LifecycleRuns

  /** A claim grants the record: held work has an attempt left and none of the claims' tokens. */
  predicate Grantable(policy: LifecyclePolicy, r: Record, request: ClaimRequest, tokens: seq<string>)
    requires policy.Valid()
  {
    && ValidRecord(r) && Claimable(r, request)
    && (r.status.Running? ==>
          && r.attemptCount < policy.ForKind(r.kind).maximumAttempts
          && r.claimToken.Some? && r.claimToken.value !in tokens)
  }

  /** The claimable work of a store, each work item before those that follow. */
  ghost predicate IsQueue(policy: LifecyclePolicy, s: Store, request: ClaimRequest, tokens: seq<string>, ids: seq<Id>)
    requires policy.Valid()
  {
    && Keyed(s.records)
    && (forall i :: 0 <= i < |ids| ==> ids[i] in s.records && Grantable(policy, s.records[ids[i]], request, tokens))
    && (forall i, j :: 0 <= i < j < |ids| ==> ids[i] != ids[j] && ServedBefore(s.records[ids[i]], s.records[ids[j]]))
    && (forall id :: id in s.records && Claimable(s.records[id], request) ==> id in ids)
  }

  predicate UsableClaims(policy: LifecyclePolicy, request: ClaimRequest, tokens: seq<string>) {
    && request.policy == policy && ValidWorkerId(request.workerId)
    && forall i :: 0 <= i < |tokens| ==> ValidToken(tokens[i])
  }

  function Claims(request: ClaimRequest, tokens: seq<string>): seq<Call> {
    seq(|tokens|, i requires 0 <= i < |tokens| => ClaimNext(request, tokens[i]))
  }

  /** What the claim granted to the worker, if anything. */
  predicate Grants(outcome: Outcome, id: Id, request: ClaimRequest, token: string) {
    && outcome.Claimed? && outcome.claim.work.id == id
    && outcome.claim.workerId == request.workerId && outcome.claim.claimToken == token
  }

  lemma ServedBeforeItself(r: Record)
    ensures ServedBefore(r, r)
  {
    AtMostTotal(r.work.id, r.work.id);
  }

  lemma HeadServedFirst(policy: LifecyclePolicy, s: Store, request: ClaimRequest, tokens: seq<string>, ids: seq<Id>)
    requires policy.Valid() && IsQueue(policy, s, request, tokens, ids)
    ensures ids != [] ==> Next(s.records, request) == Some(ids[0])
    ensures ids == [] ==> Next(s.records, request).None?
  {
    hide Claimable, ServedBefore, Next, ValidRecord;
    if ids == [] {
      NoneClaimable(s.records, request);
    } else {
      ServedBeforeItself(s.records[ids[0]]);
      assert ServedFirst(s.records, request, ids[0]);
      ServedFirstIff(s.records, request);
    }
  }

  /** A grant, without the definition of one. */
  lemma GrantResult(policy: LifecyclePolicy, s: Store, r: Record, request: ClaimRequest, token: string)
    requires policy.Valid() && UsableClaims(policy, request, [token]) && Grantable(policy, r, request, [token])
    requires Keyed(s.records) && r.work.id in s.records
    ensures var step := ClaimRecord(s, r, request, token);
      && step.Ok? && Grants(step.value.1, r.work.id, request, token)
      && r.work.id in step.value.0.records && Keyed(step.value.0.records)
      && !Claimable(step.value.0.records[r.work.id], request)
      && step.value.0.records == s.records[r.work.id := step.value.0.records[r.work.id]]
  {
    hide ValidWorkerId, ValidRecord, LifecyclePolicy.Valid, LifecyclePolicy.ForKind;
    assert [token][0] == token;
    assert token in [token];
    WaitingHasNoToken(r);
    ValidForKind(policy, r.kind);
    GrantedValid(r, request, token);
  }

  lemma WaitingHasNoToken(r: Record)
    requires ValidRecord(r)
    ensures !r.status.Running? ==> r.claimToken.None?
  {
    hide ValidWorkerId, ValidToken;
  }

  lemma ValidForKind(policy: LifecyclePolicy, kind: WorkItemKind)
    requires policy.Valid()
    ensures policy.ForKind(kind).leaseDuration >= 1
  {
  }

  lemma HeadIsGranted(policy: LifecyclePolicy, s: Store, request: ClaimRequest, tokens: seq<string>, ids: seq<Id>,
                      token: string)
    requires policy.Valid() && IsQueue(policy, s, request, tokens, ids) && UsableClaims(policy, request, tokens)
    requires token in tokens && ids != []
    ensures var step := Step(policy, s, ClaimNext(request, token));
      && step.Ok? && Grants(step.value.1, ids[0], request, token)
      && IsQueue(policy, step.value.0, request, tokens, ids[1..])
      && forall id :: id in s.records && id != ids[0] ==>
           id in step.value.0.records && step.value.0.records[id] == s.records[id]
  {
    hide Claimable, ServedBefore, ServedFirst, ClaimRecord, ValidRecord, ValidWorkerId, ValidToken, Next;
    HeadServedFirst(policy, s, request, tokens, ids);
    GrantResult(policy, s, s.records[ids[0]], request, token);
  }

  lemma NothingLeft(policy: LifecyclePolicy, s: Store, request: ClaimRequest, tokens: seq<string>, token: string)
    requires policy.Valid() && IsQueue(policy, s, request, tokens, []) && UsableClaims(policy, request, tokens)
    requires token in tokens
    ensures Step(policy, s, ClaimNext(request, token)) == Ok((s, NothingDue))
  {
    hide Claimable, ServedBefore, ServedFirst, ValidRecord, ValidWorkerId, ValidToken, Next;
    HeadServedFirst(policy, s, request, tokens, []);
  }

  // ---- claims in a row ----

  /** Claim `i` of the row has this answer. */
  predicate Answered(outcome: Result<Outcome, LifecycleError>, request: ClaimRequest, tokens: seq<string>, ids: seq<Id>,
                     i: nat)
    requires i < |tokens|
  {
    outcome.Ok? && if i < |ids| then Grants(outcome.value, ids[i], request, tokens[i]) else outcome.value == NothingDue
  }

  /** After `k` claims the rest of the queue is still one, and only what was granted has changed. */
  ghost predicate Served(policy: LifecyclePolicy, s: Store, t: Store, request: ClaimRequest, tokens: seq<string>,
                         ids: seq<Id>, k: nat)
    requires policy.Valid()
  {
    var n := if k < |ids| then k else |ids|;
    && IsQueue(policy, t, request, tokens, ids[n..])
    && forall id :: id in s.records && id !in ids[..n] ==> id in t.records && t.records[id] == s.records[id]
  }

  lemma ServedStep(policy: LifecyclePolicy, s: Store, t: Store, request: ClaimRequest, tokens: seq<string>,
                   ids: seq<Id>, k: nat)
    requires policy.Valid() && UsableClaims(policy, request, tokens) && k < |tokens|
    requires Served(policy, s, t, request, tokens, ids, k)
    ensures var step := Step(policy, t, ClaimNext(request, tokens[k]));
      && step.Ok? && Answered(Ok(step.value.1), request, tokens, ids, k)
      && Served(policy, s, step.value.0, request, tokens, ids, k + 1)
  {
    hide Step, IsQueue, Grants, UsableClaims, LifecyclePolicy.Valid;
    if k < |ids| {
      HeadIsGranted(policy, t, request, tokens, ids[k..], tokens[k]);
      assert ids[k..][1..] == ids[k + 1..];
      assert ids[..k + 1] == ids[..k] + [ids[k]];
    } else {
      assert ids[|ids|..] == [];
      NothingLeft(policy, t, request, tokens, tokens[k]);
    }
  }

  lemma {:induction false} StillServed(policy: LifecyclePolicy, s: Store, request: ClaimRequest, tokens: seq<string>,
                                       ids: seq<Id>, k: nat)
    requires policy.Valid() && IsQueue(policy, s, request, tokens, ids) && UsableClaims(policy, request, tokens)
    requires k <= |tokens|
    ensures Served(policy, s, Exec(policy, s, Claims(request, tokens)[..k]), request, tokens, ids, k)
  {
    hide Step, IsQueue, UsableClaims, LifecyclePolicy.Valid;
    var calls := Claims(request, tokens);
    if k == 0 {
      assert calls[..0] == [] && ids[0..] == ids;
    } else {
      hide Served;
      StillServed(policy, s, request, tokens, ids, k - 1);
      ExecStep(policy, s, calls, k - 1);
      ServedStep(policy, s, Exec(policy, s, calls[..k - 1]), request, tokens, ids, k - 1);
    }
  }

  /**
   * For as many claims as there are tokens, claim `i` grants the work item at place `i` of the
   * queue, and finds nothing once the queue has been served.
   */
  lemma QueueIsServed(policy: LifecyclePolicy, s: Store, request: ClaimRequest, tokens: seq<string>, ids: seq<Id>)
    requires policy.Valid() && IsQueue(policy, s, request, tokens, ids) && UsableClaims(policy, request, tokens)
    ensures forall i: nat :: i < |tokens| ==>
              Answered(At(policy, s, Claims(request, tokens), i), request, tokens, ids, i)
    ensures Served(policy, s, Exec(policy, s, Claims(request, tokens)), request, tokens, ids, |tokens|)
  {
    hide Step, IsQueue, UsableClaims, Served, Answered, LifecyclePolicy.Valid, Exec;
    var calls := Claims(request, tokens);
    assert calls[..|tokens|] == calls;
    StillServed(policy, s, request, tokens, ids, |tokens|);
    forall i: nat | i < |tokens|
      ensures Answered(At(policy, s, calls, i), request, tokens, ids, i)
    {
      StillServed(policy, s, request, tokens, ids, i);
      ServedStep(policy, s, Exec(policy, s, calls[..i]), request, tokens, ids, i);
    }
  }
}
