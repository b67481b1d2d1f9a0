/** Retry policies of the in-process runtime, and the decision for a failed cycle. */
module RetryManagement {
  import opened Wrappers
  import opened Floats
  import Decimal

  datatype PolicyKind = Manual | Immediate | Exponential

  datatype RetryPolicy = RetryPolicy(
    kind: PolicyKind, maxAttempts: int, baseDelay: real, maxDelay: real, jitter: real)
  {
    predicate Valid() {
      maxAttempts >= 1 && 0.0 <= baseDelay <= maxDelay && 0.0 <= jitter <= 1.0
    }
  }

  datatype RetryContext = RetryContext(isRetryable: bool, currentTime: real)

  datatype RetryDecision = RetryDecision(
    shouldRetry: bool, attempt: int, delay: real, routeToDeadLetter: bool, reason: string, kind: PolicyKind)

  function DeadLetter(attempt: int, reason: string, kind: PolicyKind): RetryDecision {
    RetryDecision(false, attempt, 0.0, true, reason, kind)
  }

  function Retry(attempt: int, delay: real, reason: string, kind: PolicyKind): RetryDecision {
    RetryDecision(true, attempt, delay, false, reason, kind)
  }

  /** The one failure of an evaluation: an integer too large for a float. */
  datatype DelayError = DelayOverflow

  /** `2 ** exponent` where a float is needed. */
  function PowerAsFloat(exponent: nat): Result<real, DelayError> {
    if Fits(TwoTo(exponent)) then Ok(TwoTo(exponent) as real) else Err(DelayOverflow)
  }

  /** `x % 1.0` */
  function Fraction(x: real): real {
    x - x.Floor as real
  }

  function Exponent(nextAttempt: int): nat {
    if nextAttempt < 2 then 0 else nextAttempt - 2
  }

  function Capped(policy: RetryPolicy, nextAttempt: int): Result<real, DelayError> {
    var factor :- PowerAsFloat(Exponent(nextAttempt));
    var raw := Times(policy.baseDelay, factor);
    Ok(if raw <= policy.maxDelay then raw else policy.maxDelay)
  }

  /** Between minus and plus the jitter, from the fraction of the clock. */
  function JitterFactor(policy: RetryPolicy, context: RetryContext): real {
    if policy.jitter > 0.0 && context.currentTime > 0.0 then
      Times(Fraction(context.currentTime * 0.0001) * 2.0 - 1.0, policy.jitter)
    else 0.0
  }

  function ExponentialDelay(policy: RetryPolicy, context: RetryContext, nextAttempt: int): Result<real, DelayError> {
    var capped :- Capped(policy, nextAttempt);
    Ok(Times(capped, 1.0 + JitterFactor(policy, context)))
  }

  function BudgetReason(attempt: int, maxAttempts: int): string {
    "retry budget exhausted: attempt " + Decimal.FromInt(attempt) + " >= max_attempts " + Decimal.FromInt(maxAttempts)
  }

  function RetryReason(form: string, attempt: int): string {
    form + " retry attempt " + Decimal.FromInt(attempt)
  }

  /** `error` is the infrastructure failure of the cycle, if it had one. */
  function Evaluate(policy: RetryPolicy, context: RetryContext, error: Option<string>, attempt: int)
    : Result<RetryDecision, DelayError>
  {
    if error.Some? then Ok(DeadLetter(attempt, "infrastructure failure: " + error.value, policy.kind))
    else if !context.isRetryable then Ok(DeadLetter(attempt, "caller marked failure as non-retryable", policy.kind))
    else if attempt >= policy.maxAttempts then
      Ok(DeadLetter(attempt, BudgetReason(attempt, policy.maxAttempts), policy.kind))
    else
      match policy.kind
      case Manual => Ok(DeadLetter(attempt + 1, "manual policy: requires operator intervention", policy.kind))
      case Immediate => Ok(Retry(attempt + 1, 0.0, RetryReason("immediate", attempt + 1), policy.kind))
      case Exponential =>
        var delay :- ExponentialDelay(policy, context, attempt + 1);
        Ok(Retry(attempt + 1, delay, RetryReason("exponential backoff", attempt + 1), policy.kind))
  }

  // ---- the decision ----

  /** The first failed attempt whose retry delay has no float. */
  const OVERFLOWING_ATTEMPT := 1025

  /**
   * A failed cycle is either retried or dead-lettered, never both and never neither, when there is
   * a decision at all. There is none exactly for a retryable failure of attempt 1025 or later that
   * an exponential policy still has attempts for.
   */
  lemma DecisionIsOneOfTwo(policy: RetryPolicy, context: RetryContext, error: Option<string>, attempt: int)
    ensures Evaluate(policy, context, error, attempt).Err?
       <==> && error.None? && context.isRetryable && policy.kind.Exponential?
            && OVERFLOWING_ATTEMPT <= attempt < policy.maxAttempts
    ensures Evaluate(policy, context, error, attempt).Ok? ==>
      var d := Evaluate(policy, context, error, attempt).value;
      && d.routeToDeadLetter == !d.shouldRetry
      && (d.shouldRetry <==> error.None? && context.isRetryable && attempt < policy.maxAttempts && !policy.kind.Manual?)
      && d.kind == policy.kind
      && d.attempt == attempt + (if error.None? && context.isRetryable && attempt < policy.maxAttempts then 1 else 0)
      && (if d.shouldRetry && policy.kind.Exponential? then Ok(d.delay) == ExponentialDelay(policy, context, attempt + 1)
          else d.delay == 0.0)
  {
    hide ExponentialDelay, BudgetReason, RetryReason;
    DelayExistsIff(policy, context, attempt + 1);
  }

  lemma DelayExistsIff(policy: RetryPolicy, context: RetryContext, nextAttempt: int)
    ensures ExponentialDelay(policy, context, nextAttempt).Ok? <==> nextAttempt <= OVERFLOWING_ATTEMPT
    ensures Capped(policy, nextAttempt).Ok? <==> nextAttempt <= OVERFLOWING_ATTEMPT
  {
    hide TwoTo, Times, JitterFactor, Fits;
    PowerFitsIff(Exponent(nextAttempt));
  }

  /**
   * The capped delay exists for exactly the next attempts up to 1025. There it lies between the
   * base delay and the cap, and never drops from one attempt to a later one.
   */
  lemma CappedMonotone(policy: RetryPolicy, a: int, b: int)
    requires policy.Valid() && a <= b
    ensures Capped(policy, b).Ok? <==> b <= OVERFLOWING_ATTEMPT
    ensures Capped(policy, b).Ok? ==>
              && Capped(policy, a).Ok?
              && policy.baseDelay <= Capped(policy, a).value <= Capped(policy, b).value <= policy.maxDelay
  {
    hide TwoTo, Times, Fits;
    PowerFitsIff(Exponent(a));
    PowerFitsIff(Exponent(b));
    if b <= OVERFLOWING_ATTEMPT {
      var d, e := Exponent(a), Exponent(b);
      PowersGrow(0, d);
      PowersGrow(d, e);
      TimesUnit(policy.baseDelay);
      Scaled(policy.baseDelay, 1.0, TwoTo(d) as real);
      Scaled(policy.baseDelay, TwoTo(d) as real, TwoTo(e) as real);
    }
  }

  /**
   * The first retry waits for the base delay. Each later one waits twice as long as the one before,
   * or for the cap if that is less.
   */
  lemma CappedDoubles(policy: RetryPolicy, nextAttempt: int)
    requires policy.Valid() && nextAttempt <= OVERFLOWING_ATTEMPT
    ensures nextAttempt <= 2 ==> Capped(policy, nextAttempt) == Ok(policy.baseDelay)
    ensures nextAttempt > 2 ==>
              && Capped(policy, nextAttempt - 1).Ok?
              && var doubled := 2.0 * Capped(policy, nextAttempt - 1).value;
              Capped(policy, nextAttempt) == Ok(if doubled <= policy.maxDelay then doubled else policy.maxDelay)
  {
    hide Times, Fits;
    PowerFitsIff(Exponent(nextAttempt));
    TimesUnit(policy.baseDelay);
    if nextAttempt > 2 {
      var e := Exponent(nextAttempt - 1);
      PowerFitsIff(e);
      PowersGrow(0, e);
      TimesDoubled(policy.baseDelay, TwoTo(e) as real);
    }
  }

  lemma TimesDoubled(x: real, y: real)
    ensures Times(x, 2.0 * y) == 2.0 * Times(x, y)
  {
  }

  // ---- no rounding before the jitter ----

  /**
   * With floats for parameters, real arithmetic gives the capped delay as floats do: the product
   * with the power of two is a float itself, or passes all of them and the cap is taken.
   */
  lemma CappedIsExact(policy: RetryPolicy, nextAttempt: int)
    requires policy.Valid() && IsFloat(policy.baseDelay) && IsFloat(policy.maxDelay)
    requires nextAttempt <= OVERFLOWING_ATTEMPT
    ensures var raw := Times(policy.baseDelay, TwoTo(Exponent(nextAttempt)) as real);
      && (IsFloat(raw) || raw >= TwoTo(MAX_EXPONENT) as real)
      && (!IsFloat(raw) ==> Capped(policy, nextAttempt) == Ok(policy.maxDelay))
    ensures Capped(policy, nextAttempt).Ok? && IsFloat(Capped(policy, nextAttempt).value)
  {
    hide TwoTo, Times, IsScaled, Fits;
    PowerFitsIff(Exponent(nextAttempt));
    PowerProductIsExact(policy.baseDelay, Exponent(nextAttempt));
  }

  // ---- the envelope ----

  /** Within the jitter's share on both sides of `x`, not negative, and bounded by the widened maximum. */
  predicate InEnvelope(delay: real, x: real, maximum: real, jitter: real) {
    && Times(x, 1.0 - jitter) <= delay <= Times(x, 1.0 + jitter)
    && 0.0 <= delay <= Times(maximum, 1.0 + jitter)
    && (jitter == 0.0 ==> delay == x)
  }

  /** Where there is a delay, it stays within the jitter's share of the capped delay. */
  lemma DelayEnvelope(policy: RetryPolicy, context: RetryContext, attempt: int)
    requires policy.Valid()
    ensures ExponentialDelay(policy, context, attempt).Ok? <==> attempt <= OVERFLOWING_ATTEMPT
    ensures ExponentialDelay(policy, context, attempt).Ok? ==>
              && Capped(policy, attempt).Ok?
              && InEnvelope(ExponentialDelay(policy, context, attempt).value, Capped(policy, attempt).value,
                            policy.maxDelay, policy.jitter)
  {
    hide Capped, JitterFactor, InEnvelope, Times;
    CappedMonotone(policy, attempt, attempt);
    if Capped(policy, attempt).Ok? {
      FactorWithin(policy, context);
      Jittered(Capped(policy, attempt).value, policy.maxDelay, policy.jitter, JitterFactor(policy, context));
    }
  }

  lemma FactorWithin(policy: RetryPolicy, context: RetryContext)
    requires policy.Valid()
    ensures 0.0 - policy.jitter <= JitterFactor(policy, context) <= policy.jitter
  {
    hide Fraction, Times;
    var fraction := Fraction(context.currentTime * 0.0001);
    FractionWithin(context.currentTime * 0.0001);
    Swing(policy.jitter, fraction * 2.0 - 1.0);
  }

  /**
   * The clock drives the jitter with a period of ten thousand seconds, from minus the jitter at its
   * start over zero in its middle; without a clock or a jitter there is none.
   */
  lemma JitterFollowsClock(policy: RetryPolicy, context: RetryContext, periods: int, x: real)
    requires 0.0 <= x < 1.0 && context.currentTime == (periods as real + x) * 10_000.0
    ensures policy.jitter > 0.0 && context.currentTime > 0.0 ==>
              JitterFactor(policy, context) == Times(2.0 * x - 1.0, policy.jitter)
    ensures policy.jitter <= 0.0 || context.currentTime <= 0.0 ==> JitterFactor(policy, context) == 0.0
  {
    hide Times, Fraction;
    ClockPeriods(context.currentTime, periods as real + x);
    FractionOf(periods, x);
  }

  lemma ClockPeriods(time: real, periods: real)
    requires time == periods * 10_000.0
    ensures time * 0.0001 == periods
  {
  }

  lemma FractionOf(n: int, x: real)
    requires 0.0 <= x < 1.0
    ensures Fraction(n as real + x) == x
  {
    var whole := (n as real + x).Floor;
    FloorBetween(n as real + x, whole);
    Between(whole, n, x);
  }

  lemma FloorBetween(y: real, whole: int)
    requires whole == y.Floor
    ensures whole as real <= y < whole as real + 1.0
  {
  }

  lemma AsReal(m: int, n: int)
    ensures m < n ==> m as real + 1.0 <= n as real
  {
  }

  lemma Between(whole: int, n: int, x: real)
    requires 0.0 <= x < 1.0 && whole as real <= n as real + x < whole as real + 1.0
    ensures whole == n
  {
    AsReal(whole, n);
    AsReal(n, whole);
  }

  lemma FractionWithin(x: real)
    ensures 0.0 <= Fraction(x) < 1.0
  {
  }

  lemma Swing(jitter: real, x: real)
    requires jitter >= 0.0 && -1.0 <= x <= 1.0
    ensures 0.0 - jitter <= Times(x, jitter) <= jitter
  {
    Widened(-1.0, x, jitter);
    Widened(x, 1.0, jitter);
  }

  lemma Jittered(x: real, maximum: real, jitter: real, factor: real)
    requires 0.0 <= x <= maximum && 0.0 <= jitter <= 1.0 && 0.0 - jitter <= factor <= jitter
    ensures InEnvelope(Times(x, 1.0 + factor), x, maximum, jitter)
  {
    hide Times;
    Scaled(x, 1.0 - jitter, 1.0 + factor);
    Scaled(x, 1.0 + factor, 1.0 + jitter);
    Scaled(x, 0.0, 1.0 - jitter);
    Widened(x, maximum, 1.0 + jitter);
    TimesUnit(x);
  }

  // ---- the budget ----

  /**
   * What evaluation gives when every cycle fails: each retry's attempt is fed back until there is
   * no retry.
   */
  function Decisions(policy: RetryPolicy, context: RetryContext, attempt: int): seq<Result<RetryDecision, DelayError>>
    decreases policy.maxAttempts - attempt
  {
    var d := Evaluate(policy, context, None, attempt);
    if d.Ok? && d.value.shouldRetry then [d] + Decisions(policy, context, d.value.attempt) else [d]
  }

  /** The budget reaches beyond the last attempt that has a delay. */
  predicate Overflows(policy: RetryPolicy, attempt: int) {
    policy.kind.Exponential? && attempt < policy.maxAttempts && policy.maxAttempts > OVERFLOWING_ATTEMPT
  }

  /** How often a failure of this attempt is retried before the run ends. */
  function RetriesLeft(policy: RetryPolicy, attempt: int): nat {
    if policy.kind.Manual? || attempt >= policy.maxAttempts then 0
    else if !Overflows(policy, attempt) then policy.maxAttempts - attempt
    else if attempt < OVERFLOWING_ATTEMPT then OVERFLOWING_ATTEMPT - attempt
    else 0
  }

  /** A retry that is numbered and timed as it should be. */
  predicate IsRetry(policy: RetryPolicy, r: Result<RetryDecision, DelayError>, attempt: int) {
    && r.Ok? && r.value.shouldRetry && !r.value.routeToDeadLetter && r.value.attempt == attempt
    && 0.0 <= r.value.delay <= Times(policy.maxDelay, 1.0 + policy.jitter)
  }

  predicate IsDeadLetter(r: Result<RetryDecision, DelayError>) {
    r.Ok? && r.value.routeToDeadLetter && !r.value.shouldRetry
  }

  /**
   * A retryable failure that keeps recurring is retried for the attempts left in the budget,
   * numbered one after the other, and then dead-lettered once; a manual policy never retries. An
   * exponential budget beyond attempt 1025 ends in an overflow there instead, without a decision.
   */
  lemma {:induction false} BudgetSpent(policy: RetryPolicy, context: RetryContext, attempt: int)
    requires policy.Valid() && context.isRetryable
    ensures var (all, retries) := (Decisions(policy, context, attempt), RetriesLeft(policy, attempt));
      && |all| == retries + 1
      && (forall i :: 0 <= i < retries ==> IsRetry(policy, all[i], attempt + 1 + i))
      && (if Overflows(policy, attempt) then all[retries] == Err(DelayOverflow) else IsDeadLetter(all[retries]))
    decreases policy.maxAttempts - attempt
  {
    hide Evaluate, IsRetry, IsDeadLetter, Overflows, RetriesLeft;
    var d := Evaluate(policy, context, None, attempt);
    BudgetStep(policy, context, attempt);
    if d.Ok? && d.value.shouldRetry {
      BudgetSpent(policy, context, attempt + 1);
      RetryIsTimed(policy, context, attempt);
      var rest := Decisions(policy, context, attempt + 1);
      var all := Decisions(policy, context, attempt);
      assert all == [d] + rest;
      assert forall i :: 1 <= i < |all| ==> all[i] == rest[i - 1];
    }
  }

  /** A retry takes one from what is left of the budget; no retry means that nothing is left. */
  lemma BudgetStep(policy: RetryPolicy, context: RetryContext, attempt: int)
    requires context.isRetryable
    ensures var (d, left) := (Evaluate(policy, context, None, attempt), RetriesLeft(policy, attempt));
      if d.Ok? && d.value.shouldRetry then
        && d.value.attempt == attempt + 1 && attempt < policy.maxAttempts
        && left == RetriesLeft(policy, attempt + 1) + 1
        && Overflows(policy, attempt) == Overflows(policy, attempt + 1)
      else left == 0 && if Overflows(policy, attempt) then d == Err(DelayOverflow) else IsDeadLetter(d)
  {
    hide Evaluate;
    DecisionIsOneOfTwo(policy, context, None, attempt);
    var d := Evaluate(policy, context, None, attempt);
    assert d.Err? ==> d.error.DelayOverflow?;
  }

  lemma RetryIsTimed(policy: RetryPolicy, context: RetryContext, attempt: int)
    requires policy.Valid()
    requires Evaluate(policy, context, None, attempt).Ok? && Evaluate(policy, context, None, attempt).value.shouldRetry
    ensures IsRetry(policy, Evaluate(policy, context, None, attempt), attempt + 1)
  {
    hide ExponentialDelay, Capped, Times, BudgetReason, RetryReason;
    DelayEnvelope(policy, context, attempt + 1);
    Widened(0.0, policy.maxDelay, 1.0 + policy.jitter);
    TimesUnit(1.0 + policy.jitter);
  }

  /**
   * From the original attempt, a cycle that keeps failing is retried exactly once less than the
   * attempts allowed and then dead-lettered if and only if the policy is immediate or allows no
   * more than 1025 attempts.
   */
  lemma RetriesPerCycle(policy: RetryPolicy, context: RetryContext)
    requires policy.Valid() && context.isRetryable && !policy.kind.Manual?
    ensures var all := Decisions(policy, context, 1);
      && |all| == policy.maxAttempts
      && (forall i :: 0 <= i < policy.maxAttempts - 1 ==> IsRetry(policy, all[i], i + 2))
      && IsDeadLetter(all[policy.maxAttempts - 1])
      <==> policy.kind.Immediate? || policy.maxAttempts <= OVERFLOWING_ATTEMPT
  {
    hide IsRetry, Decisions;
    BudgetSpent(policy, context, 1);
  }
}

/** The bounded dead-letter queue and the orchestrator that acts on decisions. */
module RetryOrchestration {
  import opened Wrappers
  import opened RuntimeItems
  import opened RuntimeQueue
  import opened RetryManagement

  datatype DeadLetterEntry = DeadLetterEntry(item: WorkItem, reason: string, attempt: int, deadLetteredAt: string)

  class DeadLetterQueue {
    const maxSize: Option<int>
    var entries: seq<DeadLetterEntry>

    ghost predicate Valid()
      reads this`entries
    {
      (maxSize.Some? ==> maxSize.value > 0) && Within(|entries|, maxSize)
    }

    constructor (maxSize: Option<int>)
      requires maxSize.Some? ==> maxSize.value > 0
      ensures Valid() && entries == [] && this.maxSize == maxSize
    {
      this.maxSize := maxSize;
      entries := [];
    }

    /** When full, the new entry is the one that is dropped. */
    method Enqueue(item: WorkItem, reason: string, attempt: int, now: string) returns (added: bool)
      requires Valid()
      modifies this`entries
      ensures Valid() && added == (maxSize.None? || |old(entries)| < maxSize.value)
      ensures entries == old(entries) + if added then [DeadLetterEntry(item, reason, attempt, now)] else []
    {
      if maxSize.Some? && |entries| >= maxSize.value {
        return false;
      }
      entries := entries + [DeadLetterEntry(item, reason, attempt, now)];
      return true;
    }

    method PopOldest() returns (r: Option<DeadLetterEntry>)
      requires Valid()
      modifies this`entries
      ensures Valid()
      ensures old(entries) == [] ==> r == None && entries == []
      ensures old(entries) != [] ==> r == Some(old(entries)[0]) && entries == old(entries)[1..]
    {
      if entries == [] {
        return None;
      }
      var oldest := entries[0];
      entries := entries[1..];
      return Some(oldest);
    }

    method Clear()
      modifies this`entries
      ensures entries == []
    {
      entries := [];
    }
  }

  /** Why a failed cycle was not handled: there is no decision, or the retry found no place. */
  datatype HandlingError = Undecided(reason: DelayError) | NotEnqueued(error: QueueError)

  datatype RetryOutcome = RetryOutcome(
    route: string, attempt: int, retryItemId: Option<string>, deadLettered: bool, reason: string)

  /** The fresh item for another attempt at a cycle. */
  function FreshItem(id: string, cycleId: string, priority: Priority, trigger: string, now: string): WorkItem {
    WorkItem(id, cycleId, priority, Pending, trigger, now, None, None, None, None)
  }

  predicate HasRoom(waiting: int, maximum: Option<int>) {
    maximum.Some? ==> waiting < maximum.value
  }

  class RetryOrchestrator {
    const policy: RetryPolicy
    const context: RetryContext
    const queue: WorkQueue
    const deadLetter: DeadLetterQueue

    constructor (policy: RetryPolicy, context: RetryContext, queue: WorkQueue, deadLetter: DeadLetterQueue)
      ensures this.policy == policy && this.context == context
      ensures this.queue == queue && this.deadLetter == deadLetter
    {
      this.policy, this.context := policy, context;
      this.queue, this.deadLetter := queue, deadLetter;
    }

    /**
     * Act on a failed cycle. A dead-lettered item is logged as failed if it was running and
     * enters the dead-letter queue unless that is full; a retried cycle waits in the queue as a
     * fresh item, or the failure to enqueue it is passed on. When evaluation overflows, nothing
     * changes: the item is not logged and enters neither queue.
     */
    method HandleFailedCycle(original: WorkItem, error: Option<string>, attempt: int, priority: Priority,
                             newId: string, now: string)
      returns (r: Result<RetryOutcome, HandlingError>)
      requires queue.Valid() && deadLetter.Valid()
      modifies queue, deadLetter
      ensures queue.Valid() && deadLetter.Valid()
      ensures queue.completed == old(queue.completed) && queue.cancelled == old(queue.cancelled)
      ensures r.Err? && r.error.Undecided?
         <==> && error.None? && context.isRetryable && policy.kind.Exponential?
              && OVERFLOWING_ATTEMPT <= attempt < policy.maxAttempts
      ensures r.Err? ==>
                && queue.arrivals == old(queue.arrivals) && queue.failed == old(queue.failed)
                && deadLetter.entries == old(deadLetter.entries)
      ensures Evaluate(policy, context, error, attempt).Ok? ==>
        var d := Evaluate(policy, context, error, attempt).value;
        var room := HasRoom(|old(deadLetter.entries)|, deadLetter.maxSize);
        d.routeToDeadLetter ==>
          && r == Ok(RetryOutcome("dead_letter", d.attempt, None, room, d.reason))
          && queue.arrivals == old(queue.arrivals)
          && queue.failed == old(queue.failed) + (if original.status.Running?
                                                  then [original.(status := Failed, error := Some(d.reason))] else [])
          && deadLetter.entries == old(deadLetter.entries)
                                   + (if room then [DeadLetterEntry(original, d.reason, attempt, now)] else [])
      ensures Evaluate(policy, context, error, attempt).Ok? ==>
        var d := Evaluate(policy, context, error, attempt).value;
        var item := WorkItem(newId, original.cycleId, priority, Pending, "retry", now, None, None, None, None);
        !d.routeToDeadLetter ==>
          && deadLetter.entries == old(deadLetter.entries) && queue.failed == old(queue.failed)
          && (if HasRoom(|old(queue.arrivals)|, queue.maxSize)
              then r == Ok(RetryOutcome("retry", attempt + 1, Some(newId), false, d.reason))
                   && queue.arrivals == old(queue.arrivals) + [item]
              else r == Err(NotEnqueued(QueueFull)))
    {
      hide Evaluate;
      DecisionIsOneOfTwo(policy, context, error, attempt);
      var evaluated := Evaluate(policy, context, error, attempt);
      if evaluated.Err? {
        return Err(Undecided(evaluated.error));
      }
      var decision := evaluated.value;
      if decision.routeToDeadLetter {
        var logged := queue.MarkFailed(original, decision.reason);
        var added := deadLetter.Enqueue(original, decision.reason, attempt, now);
        return Ok(RetryOutcome("dead_letter", decision.attempt, None, added, decision.reason));
      }
      if !decision.shouldRetry {
        return Ok(RetryOutcome("noop", decision.attempt, None, false, decision.reason));
      }
      var retryItem := FreshItem(newId, original.cycleId, priority, "retry", now);
      var enqueued := queue.Enqueue(retryItem);
      if enqueued.Err? {
        return Err(NotEnqueued(enqueued.error));
      }
      return Ok(RetryOutcome("retry", decision.attempt, Some(newId), false, decision.reason));
    }

    /**
     * Replay the oldest dead letter. The entry is taken out before the queue is asked: waiting
     * and dead-lettered work together stay as many exactly when there is no entry or the queue
     * has room; otherwise the entry is gone and the call fails.
     */
    method HandleReplay(priority: Priority, newId: string, now: string)
      returns (r: Result<Option<RetryOutcome>, QueueError>)
      requires queue.Valid() && deadLetter.Valid()
      modifies queue, deadLetter
      ensures queue.Valid() && deadLetter.Valid()
      ensures queue.completed == old(queue.completed) && queue.failed == old(queue.failed)
      ensures |queue.arrivals| + |deadLetter.entries| == |old(queue.arrivals)| + |old(deadLetter.entries)|
         <==> old(deadLetter.entries) == [] || HasRoom(|old(queue.arrivals)|, queue.maxSize)
      ensures old(deadLetter.entries) == [] ==>
                r == Ok(None) && queue.arrivals == old(queue.arrivals) && deadLetter.entries == []
      ensures old(deadLetter.entries) != [] ==>
                && deadLetter.entries == old(deadLetter.entries)[1..]
                && var entry := old(deadLetter.entries)[0];
                if HasRoom(|old(queue.arrivals)|, queue.maxSize)
                then r.Ok? && queue.arrivals
                              == old(queue.arrivals) + [WorkItem(newId, entry.item.cycleId, priority, Pending, "replay",
                                                                 now, None, None, None, None)]
                     && r.value == Some(RetryOutcome("retry", entry.attempt, Some(newId), false,
                                                     "replayed from DLQ: " + entry.reason))
                else r == Err(QueueFull) && queue.arrivals == old(queue.arrivals)
    {
      var entry := deadLetter.PopOldest();
      if entry.None? {
        return Ok(None);
      }
      var retryItem := FreshItem(newId, entry.value.item.cycleId, priority, "replay", now);
      var enqueued := queue.Enqueue(retryItem);
      if enqueued.Err? {
        return Err(enqueued.error);
      }
      return Ok(Some(RetryOutcome("retry", entry.value.attempt, Some(newId), false,
                                  "replayed from DLQ: " + entry.value.reason)));
    }
  }
}
