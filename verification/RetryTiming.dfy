/** Failure categories, lifecycle policy and the retry decision. */
module WorkPolicy {
  import opened Wrappers
  import opened IngestionWork
  import opened ErrorText

  datatype WorkErrorCategory =
    | ConnectorTransient
    | RateLimited
    | PersistenceOperational
    | CheckpointConflict
    | DownstreamTransient
    | Unexpected
    | UnsupportedKind
    | PayloadIncompatible
    | PayloadInvalid
    | DependencyMissing
    | BindingMismatch
    | AuthoritativeConflict
    | HandlerContractViolation
    | DomainInvariant
    | AttemptsExhausted
  {
    predicate Retryable() {
      this in {ConnectorTransient, RateLimited, PersistenceOperational, CheckpointConflict,
               DownstreamTransient, Unexpected}
    }
  }

  datatype WorkError = WorkError(category: WorkErrorCategory, message: string, retryable: bool) {
    predicate Valid() {
      && message != "" && |message| <= MAX_MESSAGE && Sanitize(message) == message
      && retryable == category.Retryable()
    }
  }

  /** Sanitizing twice yields a message that a WorkError accepts, unless nothing is left. */
  lemma SanitizedTwiceAccepted(category: WorkErrorCategory, message: string)
    ensures WorkError(category, Sanitize(Sanitize(message)), category.Retryable()).Valid()
       <==> Collapse(message) != []
  {
    FixpointIff(message);
    SanitizedForm(message);
    SanitizedForm(Sanitize(message));
  }

  datatype KindPolicy = KindPolicy(
    kind: WorkItemKind, maximumAttempts: int, leaseDuration: int, renewalInterval: int)
  {
    predicate Valid() {
      maximumAttempts >= 1 && 1 <= renewalInterval < leaseDuration
    }
  }

  datatype LifecyclePolicy = LifecyclePolicy(
    version: string, kinds: seq<KindPolicy>, initialDelay: int, maximumDelay: int,
    multiplier: int, jitter: int)
  {
    predicate Valid() {
      && ValidVersion(version)
      && (forall i :: 0 <= i < |kinds| ==> kinds[i].Valid())
      && (forall i, j :: 0 <= i < j < |kinds| ==> kinds[i].kind != kinds[j].kind)
      && (forall kind :: Configures(kinds, kind))
      && 1 <= initialDelay <= maximumDelay
      && multiplier >= BASIS && 0 <= jitter < BASIS
    }

    /** The policy of a kind: the first entry for it. */
    function ForKind(kind: WorkItemKind): (r: KindPolicy)
      requires Valid()
      ensures r in kinds && r.kind == kind && r.Valid()
    {
      FirstFor(kinds, kind)
    }
  }

  predicate Configures(kinds: seq<KindPolicy>, kind: WorkItemKind) {
    exists i :: 0 <= i < |kinds| && kinds[i].kind == kind
  }

  function FirstFor(kinds: seq<KindPolicy>, kind: WorkItemKind): (r: KindPolicy)
    requires Configures(kinds, kind)
    ensures r in kinds && r.kind == kind
  {
    if kinds[0].kind == kind then kinds[0]
    else
      assert Configures(kinds[1..], kind) by {
        var i :| 0 <= i < |kinds| && kinds[i].kind == kind;
        assert kinds[1..][i - 1].kind == kind;
      }
      FirstFor(kinds[1..], kind)
  }

  const BASIS := 10_000

  predicate IsNameChar(c: char) {
    'A' <= c <= 'Z' || 'a' <= c <= 'z' || '0' <= c <= '9' || c == '_' || c == '-'
  }

  predicate ValidVersion(s: string) {
    1 <= |s| <= 64 && forall i :: 0 <= i < |s| ==> IsNameChar(s[i]) || s[i] == '.'
  }

  datatype RetryDecision = RetryDecision(
    policyVersion: string, maximumAttempts: int, attemptCount: int, exhausted: bool,
    availableAt: Option<int>)
  {
    predicate Valid() {
      && ValidVersion(policyVersion) && maximumAttempts >= 1 && attemptCount >= 1
      && exhausted == (attemptCount >= maximumAttempts)
      && availableAt.None? == exhausted
    }
  }
}

/** Integer backoff with deterministic jitter and a provider hint: `evaluate_retry`. */
module RetryTiming {
  import opened Wrappers
  import opened IngestionWork
  import opened WorkPolicy
  import opened Floats
  import Decimal

  /** Times are in microseconds, as `datetime` has them; delays are in whole seconds. */
  const SECOND := 1_000_000

  const MAX_DIGEST: nat := 0xFFFF_FFFF_FFFF_FFFF

  /** The first eight bytes of a digest. */
  type Digest = n: nat | n <= MAX_DIGEST

  function Pow(b: nat, e: nat): nat {
    if e == 0 then 1 else b * Pow(b, e - 1)
  }

  lemma {:induction false} PowPositive(b: nat, e: nat)
    requires b > 0
    ensures Pow(b, e) > 0
  {
    if e > 0 {
      PowPositive(b, e - 1);
      assert b * Pow(b, e - 1) > 0;
    }
  }

  /** `initial * multiplier**e // 10_000**e` */
  function Uncapped(initial: nat, multiplier: nat, e: nat): nat {
    PowPositive(BASIS, e);
    initial * Pow(multiplier, e) / Pow(BASIS, e)
  }

  function Min(a: int, b: int): int {
    if a <= b then a else b
  }

  function Max(a: int, b: int): int {
    if a >= b then a else b
  }

  function Base(policy: LifecyclePolicy, e: nat): int
    requires policy.Valid()
  {
    Min(policy.maximumDelay, Uncapped(policy.initialDelay, policy.multiplier, e))
  }

  function JitterOffset(jitter: nat, digest: Digest): int {
    2 * jitter * digest / MAX_DIGEST - jitter
  }

  function CalculatedDelay(policy: LifecyclePolicy, e: nat, digest: Digest): int
    requires policy.Valid()
  {
    Max(1, Min(policy.maximumDelay,
               Base(policy, e) * (BASIS + JitterOffset(policy.jitter, digest)) / BASIS))
  }

  /** `math.ceil` */
  function Ceil(x: real): int {
    -(-x).Floor
  }

  /** What a provider asks to wait: an integer, a finite float, or anything else. */
  datatype Hint = Unusable | Whole(n: int) | Finite(x: real)
  {
    /** Asking whether it is finite fails: the integer has no float. */
    predicate Overflows() {
      Whole? && !Fits(n)
    }

    /** The seconds to wait, if it is a number that is not negative. */
    function Seconds(): Option<real> {
      match this
      case Unusable => None
      case Whole(n) => if n < 0 then None else Some(n as real)
      case Finite(x) => if x < 0.0 then None else Some(x)
    }
  }

  /** What an evaluation raises: the hint has no float, or the time of the retry is past the last one. */
  datatype RetryError = HintOverflow | TimeOverflow

  function ValidatedHint(hint: Hint): Result<Option<real>, RetryError> {
    if hint.Overflows() then Err(HintOverflow) else Ok(hint.Seconds())
  }

  function Delay(policy: LifecyclePolicy, e: nat, digest: Digest, hint: Option<real>): int
    requires policy.Valid()
  {
    var calculated := CalculatedDelay(policy, e, digest);
    match hint
    case None => calculated
    case Some(h) => Min(policy.maximumDelay, Max(calculated, Ceil(h)))
  }

  function Seed(policy: LifecyclePolicy, workItemId: string, attemptCount: int): string {
    policy.version + ":" + workItemId + ":" + Decimal.FromInt(attemptCount)
  }

  /** The wait after this attempt; `digest` is the first eight bytes of SHA-256 as a number. */
  function DelayAfter(policy: LifecyclePolicy, workItemId: string, attemptCount: int, hint: Hint,
                      digest: string -> Digest): int
    requires policy.Valid() && attemptCount >= 1
  {
    Delay(policy, attemptCount - 1, digest(Seed(policy, workItemId, attemptCount)), hint.Seconds())
  }

  /** `last` is the last moment that has a time, the end of the year 9999. */
  function EvaluateRetry(policy: LifecyclePolicy, kind: WorkItemKind, workItemId: string, attemptCount: int,
                         failedAt: int, last: int, hint: Hint, digest: string -> Digest)
    : Result<RetryDecision, RetryError>
    requires policy.Valid() && attemptCount >= 1
  {
    var maximum := policy.ForKind(kind).maximumAttempts;
    if attemptCount >= maximum then Ok(RetryDecision(policy.version, maximum, attemptCount, true, None))
    else
      var usable :- ValidatedHint(hint);
      var delay := Delay(policy, attemptCount - 1, digest(Seed(policy, workItemId, attemptCount)), usable);
      var available := failedAt + delay * SECOND;
      if available > last then Err(TimeOverflow)
      else Ok(RetryDecision(policy.version, maximum, attemptCount, false, Some(available)))
  }

  // ---- division and powers ----

  lemma DivMul(a: int, b: int)
    requires b > 0
    ensures a / b * b <= a < a / b * b + b
  {
  }

  /** A quotient is at least `q` exactly when the numerator is at least `q` times the divisor. */
  lemma QuotientAtLeast(a: int, b: int, q: int)
    requires b > 0
    ensures a / b >= q <==> a >= q * b
  {
    DivMul(a, b);
    if a / b >= q {
      MulMonotone(q, a / b, b);
    } else {
      MulMonotone(a / b + 1, q, b);
      assert (a / b + 1) * b == a / b * b + b;
    }
  }

  lemma MulMonotone(x: int, y: int, b: int)
    requires x <= y && b >= 0
    ensures x * b <= y * b
  {
  }

  // ---- backoff ----

  /** Each further attempt multiplies by at least one, and rounding down never undoes that. */
  lemma UncappedStep(initial: nat, multiplier: nat, e: nat)
    requires multiplier >= BASIS
    ensures Uncapped(initial, multiplier, e) <= Uncapped(initial, multiplier, e + 1)
  {
    PowPositive(BASIS, e);
    PowPositive(BASIS, e + 1);
    var q := Uncapped(initial, multiplier, e);
    var n, d := initial * Pow(multiplier, e), Pow(BASIS, e);
    QuotientAtLeast(n, d, q);
    calc {
      q * Pow(BASIS, e + 1);
    ==
      q * d * BASIS;
    <= { MulMonotone(q * d, n, BASIS); }
      n * BASIS;
    <= { MulMonotone(BASIS, multiplier, n); }
      n * multiplier;
    ==
      initial * Pow(multiplier, e + 1);
    }
    QuotientAtLeast(initial * Pow(multiplier, e + 1), Pow(BASIS, e + 1), q);
  }

  /** Uncapped backoff never drops, and starts at the initial delay. */
  lemma {:induction false} UncappedMonotone(initial: nat, multiplier: nat, e: nat, f: nat)
    requires multiplier >= BASIS && e <= f
    ensures Uncapped(initial, multiplier, e) <= Uncapped(initial, multiplier, f)
    ensures initial <= Uncapped(initial, multiplier, f)
    decreases f
  {
    if f == 0 {
      assert Uncapped(initial, multiplier, 0) == initial * 1 / 1;
    } else {
      UncappedMonotone(initial, multiplier, if e < f then e else e - 1, f - 1);
      UncappedStep(initial, multiplier, f - 1);
    }
  }

  /** The capped base is between 1 and the maximum, monotone, and stays at the cap once there. */
  lemma BaseMonotone(policy: LifecyclePolicy, e: nat, f: nat)
    requires policy.Valid() && e <= f
    ensures 1 <= policy.initialDelay <= Base(policy, e) <= Base(policy, f) <= policy.maximumDelay
    ensures Base(policy, e) == policy.maximumDelay ==> Base(policy, f) == policy.maximumDelay
  {
    UncappedMonotone(policy.initialDelay, policy.multiplier, e, f);
    UncappedMonotone(policy.initialDelay, policy.multiplier, e, e);
  }

  /** Bernoulli's inequality in basis points. */
  lemma {:induction false} PowGrows(multiplier: nat, e: nat)
    requires multiplier >= BASIS
    ensures Pow(multiplier, e) * BASIS >= Pow(BASIS, e) * (BASIS + e * (multiplier - BASIS))
  {
    if e > 0 {
      PowGrows(multiplier, e - 1);
      PowPositive(BASIS, e - 1);
      var x := multiplier - BASIS;
      MulMonotone(0, e - 1, x);
      GrowthStep(Pow(BASIS, e - 1), BASIS + (e - 1) * x, x, Pow(multiplier, e - 1));
      assert (e - 1) * x + x == e * x;
      assert Pow(multiplier, e - 1) * multiplier == Pow(multiplier, e);
      assert Pow(BASIS, e - 1) * BASIS == Pow(BASIS, e);
    }
  }

  lemma GrowthStep(b: nat, k: nat, x: nat, p: nat)
    requires p * BASIS >= b * k && k >= BASIS
    ensures p * (BASIS + x) * BASIS >= b * BASIS * (k + x)
  {
    MulMonotone(b * k, p * BASIS, BASIS + x);
    MulMonotone(BASIS, k, x);
    MulMonotoneLeft(k * BASIS + BASIS * x, k * (BASIS + x), b);
    assert b * (k * BASIS + BASIS * x) == b * BASIS * (k + x);
    assert b * (k * (BASIS + x)) == b * k * (BASIS + x);
    assert p * BASIS * (BASIS + x) == p * (BASIS + x) * BASIS;
  }

  lemma MulMonotoneLeft(x: int, y: int, b: int)
    requires x <= y && b >= 0
    ensures b * x <= b * y
  {
  }

  /** With a multiplier above one, the cap is reached after finitely many attempts. */
  lemma CapReached(policy: LifecyclePolicy, e: nat)
    requires policy.Valid() && policy.multiplier > BASIS && e >= BASIS * policy.maximumDelay
    ensures Base(policy, e) == policy.maximumDelay
  {
    var m, b := policy.multiplier, Pow(BASIS, e);
    PowGrows(m, e);
    PowPositive(BASIS, e);
    MulMonotoneLeft(1, m - BASIS, e);
    MulMonotoneLeft(BASIS * policy.maximumDelay, BASIS + e * (m - BASIS), b);
    assert b * (BASIS * policy.maximumDelay) == b * policy.maximumDelay * BASIS;
    assert Pow(m, e) >= b * policy.maximumDelay;
    MulMonotone(1, policy.initialDelay, Pow(m, e));
    QuotientAtLeast(policy.initialDelay * Pow(m, e), b, policy.maximumDelay);
  }

  // ---- jitter ----

  /** The offset lies within the jitter on both sides, reaches both ends, and grows with the digest. */
  lemma JitterWithin(jitter: nat, digest: Digest)
    ensures 0 - jitter <= JitterOffset(jitter, digest) <= jitter
    ensures digest == 0 ==> JitterOffset(jitter, digest) == 0 - jitter
    ensures digest == MAX_DIGEST ==> JitterOffset(jitter, digest) == jitter
  {
    var n := 2 * jitter * digest;
    QuotientAtLeast(n, MAX_DIGEST, 0);
    MulMonotoneLeft(digest, MAX_DIGEST, 2 * jitter);
    QuotientAtLeast(n, MAX_DIGEST, 2 * jitter + 1);
    QuotientAtLeast(n, MAX_DIGEST, 2 * jitter);
    QuotientAtLeast(n, MAX_DIGEST, 1);
  }

  /** The offset is the digest's share of the whole range, rounded down, counted from the lower end. */
  lemma JitterIsShare(jitter: nat, digest: Digest, offset: int)
    ensures offset == JitterOffset(jitter, digest)
       <==> (offset + jitter) * MAX_DIGEST <= 2 * jitter * digest < (offset + jitter + 1) * MAX_DIGEST
  {
    var n := 2 * jitter * digest;
    QuotientAtLeast(n, MAX_DIGEST, offset + jitter);
    QuotientAtLeast(n, MAX_DIGEST, offset + jitter + 1);
  }

  lemma QuotientMonotone(a: int, c: int, b: int)
    requires b > 0 && a <= c
    ensures a / b <= c / b
  {
    QuotientAtLeast(a, b, a / b);
    QuotientAtLeast(c, b, a / b);
  }

  /** The calculated delay lies between the two ends of the jitter, and is the base without jitter. */
  lemma CalculatedWithin(policy: LifecyclePolicy, e: nat, digest: Digest)
    requires policy.Valid()
    ensures var base, jitter := Base(policy, e), policy.jitter;
      && 1 <= CalculatedDelay(policy, e, digest) <= policy.maximumDelay
      && base * (BASIS - jitter) / BASIS <= CalculatedDelay(policy, e, digest)
      && CalculatedDelay(policy, e, digest) <= Max(1, base * (BASIS + jitter) / BASIS)
      && (jitter == 0 ==> CalculatedDelay(policy, e, digest) == base)
  {
    var base, jitter := Base(policy, e), policy.jitter;
    var offset := JitterOffset(jitter, digest);
    BaseMonotone(policy, e, e);
    JitterWithin(jitter, digest);
    MulMonotoneLeft(BASIS - jitter, BASIS + offset, base);
    MulMonotoneLeft(BASIS + offset, BASIS + jitter, base);
    QuotientMonotone(base * (BASIS - jitter), base * (BASIS + offset), BASIS);
    QuotientMonotone(base * (BASIS + offset), base * (BASIS + jitter), BASIS);
    MulMonotoneLeft(BASIS - jitter, BASIS, base);
    QuotientMonotone(base * (BASIS - jitter), base * BASIS, BASIS);
    assert base * BASIS / BASIS == base;
  }

  lemma CeilBounds(x: real)
    ensures x <= Ceil(x) as real < x + 1.0
    ensures x >= 0.0 ==> Ceil(x) >= 0
  {
  }

  /**
   * The delay is always between one second and the maximum. A usable hint is waited for up to the
   * maximum, never shortens the wait, and lengthens it by less than a second more than it asks.
   */
  lemma DelayEnvelope(policy: LifecyclePolicy, e: nat, digest: Digest, hint: Hint)
    requires policy.Valid()
    ensures var d := Delay(policy, e, digest, hint.Seconds());
      && 1 <= d <= policy.maximumDelay
      && CalculatedDelay(policy, e, digest) <= d
      && match hint.Seconds()
         case None => d == CalculatedDelay(policy, e, digest)
         case Some(h) =>
           && (h <= policy.maximumDelay as real ==> h <= d as real)
           && (h > policy.maximumDelay as real ==> d == policy.maximumDelay)
           && (d > CalculatedDelay(policy, e, digest) ==> d as real < h + 1.0)
  {
    hide CalculatedDelay, Ceil;
    CalculatedWithin(policy, e, digest);
    if hint.Seconds().Some? {
      CeilBounds(hint.Seconds().value);
    }
  }

  /** The evaluation has a decision: the work is exhausted, or it has a float for its hint and a time for its retry. */
  predicate HasDecision(policy: LifecyclePolicy, kind: WorkItemKind, workItemId: string, attemptCount: int,
                        failedAt: int, last: int, hint: Hint, digest: string -> Digest)
    requires policy.Valid() && attemptCount >= 1
  {
    || attemptCount >= policy.ForKind(kind).maximumAttempts
    || (!hint.Overflows() && failedAt + DelayAfter(policy, workItemId, attemptCount, hint, digest) * SECOND <= last)
  }

  // ---- the waits ----

  /** The backoff after an attempt: grown by the multiplier since the first one, rounded down, and capped. */
  function Backoff(policy: LifecyclePolicy, attemptCount: int): int
    requires policy.Valid() && attemptCount >= 1
  {
    var e := attemptCount - 1;
    PowPositive(10_000, e);
    var grown := policy.initialDelay * Pow(policy.multiplier, e) / Pow(10_000, e);
    if grown < policy.maximumDelay then grown else policy.maximumDelay
  }

  /** Between the two ends of the jitter around the backoff, and at least a second. */
  predicate Jittered(policy: LifecyclePolicy, attemptCount: int, wait: int)
    requires policy.Valid() && attemptCount >= 1
  {
    var backoff := Backoff(policy, attemptCount);
    && backoff * (10_000 - policy.jitter) / 10_000 <= wait
    && (wait <= 1 || wait <= backoff * (10_000 + policy.jitter) / 10_000)
    && (policy.jitter == 0 ==> wait == backoff)
  }

  /**
   * At least the seconds that are asked for, up to the maximum, and at least the backoff; longer
   * than the backoff by less than a second more than is asked for.
   */
  predicate Extended(policy: LifecyclePolicy, attemptCount: int, asked: real, wait: int)
    requires policy.Valid() && attemptCount >= 1
  {
    var backoff := Backoff(policy, attemptCount);
    && (asked <= wait as real || wait == policy.maximumDelay)
    && backoff * (10_000 - policy.jitter) / 10_000 <= wait
    && (Jittered(policy, attemptCount, wait) || wait as real < asked + 1.0)
    && (policy.jitter == 0 && asked <= backoff as real ==> wait == backoff)
  }

  /** The seconds to wait after an attempt that has another one left. */
  predicate IsWait(policy: LifecyclePolicy, attemptCount: int, hint: Hint, wait: int)
    requires policy.Valid() && attemptCount >= 1
  {
    && 1 <= wait <= policy.maximumDelay
    && match hint
       case Unusable => Jittered(policy, attemptCount, wait)
       case Whole(n) =>
         if n < 0 then Jittered(policy, attemptCount, wait) else Extended(policy, attemptCount, n as real, wait)
       case Finite(x) =>
         if x < 0.0 then Jittered(policy, attemptCount, wait) else Extended(policy, attemptCount, x, wait)
  }

  lemma CalculatedJittered(policy: LifecyclePolicy, attemptCount: int, digest: Digest)
    requires policy.Valid() && attemptCount >= 1
    ensures Jittered(policy, attemptCount, CalculatedDelay(policy, attemptCount - 1, digest))
    ensures Base(policy, attemptCount - 1) == Backoff(policy, attemptCount)
  {
    hide CalculatedDelay;
    CalculatedWithin(policy, attemptCount - 1, digest);
  }

  lemma DelayIsWait(policy: LifecyclePolicy, attemptCount: int, digest: Digest, hint: Hint)
    requires policy.Valid() && attemptCount >= 1
    ensures IsWait(policy, attemptCount, hint, Delay(policy, attemptCount - 1, digest, hint.Seconds()))
  {
    hide CalculatedDelay, Backoff, Ceil, LifecyclePolicy.Valid;
    CalculatedWithin(policy, attemptCount - 1, digest);
    CalculatedJittered(policy, attemptCount, digest);
    if hint.Seconds().Some? {
      CeilBounds(hint.Seconds().value);
    }
  }

  /**
   * When there is a decision, `RetryDecision` accepts it: exhausted exactly at the attempt budget,
   * and otherwise available after a whole number of seconds that is the backoff with its jitter,
   * extended to what the provider asks for. There is one exactly when the work is exhausted or the
   * hint does not overflow and the retry's time is not past the last one; an integer hint with a
   * float and the maximal delay before the last time suffice.
   */
  lemma DecisionAccepted(policy: LifecyclePolicy, kind: WorkItemKind, workItemId: string, attemptCount: int,
                         failedAt: int, last: int, hint: Hint, digest: string -> Digest)
    requires policy.Valid() && attemptCount >= 1
    ensures var r := EvaluateRetry(policy, kind, workItemId, attemptCount, failedAt, last, hint, digest);
      && (r.Ok? <==> HasDecision(policy, kind, workItemId, attemptCount, failedAt, last, hint, digest))
      && (r.Ok? <== !hint.Overflows() && failedAt + policy.maximumDelay * SECOND <= last)
      && (r.Err? ==> (r.error.HintOverflow? <==> hint.Overflows()))
      && (r.Ok? ==> IsDecision(policy, kind, attemptCount, failedAt, last, hint, r.value))
  {
    hide Delay, ValidVersion, IsWait, LifecyclePolicy.ForKind, IsDecision;
    var (delay, maximum) := (DelayAfter(policy, workItemId, attemptCount, hint, digest),
                             policy.ForKind(kind).maximumAttempts);
    DelayIsWait(policy, attemptCount, digest(Seed(policy, workItemId, attemptCount)), hint);
    DelayEnvelope(policy, attemptCount - 1, digest(Seed(policy, workItemId, attemptCount)), hint);
    ExhaustedDecision(policy, kind, attemptCount, failedAt, last, hint);
    if attemptCount < maximum && failedAt + delay * SECOND <= last {
      WaitingDecision(policy, kind, attemptCount, failedAt, last, hint, delay);
    }
  }

  lemma ExhaustedDecision(policy: LifecyclePolicy, kind: WorkItemKind, attemptCount: int, failedAt: int, last: int,
                          hint: Hint)
    requires policy.Valid() && attemptCount >= 1
    ensures var maximum := policy.ForKind(kind).maximumAttempts;
      attemptCount >= maximum ==>
        IsDecision(policy, kind, attemptCount, failedAt, last, hint,
                   RetryDecision(policy.version, maximum, attemptCount, true, None))
  {
    hide ValidVersion, IsWait, LifecyclePolicy.ForKind;
  }

  lemma WaitingDecision(policy: LifecyclePolicy, kind: WorkItemKind, attemptCount: int, failedAt: int, last: int,
                        hint: Hint, wait: int)
    requires policy.Valid() && 1 <= attemptCount < policy.ForKind(kind).maximumAttempts
    requires IsWait(policy, attemptCount, hint, wait) && failedAt + wait * SECOND <= last
    ensures IsDecision(policy, kind, attemptCount, failedAt, last, hint,
                       RetryDecision(policy.version, policy.ForKind(kind).maximumAttempts, attemptCount, false,
                                     Some(failedAt + wait * SECOND)))
  {
    hide ValidVersion, LifecyclePolicy.ForKind, Jittered, Extended;
    assert failedAt + wait * SECOND - failedAt == wait * SECOND;
    WholeSeconds(wait);
  }

  lemma WholeSeconds(wait: int)
    ensures wait * SECOND % SECOND == 0 && wait * SECOND / SECOND == wait
  {
  }

  // ---- the digest ----

  /** A larger digest never waits less. */
  lemma CalculatedMonotone(policy: LifecyclePolicy, e: nat, digest: Digest, other: Digest)
    requires policy.Valid() && digest <= other
    ensures CalculatedDelay(policy, e, digest) <= CalculatedDelay(policy, e, other)
  {
    BaseMonotone(policy, e, e);
    MulMonotoneLeft(digest, other, 2 * policy.jitter);
    QuotientMonotone(2 * policy.jitter * digest, 2 * policy.jitter * other, MAX_DIGEST);
    var (x, y) := (BASIS + JitterOffset(policy.jitter, digest), BASIS + JitterOffset(policy.jitter, other));
    MulMonotoneLeft(x, y, Base(policy, e));
    QuotientMonotone(Base(policy, e) * x, Base(policy, e) * y, BASIS);
  }

  /** The seconds between a failure and the retry that its evaluation decides on. */
  function Waited(policy: LifecyclePolicy, kind: WorkItemKind, workItemId: string, attemptCount: int, failedAt: int,
                  last: int, hint: Hint, digest: string -> Digest): int
    requires policy.Valid() && 1 <= attemptCount < policy.ForKind(kind).maximumAttempts
    requires !hint.Overflows() && failedAt + policy.maximumDelay * SECOND <= last
  {
    DecisionAccepted(policy, kind, workItemId, attemptCount, failedAt, last, hint, digest);
    (EvaluateRetry(policy, kind, workItemId, attemptCount, failedAt, last, hint, digest).value.availableAt.value
     - failedAt) / SECOND
  }

  /**
   * Of the digest function only its value at version, work item and attempt matters. A larger
   * value never shortens the wait, and without a hint the smallest and the largest value give the
   * two ends of the jitter.
   */
  lemma WaitFollowsDigest(policy: LifecyclePolicy, kind: WorkItemKind, workItemId: string, attemptCount: int,
                          failedAt: int, last: int, hint: Hint, digest: string -> Digest, other: string -> Digest)
    requires policy.Valid() && 1 <= attemptCount < policy.ForKind(kind).maximumAttempts
    requires !hint.Overflows() && failedAt + policy.maximumDelay * SECOND <= last
    ensures var seed := policy.version + ":" + workItemId + ":" + Decimal.FromInt(attemptCount);
      var wait := Waited(policy, kind, workItemId, attemptCount, failedAt, last, hint, digest);
      var backoff := Backoff(policy, attemptCount);
      && (digest(seed) <= other(seed) ==>
            wait <= Waited(policy, kind, workItemId, attemptCount, failedAt, last, hint, other))
      && (hint.Unusable? && digest(seed) == 0 ==> wait == Max(1, backoff * (10_000 - policy.jitter) / 10_000))
      && (hint.Unusable? && digest(seed) == MAX_DIGEST ==>
            wait == Min(policy.maximumDelay, backoff * (10_000 + policy.jitter) / 10_000))
  {
    hide Hint.Overflows, Backoff, CalculatedDelay, Ceil, LifecyclePolicy.ForKind;
    var seed := Seed(policy, workItemId, attemptCount);
    WaitedIsDelay(policy, kind, workItemId, attemptCount, failedAt, last, hint, digest);
    WaitedIsDelay(policy, kind, workItemId, attemptCount, failedAt, last, hint, other);
    if digest(seed) <= other(seed) {
      CalculatedMonotone(policy, attemptCount - 1, digest(seed), other(seed));
    }
    CalculatedEnds(policy, attemptCount);
  }

  lemma WaitedIsDelay(policy: LifecyclePolicy, kind: WorkItemKind, workItemId: string, attemptCount: int, failedAt: int,
                      last: int, hint: Hint, digest: string -> Digest)
    requires policy.Valid() && 1 <= attemptCount < policy.ForKind(kind).maximumAttempts
    requires !hint.Overflows() && failedAt + policy.maximumDelay * SECOND <= last
    ensures Waited(policy, kind, workItemId, attemptCount, failedAt, last, hint, digest)
         == Delay(policy, attemptCount - 1, digest(Seed(policy, workItemId, attemptCount)), hint.Seconds())
  {
    hide Delay;
    DelayEnvelope(policy, attemptCount - 1, digest(Seed(policy, workItemId, attemptCount)), hint);
  }

  lemma CalculatedEnds(policy: LifecyclePolicy, attemptCount: int)
    requires policy.Valid() && attemptCount >= 1
    ensures var (e, backoff, jitter) := (attemptCount - 1, Backoff(policy, attemptCount), policy.jitter);
      && CalculatedDelay(policy, e, 0) == Max(1, backoff * (10_000 - jitter) / 10_000)
      && CalculatedDelay(policy, e, MAX_DIGEST) == Min(policy.maximumDelay, backoff * (10_000 + jitter) / 10_000)
  {
    var (e, jitter) := (attemptCount - 1, policy.jitter);
    var base := Base(policy, e);
    BaseMonotone(policy, e, e);
    JitterWithin(jitter, 0);
    JitterWithin(jitter, MAX_DIGEST);
    MulMonotoneLeft(BASIS - jitter, BASIS, base);
    MulMonotoneLeft(BASIS, BASIS + jitter, base);
    QuotientMonotone(base * (BASIS - jitter), base * BASIS, BASIS);
    QuotientMonotone(base * BASIS, base * (BASIS + jitter), BASIS);
    assert base * BASIS / BASIS == base;
  }

  /** Under one policy, different attempts and different work items draw different digests. */
  lemma SeedInjective(policy: LifecyclePolicy, a: string, m: nat, b: string, n: nat)
    ensures Seed(policy, a, m) == Seed(policy, b, n) <==> a == b && m == n
  {
    hide Decimal.Digits, Decimal.Value;
    var (x, y) := (Decimal.Digits(m), Decimal.Digits(n));
    Decimal.DigitsRoundTrip(m);
    Decimal.DigitsRoundTrip(n);
    if Seed(policy, a, m) == Seed(policy, b, n) {
      var v := policy.version + ":";
      AfterVersion(v, a, x);
      AfterVersion(v, b, y);
      LastColon(a, x, b, y);
    }
  }

  lemma AfterVersion(v: string, a: string, x: string)
    ensures (v + a + ":" + x)[|v|..] == a + ":" + x
  {
  }

  lemma LastColon(a: string, x: string, b: string, y: string)
    requires Decimal.AllDigits(x) && Decimal.AllDigits(y) && a + ":" + x == b + ":" + y
    ensures a == b && x == y
  {
    var t := a + ":" + x;
    ColonAt(a, x, |b|);
    ColonAt(b, y, |a|);
    assert t == b + ":" + y;
    assert t[..|a|] == a && (b + ":" + y)[..|b|] == b;
    assert t[|a| + 1..] == x && (b + ":" + y)[|b| + 1..] == y;
  }

  lemma ColonAt(a: string, x: string, i: nat)
    requires Decimal.AllDigits(x)
    ensures |a| <= i < |a| + 1 + |x| && (a + ":" + x)[i] == ':' ==> i == |a|
    ensures (a + ":" + x)[|a|] == ':'
  {
  }

  predicate IsDecision(policy: LifecyclePolicy, kind: WorkItemKind, attemptCount: int, failedAt: int, last: int,
                       hint: Hint, d: RetryDecision)
    requires policy.Valid() && attemptCount >= 1
  {
    && d.Valid() && d.policyVersion == policy.version && d.attemptCount == attemptCount
    && d.maximumAttempts == policy.ForKind(kind).maximumAttempts
    && (d.exhausted <==> attemptCount >= d.maximumAttempts)
    && (!d.exhausted ==>
          && failedAt < d.availableAt.value <= last
          && (d.availableAt.value - failedAt) % SECOND == 0
          && IsWait(policy, attemptCount, hint, (d.availableAt.value - failedAt) / SECOND))
  }
}
