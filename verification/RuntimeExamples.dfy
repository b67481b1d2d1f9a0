/** Concrete runs of the in-process runtime in which a log, an entry or a decision does not follow the work. */
module RuntimeExamples {
  import opened Wrappers
  import opened Sorting
  import opened RuntimeItems
  import opened RuntimeQueue
  import opened CycleDispatch
  import opened Floats
  import opened RetryManagement
  import opened RetryOrchestration
  import Decimal

  function Item(id: string): WorkItem {
    Prioritized(id, Normal)
  }

  // ---- a success and a failure ----

  /** The cycle of this item ends with a summary, any other with an exception. */
  const RUN: Executor := (item: WorkItem) => if item.id == "good" then Ok("signals=1") else Err("ValueError: bad")

  const CLOCK: nat -> string := (i: nat) => if i == 0 then "first" else "second"

  function Prioritized(id: string, priority: Priority): WorkItem {
    WorkItem(id, "cycle", priority, Pending, "manual", "t", None, None, None, None)
  }

  /** The item of the higher priority arrives last and is served first; it fails, and the other one completes. */
  method DrainBoth() returns (cycles: nat, completed: seq<WorkItem>, failed: seq<WorkItem>, waiting: nat)
    ensures cycles == 2 && waiting == 0
    ensures completed == [WorkItem("good", "cycle", Low, Completed, "manual", "t", Some("second"), None,
                                   Some("signals=1"), None)]
    ensures failed == [WorkItem("bad", "cycle", Highest, Failed, "manual", "t", Some("first"), None, None,
                                Some("ValueError: bad"))]
  {
    hide SortBy, Log, CyclesLogged, Only;
    var queue := new WorkQueue(None);
    var (good, bad) := (Prioritized("good", Low), Prioritized("bad", Highest));
    var first := queue.Enqueue(good);
    var second := queue.Enqueue(bad);
    assert queue.arrivals == [good, bad];
    BadFirst(good, bad);
    var dispatcher := new CycleDispatcher(RUN, queue);
    cycles := dispatcher.Drain(None, CLOCK);
    completed, failed := queue.completed, queue.failed;
    assert completed[0..] == completed && failed[0..] == failed;
    BothLogged(good, bad, completed, failed);
    waiting := queue.Size();
  }

  lemma BadFirst(good: WorkItem, bad: WorkItem)
    requires good.priority == Low && bad.priority == Highest
    ensures SortBy(BY_PRIORITY, [good, bad]) == [bad, good]
  {
    assert [good, bad][1..] == [bad];
    OneWaits(bad);
    OneWaits(good);
  }

  /** One item of each priority, the lowest first to arrive: they are served the other way round. */
  lemma EachPriorityInOrder(a: WorkItem, b: WorkItem, c: WorkItem, d: WorkItem, e: WorkItem)
    requires a.priority == Lowest && b.priority == Low && c.priority == Normal && d.priority == High
    requires e.priority == Highest
    ensures SortBy(BY_PRIORITY, [a, b, c, d, e]) == [e, d, c, b, a]
  {
    hide SortBy;
    OneWaits(e);
    FirstIsLast(d, [e], [e], [d, e], [e, d]);
    FirstIsLast(c, [d, e], [e, d], [c, d, e], [e, d, c]);
    FirstIsLast(b, [c, d, e], [e, d, c], [b, c, d, e], [e, d, c, b]);
    FirstIsLast(a, [b, c, d, e], [e, d, c, b], [a, b, c, d, e], [e, d, c, b, a]);
  }

  /** An item of lower priority than all that arrive behind it is served after them. */
  lemma FirstIsLast(x: WorkItem, rest: seq<WorkItem>, served: seq<WorkItem>, all: seq<WorkItem>, order: seq<WorkItem>)
    requires SortBy(BY_PRIORITY, rest) == served && all == [x] + rest && order == served + [x]
    requires forall i :: 0 <= i < |served| ==> !BY_PRIORITY(x, served[i])
    ensures SortBy(BY_PRIORITY, all) == order
  {
    InsertBehindAll(x, served, []);
    assert served + [] == served;
    assert all[1..] == rest;
  }

  lemma BothLogged(good: WorkItem, bad: WorkItem, completed: seq<WorkItem>, failed: seq<WorkItem>)
    requires good == Prioritized("good", Low) && bad == Prioritized("bad", Highest)
    requires CyclesLogged(RUN, [bad, good], CLOCK, 2, completed, failed)
    ensures completed == [good.(status := Completed, startedAt := Some("second"), resultSummary := Some("signals=1"))]
    ensures failed == [bad.(status := Failed, startedAt := Some("first"), error := Some("ValueError: bad"))]
  {
    assert "good"[0] != "bad"[0];
    assert CycleLogged(RUN, [bad, good], CLOCK, 0, completed, failed);
    assert CycleLogged(RUN, [bad, good], CLOCK, 1, completed, failed);
  }

  lemma OneWaits(item: WorkItem)
    ensures SortBy(BY_PRIORITY, [item]) == [item]
  {
    assert [item][1..] == [];
  }

  /** Cancelling a pending item that was never enqueued: it is logged, and the queue stays as it is. */
  method CancelUnqueued() returns (r: Result<WorkItem, QueueError>, waiting: nat, head: Option<WorkItem>,
                                   logged: seq<WorkItem>)
    ensures r == Ok(Item("never").(status := Cancelled)) && logged == [r.value]
    ensures waiting == 1 && head == Some(Item("waiting"))
  {
    var queue := new WorkQueue(None);
    var enqueued := queue.Enqueue(Item("waiting"));
    r := queue.Cancel(Item("never"));
    assert queue.arrivals == [Item("waiting")];
    OneWaits(Item("waiting"));
    logged := queue.cancelled;
    waiting := queue.Size();
    head := queue.Peek();
  }

  /** Replaying a dead letter into a full queue: the call fails and the entry is in neither queue. */
  method ReplayIntoFullQueue(policy: RetryPolicy, context: RetryContext)
    returns (r: Result<Option<RetryOutcome>, QueueError>, waiting: nat, head: Option<WorkItem>,
             before: seq<DeadLetterEntry>, after: seq<DeadLetterEntry>)
    ensures r == Err(QueueFull)
    ensures waiting == 1 && head == Some(Item("blocking"))
    ensures |before| == 1 && before[0].item == Item("lost") && after == []
  {
    var queue := new WorkQueue(Some(1));
    var enqueued := queue.Enqueue(Item("blocking"));
    var letters := new DeadLetterQueue(None);
    var added := letters.Enqueue(Item("lost"), "timeout", 3, "t");
    before := letters.entries;
    var orchestrator := new RetryOrchestrator(policy, context, queue, letters);
    r := orchestrator.HandleReplay(Normal, "new", "u");
    assert queue.arrivals == [Item("blocking")];
    OneWaits(Item("blocking"));
    after := letters.entries;
    waiting := queue.Size();
    head := queue.Peek();
  }

  // ---- decisions ----

  const DEFAULT := RetryPolicy(Exponential, 20, 1.0, 60.0, 0.0)

  /** The delays before the first seven retries: doubled from one second up to sixty. */
  lemma DelaysDouble()
    ensures DEFAULT.Valid()
    ensures Capped(DEFAULT, 2) == Ok(1.0) && Capped(DEFAULT, 3) == Ok(2.0) && Capped(DEFAULT, 4) == Ok(4.0)
    ensures Capped(DEFAULT, 5) == Ok(8.0) && Capped(DEFAULT, 6) == Ok(16.0) && Capped(DEFAULT, 7) == Ok(32.0)
    ensures Capped(DEFAULT, 8) == Ok(60.0) && Capped(DEFAULT, 9) == Ok(60.0)
  {
    hide Capped;
    CappedDoubles(DEFAULT, 2);
    CappedDoubles(DEFAULT, 3);
    CappedDoubles(DEFAULT, 4);
    CappedDoubles(DEFAULT, 5);
    CappedDoubles(DEFAULT, 6);
    CappedDoubles(DEFAULT, 7);
    CappedDoubles(DEFAULT, 8);
    CappedDoubles(DEFAULT, 9);
  }

  /** A quarter into the clock's period, a jitter of a half takes a quarter off the delay. */
  lemma QuarterOff()
    ensures ExponentialDelay(DEFAULT.(jitter := 0.5), RetryContext(true, 2_500.0), 3) == Ok(1.5)
  {
    hide Capped;
    CappedDoubles(DEFAULT.(jitter := 0.5), 2);
    CappedDoubles(DEFAULT.(jitter := 0.5), 3);
    JitterFollowsClock(DEFAULT.(jitter := 0.5), RetryContext(true, 2_500.0), 0, 0.25);
  }

  /** One decision of each form, in full. */
  lemma DecisionForms(error: string)
    ensures Evaluate(DEFAULT, ANY_FAILURE, Some(error), 1)
         == Ok(RetryDecision(false, 1, 0.0, true, "infrastructure failure: " + error, Exponential))
    ensures Evaluate(DEFAULT, ANY_FAILURE.(isRetryable := false), None, 1)
         == Ok(RetryDecision(false, 1, 0.0, true, "caller marked failure as non-retryable", Exponential))
    ensures Evaluate(DEFAULT.(maxAttempts := 3), ANY_FAILURE, None, 3)
         == Ok(RetryDecision(false, 3, 0.0, true, "retry budget exhausted: attempt 3 >= max_attempts 3", Exponential))
    ensures Evaluate(DEFAULT.(kind := Manual), ANY_FAILURE, None, 1)
         == Ok(RetryDecision(false, 2, 0.0, true, "manual policy: requires operator intervention", Manual))
    ensures Evaluate(DEFAULT.(kind := Immediate), ANY_FAILURE, None, 1)
         == Ok(RetryDecision(true, 2, 0.0, false, "immediate retry attempt 2", Immediate))
    ensures Evaluate(DEFAULT, ANY_FAILURE, None, 2)
         == Ok(RetryDecision(true, 3, 2.0, false, "exponential backoff retry attempt 3", Exponential))
  {
    hide Capped, BudgetReason, RetryReason;
    DelaysDouble();
    TimesUnit(2.0);
    BudgetText();
    RetryTexts();
  }

  lemma BudgetText()
    ensures BudgetReason(3, 3) == "retry budget exhausted: attempt 3 >= max_attempts 3"
  {
    assert Decimal.FromInt(3) == "3";
  }

  lemma RetryTexts()
    ensures RetryReason("immediate", 2) == "immediate retry attempt 2"
    ensures RetryReason("exponential backoff", 3) == "exponential backoff retry attempt 3"
  {
    assert Decimal.FromInt(2) == "2" && Decimal.FromInt(3) == "3";
  }

  /** The default delays with one attempt more than the exponential delay can serve. */
  const LONG_POLICY := RetryPolicy(Exponential, 1026, 1.0, 60.0, 0.0)

  const ANY_FAILURE := RetryContext(true, 0.0)

  /** The cycle is retried up to attempt 1025; the failure of that attempt is neither retried nor dead-lettered. */
  lemma LongBudgetEndsUndecided()
    ensures LONG_POLICY.Valid()
    ensures var all := Decisions(LONG_POLICY, ANY_FAILURE, 1);
      && |all| == 1025 && all[1024] == Err(DelayOverflow)
      && forall i :: 0 <= i < 1024 ==> IsRetry(LONG_POLICY, all[i], i + 2)
  {
    hide Decisions, IsRetry;
    BudgetSpent(LONG_POLICY, ANY_FAILURE, 1);
  }

  /** The running item of that attempt: the call fails, and the item is in neither queue and in no log. */
  method OverflowLeavesItemUnhandled(now: string)
    returns (r: Result<RetryOutcome, HandlingError>, waiting: nat, failed: seq<WorkItem>, letters: seq<DeadLetterEntry>)
    ensures r == Err(Undecided(DelayOverflow))
    ensures waiting == 0 && failed == [] && letters == []
  {
    var queue := new WorkQueue(None);
    var deadLetter := new DeadLetterQueue(None);
    var orchestrator := new RetryOrchestrator(LONG_POLICY, ANY_FAILURE, queue, deadLetter);
    r := orchestrator.HandleFailedCycle(Item("failed").(status := Running), None, 1025, Normal, "new", now);
    assert queue.arrivals == [] && r.error.reason.DelayOverflow?;
    waiting := queue.Size();
    failed, letters := queue.failed, deadLetter.entries;
  }
}
