/**
 The retry loop around an idempotent SSH operation. A schedule says how long each attempt would take and
 how it would end; sleeps are exact and the clock moves only during attempts and sleeps.
 */
module RetryLoops {
  import opened Options

  const INITIAL: real := 0.25
  const MAXIMUM: real := 5.0
  const JITTER_RATIO: real := 0.2
  const BUDGET: real := 600.0

  datatype Outcome = Success | Transient | Fatal | Cancelled

  /** `jitter` is what the random source answers, as a share of the greatest jitter allowed. */
  datatype Attempt = Attempt(duration: real, outcome: Outcome, jitter: real)

  datatype End = Returned | Raised | OutOfBudget | PastDeadline | WasCancelled

  function Min(a: real, b: real): real {
    if a <= b then a else b
  }

  ghost predicate Feasible(schedule: seq<Attempt>) {
    forall k :: 0 <= k < |schedule| ==> schedule[k].duration >= 0.0 && 0.0 <= schedule[k].jitter <= 1.0
  }

  // The schedule in time

  function TwoTo(k: nat): (r: real)
    ensures r >= 1.0
  {
    if k == 0 then 1.0 else 2.0 * TwoTo(k - 1)
  }

  /** The delay after the k-th failure, counted from zero. */
  function Delay(k: nat): real {
    Min(MAXIMUM, INITIAL * TwoTo(k))
  }

  /** When the k-th attempt ended, counted from zero. */
  function EndedAt(start: real, schedule: seq<Attempt>, pauses: seq<real>, k: nat): real
    requires k < |schedule| && k <= |pauses|
  {
    schedule[k].duration + if k == 0 then start else EndedAt(start, schedule, pauses, k - 1) + pauses[k - 1]
  }

  /** The failure that started the budget in force at the k-th failure: the first one, or that of a long attempt. */
  function BudgetStart(schedule: seq<Attempt>, k: nat): (a: nat)
    requires k < |schedule|
    ensures a <= k && (a > 0 ==> schedule[a].duration >= BUDGET)
    ensures forall i :: a < i <= k ==> schedule[i].duration < BUDGET
  {
    if k == 0 || schedule[k].duration >= BUDGET then k else BudgetStart(schedule, k - 1)
  }

  /** How long the budget has been running at the k-th failure. */
  function Spent(start: real, schedule: seq<Attempt>, pauses: seq<real>, k: nat): real
    requires k < |schedule| && k <= |pauses|
  {
    EndedAt(start, schedule, pauses, k) - EndedAt(start, schedule, pauses, BudgetStart(schedule, k))
  }

  /** The pause after the k-th failure: the delay and its jitter, cut off at the deadline. */
  ghost predicate GoodPause(start: real, schedule: seq<Attempt>, pauses: seq<real>, deadline: Option<real>, k: nat)
    requires k < |schedule| && k < |pauses|
  {
    var now := EndedAt(start, schedule, pauses, k);
    && 0.0 < pauses[k] <= Delay(k) + Delay(k) * JITTER_RATIO
    && (pauses[k] < Delay(k) ==> deadline == Some(now + pauses[k]))
    && (deadline.Some? ==> now + pauses[k] <= deadline.value)
    && Spent(start, schedule, pauses, k) < BUDGET
  }

  ghost predicate GoodPauses(start: real, schedule: seq<Attempt>, pauses: seq<real>, deadline: Option<real>) {
    |pauses| <= |schedule| && forall k :: 0 <= k < |pauses| ==> GoodPause(start, schedule, pauses, deadline, k)
  }

  lemma {:induction false} EndedAtPrefix(start: real, schedule: seq<Attempt>, pauses: seq<real>, more: seq<real>, k: nat)
    requires k < |schedule| && k <= |pauses|
    ensures EndedAt(start, schedule, pauses + more, k) == EndedAt(start, schedule, pauses, k)
    decreases k
  {
    if k > 0 {
      EndedAtPrefix(start, schedule, pauses, more, k - 1);
    }
  }

  /** One more pause leaves the earlier ones as they were. */
  lemma OneMorePause(start: real, schedule: seq<Attempt>, pauses: seq<real>, pause: real, deadline: Option<real>)
    requires GoodPauses(start, schedule, pauses, deadline) && |pauses| < |schedule|
    requires
      var k := |pauses|;
      var now := EndedAt(start, schedule, pauses, k);
      && 0.0 < pause <= Delay(k) + Delay(k) * JITTER_RATIO
      && (pause < Delay(k) ==> deadline == Some(now + pause))
      && (deadline.Some? ==> now + pause <= deadline.value)
      && Spent(start, schedule, pauses, k) < BUDGET
    ensures GoodPauses(start, schedule, pauses + [pause], deadline)
  {
    var all := pauses + [pause];
    forall k: nat | k < |all|
      ensures GoodPause(start, schedule, all, deadline, k)
    {
      EndedAtPrefix(start, schedule, pauses, [pause], k);
      EndedAtPrefix(start, schedule, pauses, [pause], BudgetStart(schedule, k));
      if k < |pauses| {
        assert GoodPause(start, schedule, pauses, deadline, k);
      }
    }
  }

  // The loop

  /** A delay with its jitter, cut off at the deadline. */
  method Pause(delay: real, share: real, now: real, deadline: Option<real>) returns (pause: real)
    requires delay > 0.0 && 0.0 <= share <= 1.0 && (deadline.Some? ==> now < deadline.value)
    ensures 0.0 < pause <= delay + delay * JITTER_RATIO
    ensures pause < delay ==> deadline == Some(now + pause)
    ensures deadline.Some? ==> now + pause <= deadline.value
  {
    var jitter := share * (delay * JITTER_RATIO);
    JitterBound(share, delay);
    pause := delay + jitter;
    if deadline.Some? {
      pause := Min(pause, deadline.value - now);
    }
  }

  lemma JitterBound(share: real, delay: real)
    requires 0.0 <= share <= 1.0 && delay > 0.0
    ensures 0.0 <= share * (delay * JITTER_RATIO) <= delay * JITTER_RATIO
  {
  }

  /**
   `run`. Of the `|pauses| + 1` attempts made all but the last failed in the transport. A schedule that is
   used up counts as a cancellation.
   */
  method Run(schedule: seq<Attempt>, start: real, deadline: Option<real>) returns (end: End, pauses: seq<real>)
    requires Feasible(schedule)
    ensures GoodPauses(start, schedule, pauses, deadline)
    ensures forall k :: 0 <= k < |pauses| ==> schedule[k].outcome == Transient
    ensures end != WasCancelled ==> |pauses| < |schedule|
    ensures end == Returned ==> schedule[|pauses|].outcome == Success
    ensures end == Raised ==> schedule[|pauses|].outcome == Fatal
    ensures end == OutOfBudget ==>
      schedule[|pauses|].outcome == Transient && Spent(start, schedule, pauses, |pauses|) >= BUDGET
    ensures end == PastDeadline ==>
      && schedule[|pauses|].outcome == Transient && Spent(start, schedule, pauses, |pauses|) < BUDGET
      && deadline.Some? && deadline.value <= EndedAt(start, schedule, pauses, |pauses|)
    ensures end == WasCancelled ==> |pauses| == |schedule| || schedule[|pauses|].outcome == Cancelled
  {
    var now, delay := start, INITIAL;
    var failingSince: Option<real> := None;
    pauses := [];
    while |pauses| < |schedule|
      invariant GoodPauses(start, schedule, pauses, deadline)
      invariant forall k :: 0 <= k < |pauses| ==> schedule[k].outcome == Transient
      invariant delay == Delay(|pauses|)
      invariant |pauses| == 0 ==> now == start && failingSince.None?
      invariant |pauses| > 0 ==>
        && now == EndedAt(start, schedule, pauses, |pauses| - 1) + pauses[|pauses| - 1]
        && failingSince == Some(EndedAt(start, schedule, pauses, BudgetStart(schedule, |pauses| - 1)))
      decreases |schedule| - |pauses|
    {
      var n := |pauses|;
      var attempt := schedule[n];
      var attemptStarted := now;
      now := now + attempt.duration;
      match attempt.outcome {
        case Success => return Returned, pauses;
        case Fatal => return Raised, pauses;
        case Cancelled => return WasCancelled, pauses;
        case Transient =>
      }
      if failingSince.None? || now - attemptStarted >= BUDGET {
        failingSince := Some(now);
      } else if now - failingSince.value >= BUDGET {
        return OutOfBudget, pauses;
      }
      if deadline.Some? {
        var remaining := deadline.value - now;
        if remaining <= 0.0 {
          return PastDeadline, pauses;
        }
      }
      var pause := Pause(delay, attempt.jitter, now, deadline);
      OneMorePause(start, schedule, pauses, pause, deadline);
      EndedAtPrefix(start, schedule, pauses, [pause], n);
      EndedAtPrefix(start, schedule, pauses, [pause], BudgetStart(schedule, n));
      pauses := pauses + [pause];
      now := now + pause;
      delay := Min(MAXIMUM, delay * 2.0);
    }
    return WasCancelled, pauses;
  }

  // Bounds

  /** No pause is longer than six seconds, and none ends after the deadline. */
  lemma PausesAreShort(start: real, schedule: seq<Attempt>, pauses: seq<real>, deadline: Option<real>, k: nat)
    requires GoodPauses(start, schedule, pauses, deadline) && k < |pauses|
    ensures 0.0 < pauses[k] <= 6.0
    ensures deadline.Some? ==> EndedAt(start, schedule, pauses, k) + pauses[k] <= deadline.value
  {
    assert GoodPause(start, schedule, pauses, deadline, k);
  }

  /**
   The budget error comes no earlier than 600 seconds, and before 606 seconds and the last attempt, after
   the failure that started the budget. That is the first failure unless an attempt itself lasted so long.
   */
  lemma BudgetIsKept(start: real, schedule: seq<Attempt>, pauses: seq<real>, deadline: Option<real>)
    requires Feasible(schedule) && GoodPauses(start, schedule, pauses, deadline) && |pauses| < |schedule|
    requires Spent(start, schedule, pauses, |pauses|) >= BUDGET
    ensures var n := |pauses|;
      && n > 0 && schedule[n].duration < BUDGET
      && BUDGET <= Spent(start, schedule, pauses, n) < BUDGET + 6.0 + schedule[n].duration
    ensures (forall i :: 0 <= i < |schedule| ==> schedule[i].duration < BUDGET) ==> BudgetStart(schedule, |pauses|) == 0
  {
    var n := |pauses|;
    if n > 0 && schedule[n].duration < BUDGET {
      assert GoodPause(start, schedule, pauses, deadline, n - 1);
    }
  }

  function SumOfDelays(n: nat): real {
    if n == 0 then 0.0 else SumOfDelays(n - 1) + Delay(n - 1)
  }

  lemma {:induction false} LateDelays(n: nat)
    requires n >= 5
    ensures TwoTo(n) >= 32.0 && SumOfDelays(n) == 7.75 + 5.0 * ((n - 5) as real)
  {
    if n > 5 {
      LateDelays(n - 1);
    } else {
      assert TwoTo(1) == 2.0 && TwoTo(2) == 4.0 && TwoTo(3) == 8.0 && TwoTo(4) == 16.0;
      assert SumOfDelays(1) == 0.25 && SumOfDelays(2) == 0.75 && SumOfDelays(3) == 1.75 && SumOfDelays(4) == 3.75;
    }
  }

  /** The failures are at least the sum of the delays apart, but for the last pause when it was cut off. */
  lemma {:induction false} FailuresAreSpaced(start: real, schedule: seq<Attempt>, pauses: seq<real>, deadline: Option<real>, k: nat)
    requires Feasible(schedule) && GoodPauses(start, schedule, pauses, deadline) && k < |pauses|
    ensures EndedAt(start, schedule, pauses, k) - EndedAt(start, schedule, pauses, 0) >= SumOfDelays(k)
    decreases k
  {
    if k > 0 {
      FailuresAreSpaced(start, schedule, pauses, deadline, k - 1);
      assert GoodPause(start, schedule, pauses, deadline, k - 1);
      assert GoodPause(start, schedule, pauses, deadline, k);
    }
  }

  lemma BudgetLimitsPauses(start: real, schedule: seq<Attempt>, pauses: seq<real>, deadline: Option<real>, n: nat)
    requires Feasible(schedule) && GoodPauses(start, schedule, pauses, deadline) && n < |pauses|
    requires forall i :: 0 <= i < |schedule| ==> schedule[i].duration < BUDGET
    ensures SumOfDelays(n) < BUDGET
  {
    FailuresAreSpaced(start, schedule, pauses, deadline, n);
    assert GoodPause(start, schedule, pauses, deadline, n);
    assert BudgetStart(schedule, n) == 0;
  }

  /** With attempts shorter than 600 seconds the loop is over after at most 125 of them. */
  lemma AttemptsAreBounded(start: real, schedule: seq<Attempt>, pauses: seq<real>, deadline: Option<real>)
    requires Feasible(schedule) && GoodPauses(start, schedule, pauses, deadline)
    requires forall i :: 0 <= i < |schedule| ==> schedule[i].duration < BUDGET
    ensures |pauses| <= 124
  {
    var n: nat := 124;
    LateDelays(n);
    if n < |pauses| {
      BudgetLimitsPauses(start, schedule, pauses, deadline, n);
    }
  }
}
