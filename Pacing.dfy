/**
 * Pacing of the draw thread: after each tick the loop sleeps for what is
 * left of a fixed 200 ms budget, and does not sleep at all after a slow
 * tick (no catch-up, no frame skipping).
 */
module Pacing {

  /** The budget the loop actually enforces, in milliseconds. */
  const TickBudget: int := 200

  /**
   * Declared but never read by the loop: they would imply a 33 ms frame,
   * while the loop paces at `TickBudget`.
   */
  const FramesPerSecond: int := 30
  const SkipTicks: int := 1000 / FramesPerSecond

  /**
   * How long the thread sleeps after a tick that took `delta` ms (clock
   * readings may go backwards, so `delta` may be negative); 0 means it
   * does not call `sleep` at all.
   */
  function SleepMillis(delta: int): (d: nat)
    ensures delta < TickBudget ==> d > 0 && delta + d == TickBudget
    ensures delta >= TickBudget ==> d == 0
  {
    if delta < TickBudget then TickBudget - delta else 0
  }

  /** Wall time from the start of one tick to the start of the next. */
  function TickPeriod(delta: int): int {
    delta + SleepMillis(delta)
  }

  /** The period is the larger of the work time and the budget. */
  lemma PeriodIsMaxOfWorkAndBudget(delta: int)
    ensures TickPeriod(delta) == if delta < TickBudget then TickBudget else delta
    ensures 0 <= delta < TickBudget ==> 0 < SleepMillis(delta) <= TickBudget
  {
  }

  /** Total wall time of a run whose ticks took `deltas` ms each. */
  function RunDuration(deltas: seq<int>): int {
    if deltas == [] then 0 else RunDuration(deltas[..|deltas| - 1]) + TickPeriod(deltas[|deltas| - 1])
  }

  /** Every tick lasts at least the budget, so n ticks take at least n budgets. */
  lemma {:induction false} RunLastsAtLeastBudgets(deltas: seq<int>)
    ensures RunDuration(deltas) >= TickBudget * |deltas|
  {
    if deltas != [] {
      RunLastsAtLeastBudgets(deltas[..|deltas| - 1]);
    }
  }

  /**
   * No catch-up: the time lost in slow ticks is never recovered; the run
   * lasts exactly the budget per fast tick plus the work time of each slow one.
   */
  lemma {:induction false} RunDurationIsSumOfPeriods(deltas: seq<int>)
    ensures RunDuration(deltas) == FastTicks(deltas) * TickBudget + SlowWork(deltas)
  {
    if deltas != [] {
      RunDurationIsSumOfPeriods(deltas[..|deltas| - 1]);
    }
  }

  /** Number of ticks that finished within the budget. */
  function FastTicks(deltas: seq<int>): nat {
    if deltas == [] then 0
    else FastTicks(deltas[..|deltas| - 1]) + (if deltas[|deltas| - 1] < TickBudget then 1 else 0)
  }

  /** Total work time of the ticks that overran the budget. */
  function SlowWork(deltas: seq<int>): int {
    if deltas == [] then 0
    else SlowWork(deltas[..|deltas| - 1]) + (if deltas[|deltas| - 1] < TickBudget then 0 else deltas[|deltas| - 1])
  }
}
