/**
 * The scheduler's timing arithmetic: the probe's fallback duration, the pre-roll wait
 * after each submission, and the resulting submission times. Durations and waits are seconds,
 * as reals.
 */
module Pacing {
  import opened Wrappers

  /** Seconds before an item's expected end at which the next item is submitted. */
  const LOOKAHEAD: real := 2.0
  /** Duration assumed when the probe's output does not parse as a number. */
  const DEFAULT_DURATION: real := 10.0

  /**
   * The duration of an item from the parsed probe output: the parsed value when there
   * is one, otherwise the fixed default.
   */
  function Duration(parsed: Option<real>): (d: real)
    ensures parsed.Some? ==> d == parsed.value
    ensures parsed.None? ==> d == DEFAULT_DURATION
  {
    match parsed
    case Some(v) => v
    case None => DEFAULT_DURATION
  }

  /**
   * The sleep after submitting an item of the given duration: never negative, never
   * shorter than `duration - LOOKAHEAD`, and one of the two, i.e. their maximum.
   */
  function WaitTime(duration: real): (w: real)
    ensures w >= 0.0 && w >= duration - LOOKAHEAD
    ensures w == 0.0 || w == duration - LOOKAHEAD
  {
    if duration - LOOKAHEAD > 0.0 then duration - LOOKAHEAD else 0.0
  }

  /**
   * The time, counted from the first submission and counting only the scheduler's sleeps,
   * at which item k of a playlist with these durations is submitted.
   */
  function StartTime(durations: seq<real>, k: nat): real
    requires k <= |durations|
  {
    if k == 0 then 0.0 else StartTime(durations, k - 1) + WaitTime(durations[k - 1])
  }

  /** Submissions happen in playlist order: later items are never submitted earlier. */
  lemma {:induction false} StartTimeMonotone(durations: seq<real>, i: nat, j: nat)
    requires i <= j <= |durations|
    ensures StartTime(durations, i) <= StartTime(durations, j)
  {
    if i < j {
      StartTimeMonotone(durations, i, j - 1);
    }
  }

  /**
   * The pre-roll: an item at least LOOKAHEAD long has its successor submitted exactly
   * LOOKAHEAD before its own expected end; a shorter one has its successor submitted
   * straight away.
   */
  lemma PreRoll(durations: seq<real>, k: nat)
    requires k < |durations|
    ensures durations[k] >= LOOKAHEAD ==>
      StartTime(durations, k + 1) + LOOKAHEAD == StartTime(durations, k) + durations[k]
    ensures durations[k] <= LOOKAHEAD ==> StartTime(durations, k + 1) == StartTime(durations, k)
  {
  }
}
