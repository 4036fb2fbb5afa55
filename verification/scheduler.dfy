/**
 * The playlist scheduler: for each file in list order it probes the duration, submits
 * the transcoder job for the current slot, swaps the current and next slot, and sleeps
 * until LOOKAHEAD seconds before the item's expected end. Sleeping is modelled by
 * advancing a clock; the transcoder process itself is not modelled, only the submission.
 */
module Scheduler {
  import opened Wrappers
  import opened Slots
  import opened Pacing
  import opened WorkQueues

  /**
   * One transcoder job submitted: the input file, the FIFO it writes into, and the clock
   * reading at submission (the job itself may start later, when a pool worker is free).
   */
  datatype Launch = Launch(file: string, slot: Slot, at: real)

  /** The durations the scheduler uses, item by item, given what the probe parses for each file. */
  function Durations(playlist: seq<string>, probe: string -> Option<real>): seq<real> {
    seq(|playlist|, k requires 0 <= k < |playlist| => Duration(probe(playlist[k])))
  }

  /** The launches a scheduler run makes, starting at time `t0` with `first` as the current slot. */
  function Plan(playlist: seq<string>, durations: seq<real>, first: Slot, t0: real): seq<Launch>
    requires |durations| == |playlist|
  {
    seq(|playlist|, k requires 0 <= k < |playlist| =>
      Launch(playlist[k], Alternate(first, k), t0 + StartTime(durations, k)))
  }

  /** The slots a run hands to the work queue, one per item, alternating from `first`. */
  function SlotsFrom(first: Slot, n: nat): seq<Slot> {
    seq(n, k requires 0 <= k < n => Alternate(first, k))
  }

  class Scheduler {
    /** The slot the next launch writes into. */
    var current: Slot
    /** The slot after that. */
    var next: Slot
    /** Seconds slept so far. */
    var clock: real
    /** Transcoder launches so far, in launch order. */
    var launched: seq<Launch>
    /** The relay's work queue, shared with the relay. */
    const queue: WorkQueue

    /** The two slot variables always name the two different slots. */
    ghost predicate Valid()
      reads this, queue
    {
      current != next && queue.Valid()
    }

    constructor (queue: WorkQueue)
      requires queue.Valid()
      ensures Valid() && this.queue == queue
      ensures current == PipeA && next == PipeB
      ensures clock == 0.0 && launched == []
    {
      this.queue := queue;
      current, next := PipeA, PipeB;
      clock := 0.0;
      launched := [];
    }

    /**
     * Submit the transcoder job for one file into one slot; the job puts the slot on the
     * work queue.
     */
    method StreamFile(file: string, slot: Slot)
      requires queue.Valid()
      modifies this, queue
      ensures queue.Valid() && queue.popped == old(queue.popped)
      ensures queue.items == old(queue.items) + [slot]
      ensures launched == old(launched) + [Launch(file, slot, clock)]
      ensures current == old(current) && next == old(next) && clock == old(clock)
    {
      launched := launched + [Launch(file, slot, clock)];
      queue.Append(slot);
    }

    /**
     * The scheduler loop over a playlist. `probe` gives, per file, the parsed output of
     * the duration probe (None when it does not parse).
     */
    method Run(playlist: seq<string>, probe: string -> Option<real>)
      requires Valid()
      modifies this, queue
      ensures Valid() && queue.popped == old(queue.popped)
      // one launch per item, in list order, on alternating slots, at the paced times
      ensures launched == old(launched) + Plan(playlist, Durations(playlist, probe), old(current), old(clock))
      // each launch puts its slot on the work queue, in launch order
      ensures queue.items == old(queue.items) + SlotsFrom(old(current), |playlist|)
      ensures clock == old(clock) + StartTime(Durations(playlist, probe), |playlist|)
      ensures current == Alternate(old(current), |playlist|) && next == current.Other()
    {
      ghost var ds := Durations(playlist, probe);
      ghost var first, t0, l0, q0 := current, clock, launched, queue.items;
      var i := 0;
      while i < |playlist|
        invariant 0 <= i <= |playlist|
        invariant Valid() && queue.popped == old(queue.popped)
        invariant launched == l0 + Plan(playlist[..i], ds[..i], first, t0)
        invariant queue.items == q0 + SlotsFrom(first, i)
        invariant clock == t0 + StartTime(ds, i)
        invariant current == Alternate(first, i) && next == current.Other()
      {
        var file := playlist[i];
        var duration := Duration(probe(file));
        StreamFile(file, current);
        current, next := next, current;
        var wait := WaitTime(duration);
        clock := clock + wait;
        PlanStep(playlist, ds, first, t0, i);
        AlternateStep(first, i);
        i := i + 1;
      }
      assert playlist[..i] == playlist && ds[..i] == ds;
    }
  }

  /** Extending the plan by one item adds that item's launch; the slot list likewise. */
  lemma PlanStep(playlist: seq<string>, durations: seq<real>, first: Slot, t0: real, i: nat)
    requires |durations| == |playlist| && i < |playlist|
    ensures Plan(playlist[..i + 1], durations[..i + 1], first, t0) ==
      Plan(playlist[..i], durations[..i], first, t0) +
      [Launch(playlist[i], Alternate(first, i), t0 + StartTime(durations, i))]
    ensures SlotsFrom(first, i + 1) == SlotsFrom(first, i) + [Alternate(first, i)]
  {
    StartTimePrefix(durations, i + 1, i);
    forall k | 0 <= k < i ensures StartTime(durations[..i + 1], k) == StartTime(durations[..i], k) {
      StartTimePrefix(durations[..i + 1], i, k);
      assert durations[..i + 1][..i] == durations[..i];
    }
  }

  /** A launch time depends only on the durations of the items before it. */
  lemma {:induction false} StartTimePrefix(durations: seq<real>, n: nat, k: nat)
    requires k <= n <= |durations|
    ensures StartTime(durations[..n], k) == StartTime(durations, k)
  {
    if k > 0 {
      StartTimePrefix(durations, n, k - 1);
    }
  }
}
