/**
 * The relay worker: pops the next slot from the work queue, drains it read by read,
 * forwards every non-empty read as one datagram, and gives up on a pipe after its
 * eleventh empty read. The socket is modelled by the sequence of datagram payloads sent
 * to the (fixed) multicast target.
 */
module Relay {
  import opened Slots
  import opened Drain
  import opened WorkQueues

  /** How a drain ended: the stop event was seen, or the empty-read budget ran out. */
  datatype Ending = Stopped | IdleTimeout

  /** One drained pipe: which slot, how many reads (polls) were made on it, and how it ended. */
  datatype DrainRecord = DrainRecord(slot: Slot, polls: nat, ending: Ending)

  /**
   * The read results of the k-th popped pipe. Past the given scripts every read is empty;
   * that is a default of the model, not what the program does (it would block in `open`).
   */
  function ScriptAt(scripts: seq<seq<Bytes>>, k: nat): seq<Bytes> {
    if k < |scripts| then scripts[k] else []
  }

  /** The datagrams sent while draining the given pipes, in drain order. */
  function SentBy(scripts: seq<seq<Bytes>>, drained: seq<DrainRecord>): seq<Bytes> {
    if drained == [] then []
    else
      var k := |drained| - 1;
      SentBy(scripts, drained[..k]) + Forwarded(Polled(ScriptAt(scripts, k), drained[k].polls))
  }

  /** The bytes read from the given pipes, in drain order. */
  function ReadBytes(scripts: seq<seq<Bytes>>, drained: seq<DrainRecord>): Bytes {
    if drained == [] then []
    else
      var k := |drained| - 1;
      ReadBytes(scripts, drained[..k]) + Flatten(Polled(ScriptAt(scripts, k), drained[k].polls))
  }

  /** What one drain's record promises about the reads it made on its pipe. */
  predicate DrainFits(script: seq<Bytes>, polls: nat, ending: Ending) {
    var e := Empties(Polled(script, polls));
    e <= MAX_TRIES + 1 &&
    (ending == IdleTimeout <==> e == MAX_TRIES + 1) &&
    (ending == IdleTimeout ==> 0 < polls && Poll(script, polls - 1) == [])
  }

  /**
   * A run of drains as the relay makes them from the queue contents `q0`: the k-th
   * drain took the k-th queued slot, every record fits the pipe it drained, and every
   * drain but the last ended by idle timeout (a stop ends the whole run).
   */
  predicate RunFits(scripts: seq<seq<Bytes>>, q0: seq<Slot>, drained: seq<DrainRecord>) {
    drained == [] ||
    (var k := |drained| - 1;
     k < |q0| && drained[k].slot == q0[k] &&
     RunFits(scripts, q0, drained[..k]) &&
     DrainFits(ScriptAt(scripts, k), drained[k].polls, drained[k].ending) &&
     (0 < k ==> drained[k - 1].ending == IdleTimeout))
  }

  lemma {:induction false} RunFitsAt(scripts: seq<seq<Bytes>>, q0: seq<Slot>, drained: seq<DrainRecord>, i: nat)
    requires RunFits(scripts, q0, drained) && i < |drained|
    ensures i < |q0| && drained[i].slot == q0[i]
    ensures DrainFits(ScriptAt(scripts, i), drained[i].polls, drained[i].ending)
    ensures i < |drained| - 1 ==> drained[i].ending == IdleTimeout
  {
    var k := |drained| - 1;
    if i < k {
      RunFitsAt(scripts, q0, drained[..k], i);
    }
  }

  /** What a consistent run of drains says record by record. */
  lemma RunFacts(scripts: seq<seq<Bytes>>, q0: seq<Slot>, drained: seq<DrainRecord>)
    requires RunFits(scripts, q0, drained)
    ensures forall k :: 0 <= k < |drained| ==> k < |q0| && drained[k].slot == q0[k]
    ensures forall k :: 0 <= k < |drained| ==>
      DrainFits(ScriptAt(scripts, k), drained[k].polls, drained[k].ending)
    ensures forall k :: 0 <= k < |drained| - 1 ==> drained[k].ending == IdleTimeout
  {
    forall k | 0 <= k < |drained|
      ensures k < |q0| && drained[k].slot == q0[k]
      ensures DrainFits(ScriptAt(scripts, k), drained[k].polls, drained[k].ending)
      ensures k < |drained| - 1 ==> drained[k].ending == IdleTimeout
    {
      RunFitsAt(scripts, q0, drained, k);
    }
  }

  /** Recording one more drain adds that drain's datagrams to what the run sent. */
  lemma SentStep(scripts: seq<seq<Bytes>>, drained: seq<DrainRecord>, r: DrainRecord, sent: seq<Bytes>)
    requires sent == SentBy(scripts, drained)
    ensures sent + Forwarded(Polled(ScriptAt(scripts, |drained|), r.polls)) ==
      SentBy(scripts, drained + [r])
  {
    assert (drained + [r])[..|drained|] == drained;
  }

  /** A drain of the next queued slot that fits its pipe, after drains that all timed out, extends the run. */
  lemma FitStep(scripts: seq<seq<Bytes>>, q0: seq<Slot>, drained: seq<DrainRecord>, r: DrainRecord)
    requires RunFits(scripts, q0, drained)
    requires drained != [] ==> drained[|drained| - 1].ending == IdleTimeout
    requires |drained| < |q0| && r.slot == q0[|drained|]
    requires DrainFits(ScriptAt(scripts, |drained|), r.polls, r.ending)
    ensures RunFits(scripts, q0, drained + [r])
  {
    assert (drained + [r])[..|drained|] == drained;
  }

  /** Recording the drain of the queue's head extends every fact kept about the run. */
  lemma RecordStep(scripts: seq<seq<Bytes>>, q0: seq<Slot>, drained: seq<DrainRecord>, sent: seq<Bytes>,
                   q: seq<Slot>, r: DrainRecord, out: seq<Bytes>)
    requires |drained| <= |q0| && q == q0[|drained|..] && q != [] && r.slot == q[0]
    requires sent == SentBy(scripts, drained) && RunFits(scripts, q0, drained)
    requires drained != [] ==> drained[|drained| - 1].ending == IdleTimeout
    requires DrainFits(ScriptAt(scripts, |drained|), r.polls, r.ending)
    requires out == Forwarded(Polled(ScriptAt(scripts, |drained|), r.polls))
    ensures q[1..] == q0[|drained| + 1..]
    ensures sent + out == SentBy(scripts, drained + [r])
    ensures RunFits(scripts, q0, drained + [r])
  {
    SentStep(scripts, drained, r, sent);
    FitStep(scripts, q0, drained, r);
  }

  /**
   * The datagrams sent over a run of drains carry exactly the bytes read from those
   * pipes, pipe after pipe: items are never interleaved, reordered or duplicated.
   */
  lemma {:induction false} SentBytes(scripts: seq<seq<Bytes>>, drained: seq<DrainRecord>)
    ensures Flatten(SentBy(scripts, drained)) == ReadBytes(scripts, drained)
  {
    if drained != [] {
      var k := |drained| - 1;
      var rs := Polled(ScriptAt(scripts, k), drained[k].polls);
      SentBytes(scripts, drained[..k]);
      FlattenAppend(SentBy(scripts, drained[..k]), Forwarded(rs));
      ForwardedBytes(rs);
    }
  }

  /**
   * Every datagram sent over a run of drains is a non-empty read, and none is larger
   * than PACKET_SIZE when no read of any pipe returns more than was asked for.
   */
  lemma {:induction false} SentPackets(scripts: seq<seq<Bytes>>, drained: seq<DrainRecord>)
    ensures forall i :: 0 <= i < |SentBy(scripts, drained)| ==> SentBy(scripts, drained)[i] != []
    ensures (forall k :: 0 <= k < |scripts| ==> ReadsFit(scripts[k])) ==> ReadsFit(SentBy(scripts, drained))
  {
    if drained != [] {
      var k := |drained| - 1;
      var rs := Polled(ScriptAt(scripts, k), drained[k].polls);
      var before, last := SentBy(scripts, drained[..k]), Forwarded(rs);
      assert SentBy(scripts, drained) == before + last;
      SentPackets(scripts, drained[..k]);
      ForwardedShape(rs);
      if forall j :: 0 <= j < |scripts| ==> ReadsFit(scripts[j]) {
        assert ReadsFit(ScriptAt(scripts, k));
        PolledFit(ScriptAt(scripts, k), drained[k].polls);
        ForwardedFit(rs);
        assert ReadsFit(before + last) by {
          forall i | 0 <= i < |before + last| ensures |(before + last)[i]| <= PACKET_SIZE {
            if i >= |before| {
              assert (before + last)[i] == last[i - |before|];
            }
          }
        }
      }
    }
  }

  /**
   * The stop checks a run of drains accounts for: inside each drain one check before
   * every read, plus the one that saw the stop if the drain ended that way; then the
   * outer loop's check after the drain.
   */
  function Checks(drained: seq<DrainRecord>): nat {
    if drained == [] then 0
    else
      var k := |drained| - 1;
      Checks(drained[..k]) + drained[k].polls + (if drained[k].ending == Stopped then 1 else 0) + 1
  }

  /** Did the run's last drain end because it saw the stop? */
  predicate EndedByStop(drained: seq<DrainRecord>) {
    drained != [] && drained[|drained| - 1].ending == Stopped
  }

  /** One more drain adds its own checks and the outer loop's check after it. */
  lemma ChecksStep(drained: seq<DrainRecord>, r: DrainRecord)
    ensures Checks(drained + [r]) == Checks(drained) + r.polls + (if r.ending == Stopped then 1 else 0) + 1
  {
    assert (drained + [r])[..|drained|] == drained;
  }

  /**
   * The stop checks across one drain of a waiting slot. `c0` counts the checks made
   * before the relay started, `c` those made before this drain and `c1` those made by
   * its end. The outer loop's next check, number `c1`, is accounted to this drain; it
   * sees the event exactly when the drain ran into the stop, and then it is the first
   * check after the one that saw it (if the drain saw it) or the first that could.
   */
  lemma DrainAccount(c0: nat, setAt: nat, c: nat, c1: nat, drained: seq<DrainRecord>, r: DrainRecord)
    requires c <= setAt && c == c0 + 1 + Checks(drained)
    requires 0 < r.polls ==> c + r.polls <= setAt
    requires r.ending == Stopped ==> c + r.polls >= setAt
    requires c1 == c + r.polls + (if r.ending == Stopped then 1 else 0)
    ensures c1 + 1 == c0 + 1 + Checks(drained + [r])
    ensures c1 >= setAt ==> c1 == setAt + (if EndedByStop(drained + [r]) then 1 else 0)
    ensures c1 < setAt ==> r.ending == IdleTimeout
  {
    ChecksStep(drained, r);
    assert (drained + [r])[|drained|] == r;
  }

  /**
   * `threading.Event` as the relay sees it. Its `set()` happens in another thread at a
   * moment the model does not fix: it becomes visible at the relay's `setAt`-th call of
   * `is_set()` (0-based) and stays visible from then on.
   */
  class StopEvent {
    /** Calls of `is_set()` made so far. */
    var checks: nat
    const setAt: nat

    constructor (setAt: nat)
      ensures this.setAt == setAt && checks == 0
    {
      this.setAt := setAt;
      checks := 0;
    }

    /** Has the stop been requested? Once this answers true it answers true forever. */
    method IsSet() returns (b: bool)
      modifies this
      ensures checks == old(checks) + 1
      ensures b <==> old(checks) >= setAt
    {
      b := checks >= setAt;
      checks := checks + 1;
    }
  }

  /**
   * The inner drain loop on one opened pipe. Before each read the stop event is
   * checked; an empty read counts against the budget of MAX_TRIES, and the counter is
   * never reset by a successful read, so the drain ends at the eleventh empty read in
   * total. Each non-empty read is sent as it is; `out` lists the datagrams sent.
   */
  method DrainPipe(stop: StopEvent, script: seq<Bytes>) returns (out: seq<Bytes>, polls: nat, ending: Ending)
    modifies stop
    ensures out == Forwarded(Polled(script, polls))
    ensures DrainFits(script, polls, ending)
    ensures polls <= |script| + MAX_TRIES + 1
    // every read was preceded by a check that found the event clear
    ensures 0 < polls ==> old(stop.checks) + polls <= stop.setAt
    ensures ending == Stopped ==> old(stop.checks) + polls >= stop.setAt
    ensures stop.checks == old(stop.checks) + polls + (if ending == Stopped then 1 else 0)
  {
    out, polls := [], 0;
    var tries := 0;
    ghost var polled: seq<Bytes> := [];
    ghost var c0 := stop.checks;
    var timedOut := false;
    var stopped := stop.IsSet();
    // `timedOut` stands for the program's `break`: once set, no further check or read
    while !stopped && !timedOut
      invariant polled == Polled(script, polls)
      invariant tries == Empties(polled) <= MAX_TRIES + 1
      invariant timedOut <==> tries == MAX_TRIES + 1
      invariant timedOut ==> 0 < polls && Poll(script, polls - 1) == []
      invariant polls <= |script| + tries
      invariant out == Forwarded(polled)
      invariant stop.checks == c0 + polls + (if timedOut then 0 else 1)
      invariant !timedOut ==> (stopped <==> c0 + polls >= stop.setAt)
      invariant 0 < polls ==> c0 + polls <= stop.setAt
      decreases |script| + MAX_TRIES + 1 - polls
    {
      var data := Poll(script, polls);
      PolledStep(script, polls);
      Extend(polled, data);
      polled := polled + [data];
      polls := polls + 1;
      if data == [] {
        tries := tries + 1;
        timedOut := tries > MAX_TRIES;
      } else {
        out := out + [data];
      }
      if !timedOut {
        stopped := stop.IsSet();
      }
    }
    ending := if timedOut then IdleTimeout else Stopped;
    DrainLength(script, polls);
  }

  /**
   * Pop the head slot of the work queue, open that pipe and drain it; `r` records the
   * drain and `out` lists the datagrams it sent.
   */
  method DrainHead(queue: WorkQueue, stop: StopEvent, script: seq<Bytes>) returns (r: DrainRecord, out: seq<Bytes>)
    requires queue.Valid() && queue.items != []
    modifies queue, stop
    ensures queue.Valid() && queue.appended == old(queue.appended)
    ensures r.slot == old(queue.items)[0] && queue.items == old(queue.items)[1..]
    ensures DrainFits(script, r.polls, r.ending)
    ensures out == Forwarded(Polled(script, r.polls))
    // every read was preceded by a check that found the event clear
    ensures 0 < r.polls ==> old(stop.checks) + r.polls <= stop.setAt
    ensures r.ending == Stopped ==> old(stop.checks) + r.polls >= stop.setAt
    ensures stop.checks == old(stop.checks) + r.polls + (if r.ending == Stopped then 1 else 0)
  {
    var slot := queue.PopFront();
    var polls, ending;
    out, polls, ending := DrainPipe(stop, script);
    r := DrainRecord(slot, polls, ending);
  }

  /**
   * The relay worker: while the stop event is clear, pop the head of the work queue
   * and drain it, or (queue empty) poll again. Pipe k of the run reads
   * `ScriptAt(scripts, k)`; `sent` lists the datagrams sent, in order.
   */
  method RelayPipe(queue: WorkQueue, stop: StopEvent, scripts: seq<seq<Bytes>>)
    returns (drained: seq<DrainRecord>, sent: seq<Bytes>)
    requires queue.Valid()
    modifies queue, stop
    ensures queue.Valid() && queue.appended == old(queue.appended)
    // FIFO: the pipes drained are the head of the queue, in queue order, and only they left it
    ensures |drained| <= |old(queue.items)|
    ensures forall k :: 0 <= k < |drained| ==> drained[k].slot == old(queue.items)[k]
    ensures queue.items == old(queue.items)[|drained|..]
    ensures sent == SentBy(scripts, drained)
    ensures forall k :: 0 <= k < |drained| ==>
      DrainFits(ScriptAt(scripts, k), drained[k].polls, drained[k].ending)
    // only the last drain can have been cut short by the stop event
    ensures forall k :: 0 <= k < |drained| - 1 ==> drained[k].ending == IdleTimeout
    // an empty queue is never popped
    ensures old(queue.items) == [] ==> drained == [] && sent == [] && queue.items == []
    // the loop exits only once the stop event has been seen
    ensures stop.checks > stop.setAt
    // every check is accounted for: one on entry, then each drain's own checks and one after it
    ensures stop.checks >= old(stop.checks) + 1 + Checks(drained)
    // while slots wait the relay never idles: it pops as soon as a check finds the event clear
    ensures |drained| < |old(queue.items)| ==> stop.checks == old(stop.checks) + 1 + Checks(drained)
    // nor does it idle before a drain that the stop cut short
    ensures EndedByStop(drained) ==> stop.checks == old(stop.checks) + 1 + Checks(drained)
    // it stops at the first check that sees the event (one more when a drain saw it first)
    ensures stop.checks ==
      (if old(stop.checks) >= stop.setAt then old(stop.checks) else stop.setAt) + 1 +
      (if EndedByStop(drained) then 1 else 0)
    // a stop already visible on entry means no pop and no read at all
    ensures old(stop.checks) >= stop.setAt ==>
      drained == [] && sent == [] && queue.items == old(queue.items)
  {
    drained, sent := [], [];
    ghost var q0 := queue.items;
    // the first check that can see the event
    ghost var firstSeen := if stop.checks >= stop.setAt then stop.checks else stop.setAt;
    // outer iterations that found the queue empty; they happen only once it has run dry
    ghost var idles := 0;
    var stopped := stop.IsSet();
    while !stopped
      invariant queue.Valid() && queue.appended == old(queue.appended)
      invariant |drained| <= |q0| && queue.items == q0[|drained|..]
      invariant sent == SentBy(scripts, drained)
      invariant RunFits(scripts, q0, drained)
      invariant !stopped && drained != [] ==> drained[|drained| - 1].ending == IdleTimeout
      invariant stopped ==> stop.checks > stop.setAt
      invariant !stopped ==> stop.checks <= stop.setAt
      invariant old(stop.checks) >= stop.setAt ==> stopped && drained == []
      invariant stop.checks == old(stop.checks) + 1 + Checks(drained) + idles
      invariant idles > 0 ==> |drained| == |q0|
      invariant EndedByStop(drained) ==> idles == 0
      invariant stopped ==> stop.checks == firstSeen + 1 + (if EndedByStop(drained) then 1 else 0)
      decreases stop.setAt + 1 - stop.checks
    {
      if queue.items != [] {
        ghost var queueBefore, c := queue.items, stop.checks;
        var r, out := DrainHead(queue, stop, ScriptAt(scripts, |drained|));
        RecordStep(scripts, q0, drained, sent, queueBefore, r, out);
        DrainAccount(old(stop.checks), stop.setAt, c, stop.checks, drained, r);
        drained, sent := drained + [r], sent + out;
      } else {
        idles := idles + 1;
      }
      stopped := stop.IsSet();
    }
    RunFacts(scripts, q0, drained);
  }

  /**
   * The relay thread from start to exit: a fresh stop event, whose `set()` from the other
   * thread becomes visible at check number `setAt`, and one run of the relay worker.
   */
  method RelayThread(queue: WorkQueue, scripts: seq<seq<Bytes>>, setAt: nat)
    returns (drained: seq<DrainRecord>, sent: seq<Bytes>)
    requires queue.Valid()
    modifies queue
    ensures queue.Valid() && queue.appended == old(queue.appended)
    ensures |drained| <= |old(queue.items)| && queue.items == old(queue.items)[|drained|..]
    ensures forall k :: 0 <= k < |drained| ==> drained[k].slot == old(queue.items)[k]
    ensures sent == SentBy(scripts, drained)
    ensures forall k :: 0 <= k < |drained| ==>
      DrainFits(ScriptAt(scripts, k), drained[k].polls, drained[k].ending)
    ensures forall k :: 0 <= k < |drained| - 1 ==> drained[k].ending == IdleTimeout
    // a waiting slot is left, or a drain cut short, only because the stop came: the checks
    // ran up to the one that saw it
    ensures |drained| < |old(queue.items)| || EndedByStop(drained) ==> Checks(drained) == setAt + (if EndedByStop(drained) then 1 else 0)
    // no check, and so no read or pop, after the one that saw the stop
    ensures Checks(drained) <= setAt + (if EndedByStop(drained) then 1 else 0)
    ensures setAt == 0 ==> drained == [] && sent == []
  {
    var stop := new StopEvent(setAt);
    drained, sent := RelayPipe(queue, stop, scripts);
  }
}
