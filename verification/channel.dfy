/**
 * The whole channel, run sequentially: the scheduler works through the playlist, then
 * the relay drains the queued slots in order until it sees the stop. In the program
 * both run at once in two threads; the moment the scheduler's stop request reaches the
 * relay is the relay's `setAt`-th check of the stop event.
 */
module Channel {
  import opened Wrappers
  import opened Slots
  import opened Drain
  import opened WorkQueues
  import opened Relay
  import opened Pacing
  import opened Scheduler

  /** The scheduler's side: a fresh work queue and scheduler, run over the whole playlist. */
  method Schedule(playlist: seq<string>, probe: string -> Option<real>)
    returns (queue: WorkQueue, launched: seq<Launch>)
    ensures fresh(queue) && queue.Valid()
    ensures queue.items == SlotsFrom(PipeA, |playlist|)
    ensures |launched| == |playlist|
    ensures forall k :: 0 <= k < |playlist| ==>
      launched[k].file == playlist[k] &&
      launched[k].slot == Alternate(PipeA, k) &&
      launched[k].at == StartTime(Durations(playlist, probe), k)
  {
    queue := new WorkQueue();
    var scheduler := new Scheduler(queue);
    scheduler.Run(playlist, probe);
    launched := scheduler.launched;
  }

  /**
   * Schedule and relay a playlist. `probe` gives the parsed probe output per file and
   * `scripts[k]` the read results of the k-th pipe the relay drains.
   */
  method Broadcast(playlist: seq<string>, probe: string -> Option<real>,
                   scripts: seq<seq<Bytes>>, setAt: nat)
    returns (launched: seq<Launch>, drained: seq<DrainRecord>, sent: seq<Bytes>)
    // one launch per item, in list order, slots A, B, A, B, ... at the paced times
    ensures |launched| == |playlist|
    ensures forall k :: 0 <= k < |playlist| ==>
      launched[k].file == playlist[k] &&
      launched[k].slot == Alternate(PipeA, k) &&
      launched[k].at == StartTime(Durations(playlist, probe), k)
    // the relay drains the launched items' slots in launch order, never more
    ensures |drained| <= |launched|
    ensures forall k :: 0 <= k < |drained| ==> drained[k].slot == launched[k].slot
    ensures forall k :: 0 <= k < |drained| ==>
      DrainFits(ScriptAt(scripts, k), drained[k].polls, drained[k].ending)
    ensures forall k :: 0 <= k < |drained| - 1 ==> drained[k].ending == IdleTimeout
    // the network sees the bytes read FIFO after FIFO, in drain order, each read as its own datagram
    ensures sent == SentBy(scripts, drained)
    ensures Flatten(sent) == ReadBytes(scripts, drained)
    // every datagram is a non-empty read, of at most PACKET_SIZE bytes when the reads are
    ensures forall i :: 0 <= i < |sent| ==> sent[i] != []
    ensures (forall k :: 0 <= k < |scripts| ==> ReadsFit(scripts[k])) ==> ReadsFit(sent)
    // a launched slot is left undrained, or a drain cut short, only because the stop came:
    // the relay's checks ran up to the one that saw it, with no idle poll before it
    ensures |drained| < |launched| || EndedByStop(drained) ==> Checks(drained) == setAt + (if EndedByStop(drained) then 1 else 0)
    // no check, and so no read or pop, after the one that saw the stop
    ensures Checks(drained) <= setAt + (if EndedByStop(drained) then 1 else 0)
    // a stop visible from the start means nothing is relayed
    ensures setAt == 0 ==> drained == [] && sent == []
  {
    var queue;
    queue, launched := Schedule(playlist, probe);
    ghost var queued := queue.items;
    drained, sent := RelayThread(queue, scripts, setAt);
    forall k | 0 <= k < |drained| ensures drained[k].slot == launched[k].slot {
      assert drained[k].slot == queued[k] == Alternate(PipeA, k);
    }
    SentBytes(scripts, drained);
    SentPackets(scripts, drained);
  }
}
