/**
 * The two named FIFOs that transcoder output is written into and the relay reads from.
 * The program refers to them by their paths, `/tmp/pipe_a` and `/tmp/pipe_b`; the model
 * uses a two-valued token.
 */
module Slots {
  datatype Slot = PipeA | PipeB {
    /** The slot that is not this one. */
    function Other(): Slot {
      if PipeA? then PipeB else PipeA
    }
  }

  /** The slot handed to the k-th item (0-based) when the first item gets `first`. */
  function Alternate(first: Slot, k: nat): Slot {
    if k % 2 == 0 then first else first.Other()
  }

  /** Consecutive items never share a slot: each gets the slot the previous one did not. */
  lemma AlternateStep(first: Slot, k: nat)
    ensures Alternate(first, k + 1) == Alternate(first, k).Other()
    ensures Alternate(first, k + 1) != Alternate(first, k)
  {
  }

  /** Two different slots are always the pair A and B. */
  lemma SlotPair(a: Slot, b: Slot)
    requires a != b
    ensures {a, b} == {PipeA, PipeB} && b == a.Other()
  {
  }
}
