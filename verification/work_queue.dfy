/**
 * The relay's work list: a shared list of FIFO slots, appended at the back by the
 * transcoder launcher and popped from the front by the relay.
 */
module WorkQueues {
  import opened Slots

  class WorkQueue {
    /** The slots waiting to be drained, oldest first. */
    var items: seq<Slot>
    /** Every slot ever appended, in append order. */
    ghost var appended: seq<Slot>
    /** Every slot ever popped, in pop order. */
    ghost var popped: seq<Slot>

    /** FIFO discipline: what has been popped, followed by what waits, is exactly what was appended. */
    ghost predicate Valid()
      reads this
    {
      appended == popped + items
    }

    constructor ()
      ensures Valid()
      ensures items == [] && appended == [] && popped == []
    {
      items := [];
      appended := [];
      popped := [];
    }

    /** `list.append`: adds a slot at the back. */
    method Append(slot: Slot)
      requires Valid()
      modifies this
      ensures Valid()
      ensures items == old(items) + [slot]
      ensures appended == old(appended) + [slot] && popped == old(popped)
    {
      items := items + [slot];
      appended := appended + [slot];
    }

    /** `list.pop(0)`: removes and returns the head; the caller checks emptiness first. */
    method PopFront() returns (slot: Slot)
      requires Valid()
      requires items != []
      modifies this
      ensures Valid()
      ensures slot == old(items)[0] && items == old(items)[1..]
      ensures popped == old(popped) + [slot] && appended == old(appended)
      ensures slot == appended[|old(popped)|]
    {
      slot := items[0];
      items := items[1..];
      popped := popped + [slot];
    }
  }
}
