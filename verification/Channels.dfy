/** Channels: the agent's event channel as its producers see it, and a bounded channel as the ring of
    slots it is. */
module Channels {
  import opened Events

  /** EventChannel, as the sequence of everything sent to it. */
  class EventChannel {
    var sent: seq<ACEvent>

    constructor ()
      ensures sent == []
    {
      sent := [];
    }

    method Send(ev: ACEvent)
      modifies this
      ensures sent == old(sent) + [ev]
    {
      sent := sent + [ev];
    }
  }

  /** A channel of fixed capacity: count elements in a ring of slots, the oldest at start. */
  class BoundedChannel<T(0)> {
    const slots: array<T>
    var start: nat
    var count: nat

    ghost predicate Valid()
      reads this
    {
      start < slots.Length && count <= slots.Length
    }

    /** What is in the channel, oldest first. */
    ghost function Contents(): (s: seq<T>)
      requires Valid()
      reads this, slots
      ensures |s| == count
    {
      if start + count <= slots.Length then slots[start..start + count]
      else slots[start..] + slots[..start + count - slots.Length]
    }

    /** The slot of element i, and of the next element when i is count. */
    function Slot(i: nat): (k: nat)
      requires start < slots.Length && i <= slots.Length
      reads this
      ensures k < slots.Length
    {
      if start + i < slots.Length then start + i else start + i - slots.Length
    }

    constructor (capacity: nat)
      requires capacity > 0
      ensures Valid() && fresh(slots) && slots.Length == capacity && Contents() == []
    {
      slots := new T[capacity];
      start, count := 0, 0;
    }

    method Send(x: T)
      requires Valid() && count < slots.Length
      modifies this`count, slots
      ensures Valid() && Contents() == old(Contents()) + [x]
    {
      slots[Slot(count)] := x;
      count := count + 1;
    }

    method Receive() returns (x: T)
      requires Valid() && count > 0
      modifies this`start, this`count
      ensures Valid() && [x] + Contents() == old(Contents())
    {
      x := slots[start];
      start, count := Slot(1), count - 1;
    }
  }
}
