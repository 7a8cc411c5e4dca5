/** src/core/thread/queue.h when one thread makes every call, as the main thread does with its event
    queue: the object itself, proved to be a FIFO of at most capacity - 1 elements. */
module SpscQueue {
  import R = SpscRing

  class SPSCQueue<T(0)> {
    const capacity: nat
    const slots: array<T>
    var head: nat
    var tail: nat

    ghost predicate Valid()
      reads this
    {
      capacity > 0 && slots.Length == capacity && head < capacity && tail < capacity
    }

    /** The queued elements, oldest first. */
    ghost function Contents(): (c: seq<T>)
      requires Valid()
      reads this, slots
      ensures |c| < capacity
    {
      seq(R.Span(head, tail, capacity), (i: nat) requires Valid() reads this, slots => slots[Place(head, i, capacity)])
    }

    constructor (capacity: nat)
      requires capacity > 0
      ensures Valid() && this.capacity == capacity && fresh(slots) && Contents() == []
    {
      this.capacity := capacity;
      slots := new T[capacity];
      head, tail := 0, 0;
    }

    method Push(val: T) returns (ok: bool)
      requires Valid()
      modifies this, slots
      ensures Valid()
      ensures ok <==> |old(Contents())| < capacity - 1
      ensures Contents() == if ok then old(Contents()) + [val] else old(Contents())
    {
      R.WrapIsRemainder(tail + 1, capacity);
      if head == (tail + 1) % capacity {
        return false;
      }
      ghost var n := R.Span(head, tail, capacity);
      Places(head, tail, n, capacity);
      slots[tail] := val;
      tail := (tail + 1) % capacity;
      assert R.Span(head, tail, capacity) == n + 1;
      return true;
    }

    /** The slot popped from is left holding whatever a move leaves. */
    method Pop() returns (ok: bool, out: T)
      requires Valid()
      modifies this, slots
      ensures Valid()
      ensures ok <==> |old(Contents())| > 0
      ensures ok ==> old(Contents()) == [out] + Contents()
      ensures !ok ==> Contents() == old(Contents())
    {
      if head == tail {
        return false, *;
      }
      R.WrapIsRemainder(head + 1, capacity);
      ghost var n := R.Span(head, tail, capacity);
      Places(head, tail, n, capacity);
      out := slots[head];
      slots[head] := *;
      head := (head + 1) % capacity;
      assert R.Span(head, tail, capacity) == n - 1;
      forall i: nat | i < n - 1 ensures Place(head, i, capacity) == Place(old(head), i + 1, capacity) {
        R.WrapSum(old(head) + 1, i, capacity);
      }
      ghost var was := old(Contents());
      assert was[0] == out by { assert Place(old(head), 0, capacity) == old(head); }
      assert was[1..] == Contents();
      ok := true;
    }
  }

  /** The slot of the element i places after the head. */
  function Place(head: nat, i: nat, cap: nat): (p: nat)
    requires cap > 0
    ensures p < cap
  {
    R.Wrap(head + i, cap)
  }

  /** The n occupied places, and the free one at the tail, are distinct slots. */
  lemma Places(head: nat, tail: nat, n: nat, cap: nat)
    requires head < cap && tail < cap && n == R.Span(head, tail, cap)
    ensures Place(head, 0, cap) == head && Place(head, n, cap) == tail
    ensures forall i: nat | i < n :: Place(head, i, cap) != tail
    ensures forall i: nat | 0 < i < n :: Place(head, i, cap) != head
  {
    assert R.Wrap(tail, cap) == tail;
    forall i: nat | i < n ensures Place(head, i, cap) != tail && (i > 0 ==> Place(head, i, cap) != head) {
      R.Window(head + i, head + n, cap);
      R.Window(head, head + i, cap);
    }
  }
}
