/** Slots of a ring indexed by sequence number modulo capacity, as both windows use it. */
module Rings {
  import opened Common

  function Slot(sequence: nat, capacity: nat): (i: nat)
    requires capacity > 0
    ensures i < capacity
  {
    sequence % capacity
  }

  lemma DivMod(a: nat, c: nat)
    requires c > 0
    ensures a == (a / c) * c + a % c && 0 <= a % c < c
  {
  }

  /** Sequence numbers less than one lap apart use different slots. */
  lemma SlotsDiffer(a: nat, b: nat, capacity: nat)
    requires capacity > 0 && a < b < a + capacity
    ensures Slot(a, capacity) != Slot(b, capacity)
  {
    var p, q := a / capacity, b / capacity;
    DivMod(a, capacity);
    DivMod(b, capacity);
    if q <= p {
      MulMonotone(q, p, capacity);
    } else {
      MulMonotone(p + 1, q, capacity);
      assert (p + 1) * capacity == p * capacity + capacity;
    }
  }

  /** One lap later the slot comes round again. */
  lemma SlotWraps(a: nat, capacity: nat)
    requires capacity > 0
    ensures Slot(a + capacity, capacity) == Slot(a, capacity)
  {
    var p, q := a / capacity, (a + capacity) / capacity;
    DivMod(a, capacity);
    DivMod(a + capacity, capacity);
    assert (p + 1) * capacity == p * capacity + capacity;
    assert (p + 2) * capacity == (p + 1) * capacity + capacity;
    if q <= p {
      MulMonotone(q, p, capacity);
    }
    if q >= p + 2 {
      MulMonotone(p + 2, q, capacity);
    }
  }
}
