/** The receiver's window of src/transfer/window.cpp: a ring of bits that stands for the
    set of sequence numbers stored so far. */
module ReceiverWindows {
  import opened Common
  import opened Packets
  import opened Rings

  datatype Disposition = Accepted | Duplicate | OutsideWindow

  // ------------------------------------------------------------------------
  // What the ring stands for
  // ------------------------------------------------------------------------

  datatype RView = RView(capacity: nat, base: nat, stored: set<nat>)

  function EmptyView(capacity: uint32): RView {
    RView(if capacity == 0 then 1 else capacity, 0, {})
  }

  /** `base` is the least sequence number not stored, and nothing is stored beyond the ring. */
  ghost predicate WellFormed(v: RView) {
    && 1 <= v.capacity < TWO_32 && v.base < TWO_32
    && (forall s: nat :: s < v.base ==> s in v.stored)
    && v.base !in v.stored
    && (forall s <- v.stored :: s < v.base + v.capacity)
  }

  /** classify, on the set. The upper limit is computed in 32 bits and can wrap. */
  function Classify(v: RView, s: uint32): Disposition {
    if s < v.base then Duplicate
    else if s >= (v.base + v.capacity) % TWO_32 then OutsideWindow
    else if s in v.stored then Duplicate
    else Accepted
  }

  /** The first sequence number from `base` on that is not stored, up to `limit`. */
  function Slide(stored: set<nat>, base: nat, limit: nat): (b: nat)
    ensures base <= limit ==> base <= b <= limit
    ensures forall s: nat :: base <= s < b ==> s in stored
    ensures b < limit ==> b !in stored
    decreases limit - base
  {
    if base < limit && base in stored then Slide(stored, base + 1, limit) else base
  }

  function Mark(v: RView, s: uint32): RView {
    if Classify(v, s) != Accepted then v
    else
      var stored := v.stored + {s};
      v.(stored := stored, base := Slide(stored, v.base, v.base + v.capacity))
  }

  // ------------------------------------------------------------------------
  // Laws of the set
  // ------------------------------------------------------------------------

  /** What the three answers are supposed to mean. */
  function Meaning(v: RView, s: nat): Disposition {
    if s in v.stored then Duplicate
    else if s < v.base + v.capacity then Accepted
    else OutsideWindow
  }

  /** The answers agree with the set on every sequence number exactly when the limit fits in
      32 bits. When it wraps, nothing new is accepted at all. */
  lemma ClassifyExact(v: RView)
    requires WellFormed(v)
    ensures (forall s: uint32 :: Classify(v, s) == Meaning(v, s)) <==> v.base + v.capacity < TWO_32
    ensures v.base + v.capacity >= TWO_32 ==> forall s: uint32 :: Classify(v, s) != Accepted
  {
    if v.base + v.capacity >= TWO_32 {
      assert (v.base + v.capacity) % TWO_32 == v.base + v.capacity - TWO_32;
      assert Classify(v, v.base) != Meaning(v, v.base);
    } else {
      assert (v.base + v.capacity) % TWO_32 == v.base + v.capacity;
    }
  }

  /** Even when the limit wraps, what is accepted is new and fits the ring. */
  lemma AcceptedIsNew(v: RView, s: uint32)
    requires WellFormed(v) && Classify(v, s) == Accepted
    ensures s !in v.stored && v.base <= s < v.base + v.capacity < TWO_32
  {
    ClassifyExact(v);
  }

  lemma MarkWellFormed(v: RView, s: uint32)
    requires WellFormed(v)
    ensures WellFormed(Mark(v, s))
    ensures Mark(v, s).stored == v.stored + (if Classify(v, s) == Accepted then {s} else {})
    ensures Mark(v, s).base >= v.base && Mark(v, s).capacity == v.capacity
  {
    if Classify(v, s) == Accepted {
      AcceptedIsNew(v, s);
      var w := Mark(v, s);
      var limit := v.base + v.capacity;
      if w.base == limit {
        assert limit !in w.stored;
      }
    }
  }

  // ------------------------------------------------------------------------
  // The ring
  // ------------------------------------------------------------------------

  class ReceiverWindow {
    const capacity: nat
    var base: nat
    const received: array<bool>
    ghost var stored: set<nat>

    ghost function View(): RView
      reads this
    {
      RView(capacity, base, stored)
    }

    /** Every slot of the ring says whether the one sequence number it stands for is stored. */
    ghost predicate Clean()
      reads this, received
    {
      && received.Length == capacity && capacity > 0
      && forall s: nat :: base <= s < base + capacity ==> (s in stored <==> received[Slot(s, capacity)])
    }

    ghost predicate Valid()
      reads this, received
    {
      WellFormed(View()) && Clean()
    }

    constructor (requested: uint32)
      ensures Valid() && View() == EmptyView(requested) && fresh(received)
    {
      capacity := if requested == 0 then 1 else requested;
      base := 0;
      stored := {};
      received := new bool[if requested == 0 then 1 else requested](_ => false);
    }

    method ClassifySequence(sequence: uint32) returns (d: Disposition)
      requires Valid()
      ensures d == Classify(View(), sequence)
    {
      if sequence < base {
        return Duplicate;
      }
      if sequence >= (base + capacity) % TWO_32 {
        return OutsideWindow;
      }
      ClassifyExact(View());
      d := if received[Slot(sequence, capacity)] then Duplicate else Accepted;
    }

    method SetSlot(sequence: nat, value: bool)
      requires Clean() && base <= sequence < base + capacity
      modifies received
      ensures forall s: nat :: base <= s < base + capacity && s != sequence ==>
                (s in stored <==> received[Slot(s, capacity)])
      ensures received[Slot(sequence, capacity)] == value
    {
      hide Slot;
      received[Slot(sequence, capacity)] := value;
      forall s: nat | base <= s < base + capacity && s != sequence
        ensures Slot(s, capacity) != Slot(sequence, capacity)
      {
        if s < sequence {
          SlotsDiffer(s, sequence, capacity);
        } else {
          SlotsDiffer(sequence, s, capacity);
        }
      }
    }

    /** Slide over the contiguous prefix, cleaning each slot as it leaves the window. */
    method SlideBase(ghost limit: nat)
      requires Clean() && base <= limit <= base + capacity
      requires forall s <- stored :: s < limit
      modifies `base, received
      ensures Clean() && base == Slide(stored, old(base), limit)
    {
      hide Slot;
      while received[Slot(base, capacity)]
        invariant old(base) <= base <= limit && Clean()
        invariant Slide(stored, base, limit) == Slide(stored, old(base), limit)
        decreases limit - base
      {
        assert base in stored;
        SetSlot(base, false);
        SlotWraps(base, capacity);
        base := base + 1;
      }
      assert base !in stored;
    }

    method MarkReceived(sequence: uint32)
      requires Valid()
      modifies `base, `stored, received
      ensures Valid() && View() == Mark(old(View()), sequence)
    {
      hide Slot;
      var d := ClassifySequence(sequence);
      if d != Accepted {
        return;
      }
      AcceptedIsNew(View(), sequence);
      MarkWellFormed(View(), sequence);
      SetSlot(sequence, true);
      stored := stored + {sequence};
      SlideBase(base + capacity);
    }
  }
}
