/** The sender's window of src/transfer/window.cpp: a ring of slots and a timer heap with
    lazy deletion, standing for a map from unacknowledged packets to deadlines. */
module SenderWindows {
  import opened Common
  import opened Packets
  import opened Rings

  type Time = int

  // ------------------------------------------------------------------------
  // What the ring and the heap stand for
  // ------------------------------------------------------------------------

  /** `unacked` are the packets sent and not acknowledged; `armed` are those of them that
      have a timer running, with its deadline. */
  datatype SView = SView(capacity: nat, base: nat, next: nat, unacked: set<nat>, armed: map<nat, Time>)

  function NewView(capacity: uint32): SView {
    SView(if capacity == 0 then 1 else capacity, 0, 0, {}, map[])
  }

  /** `base` is the least unacknowledged packet, or `next` when there is none. */
  ghost predicate WellFormed(v: SView) {
    && 1 <= v.capacity < TWO_32
    && v.base <= v.next <= v.base + v.capacity && v.next < TWO_32
    && (forall s <- v.unacked :: v.base <= s < v.next)
    && (v.base < v.next ==> v.base in v.unacked)
    && v.armed.Keys <= v.unacked
  }

  predicate CanSend(v: SView) {
    v.next - v.base < v.capacity
  }

  function Sent(v: SView, deadline: Time): SView {
    v.(next := v.next + 1, unacked := v.unacked + {v.next}, armed := v.armed[v.next := deadline])
  }

  /** The first unacknowledged packet from `base` on. */
  function Slide(unacked: set<nat>, base: nat, next: nat): (b: nat)
    ensures base <= next ==> base <= b <= next
    ensures forall s: nat :: base <= s < b ==> s !in unacked
    ensures b < next ==> b in unacked
    decreases next - base
  {
    if base < next && base !in unacked then Slide(unacked, base + 1, next) else base
  }

  function Acked(v: SView, s: nat): SView {
    if s !in v.unacked then v
    else
      var unacked := v.unacked - {s};
      v.(unacked := unacked, base := Slide(unacked, v.base, v.next), armed := v.armed - {s})
  }

  function Rescheduled(v: SView, s: nat, deadline: Time): SView {
    if s in v.unacked then v.(armed := v.armed[s := deadline]) else v
  }

  /** The earliest running timer, or none. */
  ghost predicate IsEarliest(v: SView, o: Option<Time>) {
    match o
    case None => v.armed == map[]
    case Some(t) => t in v.armed.Values && forall s <- v.armed :: t <= v.armed[s]
  }

  function Elements(xs: seq<nat>): set<nat> {
    set x | x in xs
  }

  /** `expired` lists every armed packet that is due, each once and earliest first, and
      exactly those are disarmed. */
  ghost predicate IsExpiry(v: SView, now: Time, expired: seq<nat>, w: SView) {
    && (forall s: nat :: s in expired <==> s in v.armed && v.armed[s] <= now)
    && (forall i, j :: 0 <= i < j < |expired| ==> expired[i] != expired[j])
    && (forall s <- expired :: s in v.armed)
    && (forall i, j :: 0 <= i < j < |expired| ==> v.armed[expired[i]] <= v.armed[expired[j]])
    && w == v.(armed := v.armed - Elements(expired))
  }

  // ------------------------------------------------------------------------
  // Laws of the map
  // ------------------------------------------------------------------------

  lemma SentWellFormed(v: SView, deadline: Time)
    requires WellFormed(v) && CanSend(v) && v.next + 1 < TWO_32
    ensures WellFormed(Sent(v, deadline))
  {
  }

  /** An acknowledgement retires one packet for good, whichever it was, and moves the base to
      the least packet still unacknowledged; anything else leaves the window alone. */
  lemma AckedWellFormed(v: SView, s: nat)
    requires WellFormed(v)
    ensures WellFormed(Acked(v, s))
    ensures Acked(v, s).unacked == v.unacked - {s}
    ensures Acked(v, s).base >= v.base && Acked(v, s).next == v.next
    ensures Acked(Acked(v, s), s) == Acked(v, s)
    ensures Acked(v, s) == v <==> s !in v.unacked
  {
  }

  /** The base is determined by the set it is the least element of. */
  lemma BaseIsLeast(v: SView)
    requires WellFormed(v)
    ensures v.base == v.next <==> v.unacked == {}
    ensures v.unacked != {} ==> v.base in v.unacked && forall s <- v.unacked :: v.base <= s
  {
  }

  /** Acknowledgements may arrive in any order. */
  lemma AckOrder(v: SView, s: nat, t: nat)
    requires WellFormed(v)
    ensures Acked(Acked(v, s), t) == Acked(Acked(v, t), s)
  {
    var st := Acked(Acked(v, s), t);
    var ts := Acked(Acked(v, t), s);
    AckedWellFormed(v, s);
    AckedWellFormed(v, t);
    AckedWellFormed(Acked(v, s), t);
    AckedWellFormed(Acked(v, t), s);
    assert st.unacked == ts.unacked;
    assert st.armed == ts.armed;
    BaseIsLeast(st);
    BaseIsLeast(ts);
  }

  // ------------------------------------------------------------------------
  // The ring and the heap
  // ------------------------------------------------------------------------

  datatype SlotState = SlotState(outstanding: bool, generation: nat)

  datatype Entry = Entry(deadline: Time, sequence: nat, generation: nat)

  predicate IsLive(slots: seq<SlotState>, e: Entry)
    requires slots != []
  {
    var slot := slots[Slot(e.sequence, |slots|)];
    slot.outstanding && slot.generation == e.generation
  }

  /** A slot is taken exactly by the unacknowledged packet of its lap. */
  ghost predicate SlotsMatch(v: SView, slots: seq<SlotState>)
    requires slots != []
  {
    && |slots| == v.capacity
    && forall s: nat :: v.base <= s < v.base + v.capacity ==>
         (s in v.unacked <==> slots[Slot(s, v.capacity)].outstanding)
  }

  /** Generations only grow, so every entry is as old as its slot or older; the live ones are
      the armed timers, one each; all others are ghosts. */
  ghost predicate TimersMatch(armed: map<nat, Time>, slots: seq<SlotState>, timers: multiset<Entry>)
    requires slots != []
  {
    && (forall e <- timers :: e.generation <= slots[Slot(e.sequence, |slots|)].generation)
    && (forall e <- timers :: IsLive(slots, e) ==>
          e.sequence in armed && armed[e.sequence] == e.deadline && timers[e] == 1)
    && (forall s <- armed :: TimerOf(armed, slots, s) in timers && IsLive(slots, TimerOf(armed, slots, s)))
  }

  /** The one live entry of an armed packet. */
  function TimerOf(armed: map<nat, Time>, slots: seq<SlotState>, s: nat): Entry
    requires slots != [] && s in armed
  {
    Entry(armed[s], s, slots[Slot(s, |slots|)].generation)
  }

  /** Two packets of one lap never share a slot. */
  lemma SlotsApart(base: nat, capacity: nat, s: nat)
    requires capacity > 0 && base <= s < base + capacity
    ensures forall t: nat :: base <= t < base + capacity && t != s ==> Slot(t, capacity) != Slot(s, capacity)
  {
    hide Slot;
    forall t: nat | base <= t < base + capacity && t != s
      ensures Slot(t, capacity) != Slot(s, capacity)
    {
      if t < s {
        SlotsDiffer(t, s, capacity);
      } else {
        SlotsDiffer(s, t, capacity);
      }
    }
  }

  /** Bumping a slot's generation turns every entry it has in the heap into a ghost, and no
      other slot's. This is what cancels a timer that is buried in the heap. */
  lemma BumpKeepsTimers(v: SView, slots: seq<SlotState>, timers: multiset<Entry>, s: nat, out: bool)
    requires WellFormed(v) && |slots| == v.capacity && v.base <= s < v.base + v.capacity
    requires TimersMatch(v.armed, slots, timers)
    ensures var i := Slot(s, v.capacity);
            var bumped := slots[i := SlotState(out, slots[i].generation + 1)];
            && TimersMatch(v.armed - {s}, bumped, timers)
            && forall e <- timers :: Slot(e.sequence, v.capacity) == i ==>
                 !IsLive(bumped, e) && e.generation < bumped[i].generation
  {
    hide Slot;
    SlotsApart(v.base, v.capacity, s);
    var i := Slot(s, v.capacity);
    var bumped := slots[i := SlotState(out, slots[i].generation + 1)];
    var rest := v.armed - {s};
    forall t <- rest ensures TimerOf(rest, bumped, t) in timers && IsLive(bumped, TimerOf(rest, bumped, t)) {
      assert TimerOf(rest, bumped, t) == TimerOf(v.armed, slots, t);
    }
    forall e <- timers | IsLive(bumped, e)
      ensures e.sequence in rest && rest[e.sequence] == e.deadline && timers[e] == 1
    {
      assert IsLive(slots, e);
    }
  }

  /** Bumping and pushing an entry of the new generation arms the packet's timer. */
  lemma ArmKeepsTimers(v: SView, slots: seq<SlotState>, timers: multiset<Entry>, s: nat, deadline: Time)
    requires WellFormed(v) && |slots| == v.capacity && v.base <= s < v.base + v.capacity
    requires TimersMatch(v.armed, slots, timers)
    ensures var i := Slot(s, v.capacity);
            var fresher := SlotState(true, slots[i].generation + 1);
            TimersMatch(v.armed[s := deadline], slots[i := fresher],
                        timers + multiset{Entry(deadline, s, fresher.generation)})
  {
    hide Slot;
    var i := Slot(s, v.capacity);
    var fresher := SlotState(true, slots[i].generation + 1);
    var slots' := slots[i := fresher];
    var e := Entry(deadline, s, fresher.generation);
    var timers' := timers + multiset{e};
    var armed' := v.armed[s := deadline];
    BumpKeepsTimers(v, slots, timers, s, true);
    assert e !in timers;
    forall t <- armed' ensures TimerOf(armed', slots', t) in timers' && IsLive(slots', TimerOf(armed', slots', t)) {
      if t != s {
        assert TimerOf(armed', slots', t) == TimerOf(v.armed - {s}, slots', t);
      }
    }
  }

  /** Removing a ghost, or any entry that is not the timer of an armed packet, is harmless. */
  lemma PopKeepsTimers(armed: map<nat, Time>, slots: seq<SlotState>, timers: multiset<Entry>, e: Entry)
    requires slots != [] && TimersMatch(armed, slots, timers) && e in timers && !IsLive(slots, e)
    ensures TimersMatch(armed, slots, timers - multiset{e})
  {
    var rest := timers - multiset{e};
    forall s <- armed ensures TimerOf(armed, slots, s) in rest && IsLive(slots, TimerOf(armed, slots, s)) {
      assert TimerOf(armed, slots, s) != e;
    }
    forall x <- rest ensures x in timers && (x != e ==> rest[x] == timers[x]) {
    }
  }

  lemma DisarmKeeps(v: SView, slots: seq<SlotState>, timers: multiset<Entry>, e: Entry)
    requires WellFormed(v) && slots != [] && SlotsMatch(v, slots) && TimersMatch(v.armed, slots, timers)
    requires e in timers && IsLive(slots, e) && e.sequence in v.armed
    ensures var i := Slot(e.sequence, v.capacity);
            var w := v.(armed := v.armed - {e.sequence});
            && i < |slots|
            && var bumped := slots[i := SlotState(slots[i].outstanding, slots[i].generation + 1)];
            && WellFormed(w) && SlotsMatch(w, bumped) && TimersMatch(w.armed, bumped, timers - multiset{e})
  {
    hide Slot, TimersMatch;
    var s := e.sequence;
    SlotsApart(v.base, v.capacity, s);
    BumpKeepsTimers(v, slots, timers, s, true);
    var i := Slot(s, v.capacity);
    PopKeepsTimers(v.armed - {s}, slots[i := SlotState(true, slots[i].generation + 1)], timers, e);
  }

  /** The next packet's slot is taken and its timer armed. */
  lemma SentKeeps(v: SView, slots: seq<SlotState>, timers: multiset<Entry>, deadline: Time)
    requires WellFormed(v) && CanSend(v) && v.next + 1 < TWO_32
    requires slots != [] && SlotsMatch(v, slots) && TimersMatch(v.armed, slots, timers)
    ensures var i := Slot(v.next, v.capacity);
            var w := Sent(v, deadline);
            && i < |slots|
            && var taken := SlotState(true, slots[i].generation + 1);
               && WellFormed(w) && SlotsMatch(w, slots[i := taken])
               && TimersMatch(w.armed, slots[i := taken], timers + multiset{Entry(deadline, v.next, taken.generation)})
  {
    hide Slot, TimersMatch;
    SlotsApart(v.base, v.capacity, v.next);
    ArmKeepsTimers(v, slots, timers, v.next, deadline);
  }

  /** The timer of an outstanding packet is armed anew. */
  lemma RescheduledKeeps(v: SView, slots: seq<SlotState>, timers: multiset<Entry>, s: nat, deadline: Time)
    requires WellFormed(v) && s in v.unacked
    requires slots != [] && SlotsMatch(v, slots) && TimersMatch(v.armed, slots, timers)
    ensures var i := Slot(s, v.capacity);
            var w := Rescheduled(v, s, deadline);
            && i < |slots|
            && var taken := SlotState(true, slots[i].generation + 1);
               && WellFormed(w) && SlotsMatch(w, slots[i := taken])
               && TimersMatch(w.armed, slots[i := taken], timers + multiset{Entry(deadline, s, taken.generation)})
  {
    hide Slot, TimersMatch;
    SlotsApart(v.base, v.capacity, s);
    ArmKeepsTimers(v, slots, timers, s, deadline);
  }

  /** Whether a packet is outstanding can be read off its slot. */
  lemma OutstandingSlot(v: SView, slots: seq<SlotState>, s: nat)
    requires WellFormed(v) && slots != [] && SlotsMatch(v, slots)
    ensures s in v.unacked ==> v.base <= s < v.next
    ensures v.base <= s < v.next ==>
              Slot(s, v.capacity) < |slots| && (s in v.unacked <==> slots[Slot(s, v.capacity)].outstanding)
  {
    hide Slot;
  }

  lemma EmptyHeap(armed: map<nat, Time>, slots: seq<SlotState>, timers: multiset<Entry>)
    requires slots != [] && TimersMatch(armed, slots, timers) && timers == multiset{}
    ensures armed == map[]
  {
  }

  /** Some entry is on top of any heap that is not empty. */
  lemma {:induction false} HeapHasTop(timers: multiset<Entry>) returns (top: Entry)
    requires timers != multiset{}
    ensures top in timers && forall e <- timers :: top.deadline <= e.deadline
    decreases |timers|
  {
    top :| top in timers;
    var rest := timers - multiset{top};
    assert forall e <- timers :: e == top || e in rest;
    if rest != multiset{} {
      var other := HeapHasTop(rest);
      if other.deadline < top.deadline {
        top := other;
      }
    }
  }

  // ------------------------------------------------------------------------
  // How many entries there are
  // ------------------------------------------------------------------------

  /** No packet has two entries in the heap, and an unacknowledged packet with an entry has a
      running timer. */
  ghost predicate OneEntryEach(v: SView, timers: multiset<Entry>) {
    && (forall e <- timers :: timers[e] == 1 && e.sequence < v.next)
    && (forall e <- timers, f <- timers :: e.sequence == f.sequence ==> e == f)
    && (forall e <- timers :: e.sequence in v.unacked ==> e.sequence in v.armed)
  }

  /** Then an entry is a ghost exactly when its packet has been acknowledged. */
  lemma GhostsAreAcknowledged(v: SView, slots: seq<SlotState>, timers: multiset<Entry>, e: Entry)
    requires WellFormed(v) && |slots| == v.capacity && TimersMatch(v.armed, slots, timers)
    requires OneEntryEach(v, timers) && e in timers
    ensures IsLive(slots, e) <==> e.sequence in v.unacked
  {
    hide Slot;
    if e.sequence in v.unacked {
      assert TimerOf(v.armed, slots, e.sequence) in timers;
    }
  }

  /** An entry that falls due later than a running timer was pushed after that timer, so its
      packet is less than a window behind. */
  ghost predicate EntriesNear(v: SView, timers: multiset<Entry>) {
    forall s <- v.armed, e <- timers :: e.deadline > v.armed[s] ==> s < e.sequence + v.capacity
  }

  /** No entry falls due later than this. */
  ghost predicate NoneLater(timers: multiset<Entry>, deadline: Time) {
    forall e <- timers :: e.deadline <= deadline
  }

  lemma OneEntrySent(v: SView, timers: multiset<Entry>, e: Entry)
    requires OneEntryEach(v, timers) && e.sequence == v.next
    ensures OneEntryEach(Sent(v, e.deadline), timers + multiset{e})
  {
  }

  lemma NearSent(v: SView, timers: multiset<Entry>, e: Entry)
    requires WellFormed(v) && EntriesNear(v, timers) && e.sequence == v.next && NoneLater(timers, e.deadline)
    ensures EntriesNear(Sent(v, e.deadline), timers + multiset{e})
    ensures NoneLater(timers + multiset{e}, e.deadline)
  {
  }

  lemma OneEntryAcked(v: SView, timers: multiset<Entry>, s: nat)
    requires OneEntryEach(v, timers)
    ensures OneEntryEach(Acked(v, s), timers)
    ensures EntriesNear(v, timers) ==> EntriesNear(Acked(v, s), timers)
  {
  }

  lemma OneEntryPopped(v: SView, timers: multiset<Entry>, e: Entry)
    requires OneEntryEach(v, timers) && e in timers
    ensures OneEntryEach(v, timers - multiset{e})
    ensures OneEntryEach(v.(armed := v.armed - {e.sequence}), timers - multiset{e})
    ensures EntriesNear(v, timers) ==>
              && EntriesNear(v, timers - multiset{e})
              && EntriesNear(v.(armed := v.armed - {e.sequence}), timers - multiset{e})
  {
    var rest := timers - multiset{e};
    forall f <- rest ensures f in timers && f != e && rest[f] == 1 {
    }
  }

  /** A packet without a running timer is armed again: it had no entry left. */
  lemma OneEntryArmed(v: SView, timers: multiset<Entry>, e: Entry)
    requires OneEntryEach(v, timers) && e.sequence in v.unacked && e.sequence !in v.armed && e.sequence < v.next
    ensures OneEntryEach(Rescheduled(v, e.sequence, e.deadline), timers + multiset{e})
  {
  }

  lemma NearArmed(v: SView, timers: multiset<Entry>, e: Entry)
    requires WellFormed(v) && EntriesNear(v, timers) && e.sequence in v.unacked && NoneLater(timers, e.deadline)
    ensures EntriesNear(Rescheduled(v, e.sequence, e.deadline), timers + multiset{e})
    ensures NoneLater(timers + multiset{e}, e.deadline)
  {
  }

  // ------------------------------------------------------------------------
  // How large the heap can get
  // ------------------------------------------------------------------------

  function Later(timers: multiset<Entry>, deadline: Time): set<Entry> {
    set e | e in timers && e.deadline > deadline
  }

  lemma {:induction false} RangeSize(xs: set<nat>, low: int, high: int)
    requires forall x <- xs :: low <= x < high
    ensures low <= high ==> |xs| <= high - low
    decreases high - low
  {
    if low < high {
      RangeSize(xs - {high - 1}, low, high - 1);
      SubsetSize(xs, (xs - {high - 1}) + {high - 1});
    } else {
      assert xs == {};
    }
  }

  lemma {:induction false} AsManyPackets(xs: set<Entry>)
    requires forall e <- xs, f <- xs :: e.sequence == f.sequence ==> e == f
    ensures |set e | e in xs :: e.sequence| == |xs|
    decreases |xs|
  {
    if xs != {} {
      var e :| e in xs;
      AsManyPackets(xs - {e});
      assert (set f | f in xs :: f.sequence) == (set f | f in xs - {e} :: f.sequence) + {e.sequence};
    }
  }

  function Tied(timers: multiset<Entry>, deadline: Time): set<Entry> {
    set e | e in timers && e.deadline == deadline
  }

  lemma LaterIsSmall(v: SView, timers: multiset<Entry>, top: Entry)
    requires WellFormed(v) && OneEntryEach(v, timers) && EntriesNear(v, timers)
    requires top in timers && top.sequence in v.armed && v.armed[top.sequence] == top.deadline
    ensures |Later(timers, top.deadline)| <= 2 * v.capacity - 2
  {
    var all := Later(timers, top.deadline) + {top};
    forall e <- all ensures top.sequence - v.capacity + 1 <= e.sequence < top.sequence + v.capacity {
    }
    hide EntriesNear, WellFormed;
    AsManyPackets(all);
    RangeSize(set e | e in all :: e.sequence, top.sequence - v.capacity + 1, top.sequence + v.capacity);
    assert top !in Later(timers, top.deadline);
  }

  /** With the ghosts pruned off the top the heap holds fewer than two windows of entries,
      however many packets have been retransmitted; only those that fall due at the very
      instant of the earliest timer come on top, because they may lie beneath it. */
  lemma HeapIsSmall(v: SView, timers: multiset<Entry>, top: Entry)
    requires WellFormed(v) && OneEntryEach(v, timers) && EntriesNear(v, timers)
    requires top in timers && top.sequence in v.armed && v.armed[top.sequence] == top.deadline
    requires forall e <- timers :: top.deadline <= e.deadline
    ensures |timers| <= 2 * v.capacity - 2 + |Tied(timers, top.deadline)|
    ensures (forall e <- timers, f <- timers :: e.deadline == f.deadline ==> e == f) ==> |timers| < 2 * v.capacity
  {
    hide WellFormed, EntriesNear;
    LaterIsSmall(v, timers, top);
    var later, tied := Later(timers, top.deadline), Tied(timers, top.deadline);
    assert timers == multiset(later) + multiset(tied);
    if forall e <- timers, f <- timers :: e.deadline == f.deadline ==> e == f {
      assert tied == {top};
    }
  }

  class SenderWindow {
    var capacity: nat
    var base: nat
    var next: nat
    var slots: seq<SlotState>
    var timers: multiset<Entry>
    ghost var unacked: set<nat>
    ghost var armed: map<nat, Time>

    ghost function View(): SView
      reads this
    {
      SView(capacity, base, next, unacked, armed)
    }

    ghost predicate Valid()
      reads this
    {
      && slots != [] && WellFormed(View())
      && SlotsMatch(View(), slots) && TimersMatch(armed, slots, timers)
    }

    /** How the heap is used: one entry for each packet at most, pushed in order of time. */
    ghost predicate Tidy()
      reads this
    {
      OneEntryEach(View(), timers) && EntriesNear(View(), timers)
    }

    constructor (requested: uint32)
      ensures Valid() && Tidy() && View() == NewView(requested)
    {
      var n := if requested == 0 then 1 else requested;
      capacity := n;
      base := 0;
      next := 0;
      slots := seq(n, _ => SlotState(false, 0));
      timers := multiset{};
      unacked := {};
      armed := map[];
    }

    /** can_send. */
    predicate HasRoom()
      reads this
      ensures HasRoom() <==> CanSend(View())
    {
      next - base < capacity
    }

    method OnSent(deadline: Time)
      requires Valid() && CanSend(View()) && next + 1 < TWO_32
      modifies this
      ensures Valid() && View() == Sent(old(View()), deadline)
      ensures old(Tidy()) && NoneLater(old(timers), deadline) ==> Tidy() && NoneLater(timers, deadline)
    {
      hide Slot, TimersMatch, SlotsMatch, WellFormed, OneEntryEach, EntriesNear, NoneLater;
      SentKeeps(View(), slots, timers, deadline);
      var i := Slot(next, capacity);
      ghost var entry := Entry(deadline, next, slots[i].generation + 1);
      if Tidy() && NoneLater(timers, deadline) {
        OneEntrySent(View(), timers, entry);
        NearSent(View(), timers, entry);
      }
      slots := slots[i := SlotState(true, slots[i].generation + 1)];
      timers := timers + multiset{Entry(deadline, next, slots[i].generation)};
      unacked := unacked + {next};
      armed := armed[next := deadline];
      next := next + 1;
    }

    method OnAck(sequence: uint32) returns (retired: bool)
      requires Valid()
      modifies this
      ensures Valid() && View() == Acked(old(View()), sequence)
      ensures retired <==> sequence in old(unacked)
      ensures old(Tidy()) ==> Tidy()
      ensures timers == old(timers)
    {
      hide Slot, TimersMatch, OneEntryEach, EntriesNear;
      if Tidy() {
        OneEntryAcked(View(), timers, sequence);
      }
      if sequence < base || sequence >= next {
        return false;
      }
      var i := Slot(sequence, capacity);
      if !slots[i].outstanding {
        return false;
      }
      AckedWellFormed(View(), sequence);
      SlotsApart(base, capacity, sequence);
      BumpKeepsTimers(View(), slots, timers, sequence, false);
      slots := slots[i := SlotState(false, slots[i].generation + 1)];
      unacked := unacked - {sequence};
      armed := armed - {sequence};
      SlideBase();
      return true;
    }

    method SlideBase()
      requires slots != [] && base <= next <= base + capacity && SlotsMatch(View(), slots)
      requires forall s <- unacked :: s < next
      modifies `base
      ensures base == Slide(unacked, old(base), next) && SlotsMatch(View(), slots)
    {
      hide Slot;
      while base < next && !slots[Slot(base, capacity)].outstanding
        invariant old(base) <= base <= next && SlotsMatch(View(), slots)
        invariant Slide(unacked, base, next) == Slide(unacked, old(base), next)
      {
        SlotWraps(base, capacity);
        base := base + 1;
      }
    }

    /** Pop ghosts off the top; what is left on top, if anything, is the earliest timer. */
    method Prune() returns (top: Option<Entry>)
      requires Valid()
      modifies `timers
      ensures Valid() && timers <= old(timers) && |timers| <= |old(timers)|
      ensures old(Tidy()) ==> Tidy()
      ensures top.None? ==> armed == map[]
      ensures top.Some? ==>
                && top.value in timers && IsLive(slots, top.value)
                && top.value.sequence in armed && armed[top.value.sequence] == top.value.deadline
                && (forall s <- armed :: top.value.deadline <= armed[s])
                && (forall e <- timers :: top.value.deadline <= e.deadline)
    {
      hide Slot, OneEntryEach, EntriesNear, SlotsMatch, WellFormed;
      while timers != multiset{}
        invariant Valid() && timers <= old(timers) && |timers| <= |old(timers)|
        invariant old(Tidy()) ==> Tidy()
        decreases |timers|
      {
        ghost var least := HeapHasTop(timers);
        var e :| e in timers && forall x <- timers :: e.deadline <= x.deadline;
        if IsLive(slots, e) {
          forall s <- armed ensures e.deadline <= armed[s] {
            assert TimerOf(armed, slots, s) in timers;
          }
          return Some(e);
        }
        PopGhost(e);
      }
      EmptyHeap(armed, slots, timers);
      return None;
    }

    method PopGhost(e: Entry)
      requires Valid() && e in timers && !IsLive(slots, e)
      modifies `timers
      ensures Valid() && timers == old(timers) - multiset{e}
      ensures old(Tidy()) ==> Tidy()
    {
      hide Slot, OneEntryEach, EntriesNear, SlotsMatch, WellFormed, TimersMatch;
      PopKeepsTimers(armed, slots, timers, e);
      if Tidy() {
        OneEntryPopped(View(), timers, e);
      }
      timers := timers - multiset{e};
    }

    method EarliestDeadline() returns (deadline: Option<Time>)
      requires Valid()
      modifies `timers
      ensures Valid() && IsEarliest(View(), deadline) && timers <= old(timers)
      ensures old(Tidy()) ==> Tidy()
      ensures deadline.Some? ==> forall e <- timers :: deadline.value <= e.deadline
      ensures old(Tidy()) && deadline.Some? ==> |timers| <= 2 * capacity - 2 + |Tied(timers, deadline.value)|
    {
      hide Slot, OneEntryEach, EntriesNear;
      var top := Prune();
      if top.None? {
        return None;
      }
      if Tidy() {
        HeapIsSmall(View(), timers, top.value);
      }
      return Some(top.value.deadline);
    }

    method Expire(now: Time) returns (expired: seq<nat>)
      requires Valid()
      modifies `timers, `slots, `armed
      ensures Valid() && IsExpiry(old(View()), now, expired, View()) && timers <= old(timers)
      ensures old(Tidy()) ==> Tidy()
    {
      hide Slot, TimersMatch, SlotsMatch, OneEntryEach, EntriesNear;
      expired := [];
      assert armed - Elements([]) == armed;
      while true
        invariant Valid() && View() == old(View()).(armed := armed) && timers <= old(timers)
        invariant old(Tidy()) ==> Tidy()
        invariant armed == old(armed) - Elements(expired)
        invariant forall s <- expired :: s in old(armed) && old(armed)[s] <= now
        invariant forall i, j :: 0 <= i < j < |expired| ==>
                    expired[i] != expired[j] && old(armed)[expired[i]] <= old(armed)[expired[j]]
        invariant forall s <- expired, t <- armed :: old(armed)[s] <= armed[t]
        decreases |timers|
      {
        var top := Prune();
        if top.None? || top.value.deadline > now {
          break;
        }
        var entry := top.value;
        DisarmTop(entry);
        expired := expired + [entry.sequence];
        assert armed == old(armed) - Elements(expired);
      }
      forall s <- old(armed) | old(armed)[s] <= now ensures s in expired {
        assert s in Elements(expired) || s in armed;
      }
    }

    /** Pop the due entry and disarm its packet. */
    method DisarmTop(entry: Entry)
      requires Valid() && entry in timers && IsLive(slots, entry) && entry.sequence in armed
      modifies `timers, `slots, `armed
      ensures Valid() && armed == old(armed) - {entry.sequence}
      ensures timers <= old(timers) && |timers| < |old(timers)|
      ensures old(Tidy()) ==> Tidy()
    {
      hide Slot, TimersMatch, OneEntryEach, EntriesNear, SlotsMatch, WellFormed;
      if Tidy() {
        OneEntryPopped(View(), timers, entry);
      }
      DisarmKeeps(View(), slots, timers, entry);
      var i := Slot(entry.sequence, capacity);
      slots := slots[i := SlotState(slots[i].outstanding, slots[i].generation + 1)];
      armed := armed - {entry.sequence};
      timers := timers - multiset{entry};
    }

    method Reschedule(sequence: uint32, deadline: Time)
      requires Valid()
      modifies this
      ensures Valid() && View() == Rescheduled(old(View()), sequence, deadline)
      ensures old(Tidy()) && sequence !in old(armed) && NoneLater(old(timers), deadline) ==>
                Tidy() && NoneLater(timers, deadline)
    {
      hide Slot, TimersMatch, SlotsMatch, WellFormed, OneEntryEach, EntriesNear, NoneLater;
      OutstandingSlot(View(), slots, sequence);
      if sequence < base || sequence >= next {
        return;
      }
      var i := Slot(sequence, capacity);
      if !slots[i].outstanding {
        return;
      }
      RescheduledKeeps(View(), slots, timers, sequence, deadline);
      if Tidy() && sequence !in armed && NoneLater(timers, deadline) {
        OneEntryArmed(View(), timers, Entry(deadline, sequence, slots[i].generation + 1));
        NearArmed(View(), timers, Entry(deadline, sequence, slots[i].generation + 1));
      }
      slots := slots[i := SlotState(true, slots[i].generation + 1)];
      timers := timers + multiset{Entry(deadline, sequence, slots[i].generation)};
      armed := armed[sequence := deadline];
    }
  }
}
