/** The table-driven CRC-32 of src/protocol/crc32.cpp, and why it detects errors.

    The word operations have names, so that everything beyond the first few lemmas
    reasons about exclusive or and shifting by their laws instead of bit by bit. */
module Crc32 {
  import opened Common

  const POLYNOMIAL: bv32 := 0xEDB88320
  const ALL_ONES: bv32 := 0xFFFF_FFFF

  // ------------------------------------------------------------------------
  // Words
  // ------------------------------------------------------------------------

  function Xor(a: bv32, b: bv32): bv32 { a ^ b }

  function Half(v: bv32): bv32 { v >> 1 }

  predicate Odd(v: bv32) { v & 1 == 1 }

  function Wide(b: byte): bv32 { b as bv32 }

  function LowByte(v: bv32): byte { (v & 0xFF) as bv8 }

  function Drop8(v: bv32): bv32 { v >> 8 }

  lemma XorOdd(a: bv32, b: bv32)
    ensures Odd(Xor(a, b)) <==> Odd(a) != Odd(b)
  {
  }

  lemma XorHalf(a: bv32, b: bv32)
    ensures Half(Xor(a, b)) == Xor(Half(a), Half(b))
  {
  }

  lemma XorComm(a: bv32, b: bv32)
    ensures Xor(a, b) == Xor(b, a)
  {
  }

  lemma XorAssoc(a: bv32, b: bv32, c: bv32)
    ensures Xor(Xor(a, b), c) == Xor(a, Xor(b, c))
  {
  }

  lemma XorSwap(a: bv32, b: bv32, c: bv32)
    ensures Xor(Xor(a, b), c) == Xor(Xor(a, c), b)
  {
    hide Xor;
    XorAssoc(a, b, c);
    XorAssoc(a, c, b);
    XorComm(b, c);
  }

  lemma XorCancel(a: bv32, b: bv32, c: bv32)
    requires Xor(a, b) == Xor(a, c)
    ensures b == c
  {
  }

  // ------------------------------------------------------------------------
  // The code
  // ------------------------------------------------------------------------

  /** One turn of the inner loop of make_table. */
  function BitStep(v: bv32): bv32 {
    if Odd(v) then Xor(Half(v), POLYNOMIAL) else Half(v)
  }

  function BitSteps(v: bv32, n: nat): bv32
    decreases n
  {
    if n == 0 then v else BitSteps(BitStep(v), n - 1)
  }

  function TableEntry(i: byte): bv32 {
    BitSteps(Wide(i), 8)
  }

  function Table(): seq<bv32> {
    seq(256, (i: nat) requires i < 256 => TableEntry(ToByte(i)))
  }

  method MakeTable() returns (table: array<bv32>)
    ensures fresh(table) && table[..] == Table()
  {
    hide Xor, Half, Odd, Wide, ToByte;
    table := new bv32[256];
    for i := 0 to 256
      invariant forall k :: 0 <= k < i ==> table[k] == TableEntry(ToByte(k))
    {
      var value := Wide(ToByte(i));
      for bit := 0 to 8
        invariant TableEntry(ToByte(i)) == BitSteps(value, 8 - bit)
      {
        value := if Odd(value) then Xor(Half(value), POLYNOMIAL) else Half(value);
      }
      table[i] := value;
    }
  }

  function Update(crc: bv32, b: byte): bv32 {
    Xor(Table()[FromByte(LowByte(Xor(crc, Wide(b))))], Drop8(crc))
  }

  /** The register after `data`, starting from `crc`. */
  function Fold(crc: bv32, data: seq<byte>): bv32
    decreases |data|
  {
    if data == [] then crc else Fold(Update(crc, data[0]), data[1..])
  }

  function Crc(data: seq<byte>): bv32 {
    Xor(Fold(ALL_ONES, data), ALL_ONES)
  }

  method ComputeCrc(data: seq<byte>) returns (crc: bv32)
    ensures crc == Crc(data)
  {
    hide Xor, Update;
    crc := ALL_ONES;
    for i := 0 to |data|
      invariant Fold(ALL_ONES, data) == Fold(crc, data[i..])
    {
      crc := Update(crc, data[i]);
      assert data[i..][1..] == data[i + 1..];
    }
    crc := Xor(crc, ALL_ONES);
  }

  /** The packet with the four bytes from `at` replaced by zero. */
  function Zeroed(packet: seq<byte>, at: nat): (z: seq<byte>)
    ensures |z| == |packet|
  {
    seq(|packet|, i requires 0 <= i < |packet| => if at <= i < at + 4 then 0 else packet[i])
  }

  method ComputeCrcExcludingChecksum(packet: seq<byte>, at: nat) returns (crc: bv32)
    ensures crc == Crc(Zeroed(packet, at))
  {
    hide Xor, Update;
    ghost var z := Zeroed(packet, at);
    crc := ALL_ONES;
    for i := 0 to |packet|
      invariant Fold(ALL_ONES, z) == Fold(crc, z[i..])
    {
      var inChecksum := i >= at && i < at + 4;
      crc := Update(crc, if inChecksum then 0 else packet[i]);
      assert z[i..][1..] == z[i + 1..];
    }
    crc := Xor(crc, ALL_ONES);
  }

  // ------------------------------------------------------------------------
  // The bit step is linear and loses nothing
  // ------------------------------------------------------------------------

  lemma BitStepInjective(a: bv32, b: bv32)
    requires BitStep(a) == BitStep(b)
    ensures a == b
  {
  }

  lemma {:induction false} BitStepsInjective(a: bv32, b: bv32, n: nat)
    requires BitSteps(a, n) == BitSteps(b, n)
    ensures a == b
    decreases n
  {
    hide BitStep;
    if n > 0 {
      BitStepsInjective(BitStep(a), BitStep(b), n - 1);
      BitStepInjective(a, b);
    }
  }

  /** A pattern whose lowest bit is clear is only shifted. */
  lemma BitStepShifts(low: bv32, high: bv32)
    requires !Odd(high)
    ensures BitStep(Xor(low, high)) == Xor(BitStep(low), Half(high))
  {
    hide Xor, Half, Odd;
    XorOdd(low, high);
    XorHalf(low, high);
    XorSwap(Half(low), Half(high), POLYNOMIAL);
  }

  ghost predicate LowBitsClear(v: bv32, n: nat)
    decreases n
  {
    n == 0 || (!Odd(v) && LowBitsClear(Half(v), n - 1))
  }

  ghost function ShiftedBy(v: bv32, n: nat): bv32
    decreases n
  {
    if n == 0 then v else ShiftedBy(Half(v), n - 1)
  }

  /** A pattern whose lowest `n` bits are clear passes through `n` steps as a plain shift. */
  lemma {:induction false} BitStepsShift(low: bv32, high: bv32, n: nat)
    requires LowBitsClear(high, n)
    ensures BitSteps(Xor(low, high), n) == Xor(BitSteps(low, n), ShiftedBy(high, n))
    decreases n
  {
    hide BitStep, Xor, Half, Odd;
    if n > 0 {
      BitStepShifts(low, high);
      BitStepsShift(BitStep(low), Half(high), n - 1);
    }
  }

  lemma {:induction false} BitStepsAdd(v: bv32, m: nat, n: nat)
    ensures BitSteps(BitSteps(v, m), n) == BitSteps(v, m + n)
    decreases m
  {
    hide BitStep;
    if m > 0 {
      BitStepsAdd(BitStep(v), m - 1, n);
    }
  }

  lemma EightHalves(v: bv32, h: seq<bv32>)
    requires |h| == 9 && h[0] == v
    requires forall i :: 0 <= i < 8 ==> h[i + 1] == Half(h[i])
    ensures LowByte(v) == 0 ==> forall i :: 0 <= i < 8 ==> !Odd(h[i])
    ensures h[8] == Drop8(v)
  {
    assert h[1] == Half(h[0]) && h[2] == Half(h[1]) && h[3] == Half(h[2]) && h[4] == Half(h[3]);
    assert h[5] == Half(h[4]) && h[6] == Half(h[5]) && h[7] == Half(h[6]) && h[8] == Half(h[7]);
  }

  function Halves(v: bv32, n: nat): (h: seq<bv32>)
    ensures |h| == n + 1 && h[0] == v && h[n] == ShiftedBy(v, n)
    ensures forall i :: 0 <= i < n ==> h[i + 1] == Half(h[i])
    decreases n
  {
    if n == 0 then [v] else [v] + Halves(Half(v), n - 1)
  }

  lemma {:induction false} ClearHalves(h: seq<bv32>, n: nat)
    requires |h| == n + 1
    requires forall i :: 0 <= i < n ==> h[i + 1] == Half(h[i]) && !Odd(h[i])
    ensures LowBitsClear(h[0], n)
    decreases n
  {
    if n > 0 {
      ClearHalves(h[1..], n - 1);
    }
  }

  lemma ByteShift(v: bv32)
    ensures ShiftedBy(v, 8) == Drop8(v)
    ensures LowByte(v) == 0 ==> LowBitsClear(v, 8)
  {
    hide Odd, Half, LowByte, Drop8;
    var h := Halves(v, 8);
    EightHalves(v, h);
    if LowByte(v) == 0 {
      ClearHalves(h, 8);
    }
  }

  /** The same over one byte: bits above the low byte are shifted down by eight. */
  lemma ByteStepShifts(low: bv32, high: bv32)
    requires LowByte(high) == 0
    ensures BitSteps(Xor(low, high), 8) == Xor(BitSteps(low, 8), Drop8(high))
  {
    hide *;
    ByteShift(high);
    BitStepsShift(low, high, 8);
  }

  lemma SplitLowByte(x: bv32)
    ensures x == Xor(Wide(LowByte(x)), x & 0xFFFF_FF00)
    ensures LowByte(x & 0xFFFF_FF00) == 0
    ensures Drop8(x & 0xFFFF_FF00) == Drop8(x)
  {
  }

  lemma Drop8IgnoresByte(crc: bv32, b: byte)
    ensures Drop8(Xor(crc, Wide(b))) == Drop8(crc)
  {
  }

  /** One table lookup does the work of eight bit steps. */
  lemma UpdateIsEightSteps(crc: bv32, b: byte)
    ensures Update(crc, b) == BitSteps(Xor(crc, Wide(b)), 8)
  {
    hide Xor, Wide, LowByte, Drop8, ToByte, FromByte, BitSteps;
    var x := Xor(crc, Wide(b));
    SplitLowByte(x);
    Drop8IgnoresByte(crc, b);
    ByteStepShifts(Wide(LowByte(x)), x & 0xFFFF_FF00);
    ToFromByte(LowByte(x));
  }

  // ------------------------------------------------------------------------
  // The table is polynomial division, one message bit at a time
  // ------------------------------------------------------------------------

  /** IEEE 802.3, section 3.2.9, in reflected form: shift the register, and subtract the
      polynomial when the bit shifted out differs from the message bit shifted in. */
  function DivideBit(register: bv32, bit: bool): bv32 {
    if Odd(register) != bit then Xor(Half(register), POLYNOMIAL) else Half(register)
  }

  /** Divides in the lowest `n` bits of `bits`, least significant first. */
  function DivideBits(register: bv32, bits: bv32, n: nat): bv32
    decreases n
  {
    if n == 0 then register else DivideBits(DivideBit(register, Odd(bits)), Half(bits), n - 1)
  }

  function Divide(register: bv32, data: seq<byte>): bv32
    decreases |data|
  {
    if data == [] then register else Divide(DivideBits(register, Wide(data[0]), 8), data[1..])
  }

  lemma DivideBitIsBitStep(register: bv32, bits: bv32)
    ensures BitStep(Xor(register, bits)) == Xor(DivideBit(register, Odd(bits)), Half(bits))
  {
    hide Xor, Half, Odd;
    XorOdd(register, bits);
    XorHalf(register, bits);
    XorSwap(Half(register), Half(bits), POLYNOMIAL);
  }

  lemma {:induction false} DivideBitsIsBitSteps(register: bv32, bits: bv32, n: nat)
    ensures BitSteps(Xor(register, bits), n) == Xor(DivideBits(register, bits, n), ShiftedBy(bits, n))
    decreases n
  {
    hide Xor, Half, Odd, BitStep, DivideBit;
    if n > 0 {
      DivideBitIsBitStep(register, bits);
      DivideBitsIsBitSteps(DivideBit(register, Odd(bits)), Half(bits), n - 1);
    }
  }

  lemma WideHasEightBits(b: byte)
    ensures Drop8(Wide(b)) == 0
  {
  }

  lemma XorZero(a: bv32)
    ensures Xor(a, 0) == a && Xor(0, a) == a
  {
  }

  lemma {:induction false} FoldIsDivision(crc: bv32, data: seq<byte>)
    ensures Fold(crc, data) == Divide(crc, data)
    decreases |data|
  {
    hide Xor, Wide, Drop8, Update, BitSteps, DivideBits, ShiftedBy;
    if data != [] {
      var b := data[0];
      UpdateIsEightSteps(crc, b);
      DivideBitsIsBitSteps(crc, Wide(b), 8);
      ByteShift(Wide(b));
      WideHasEightBits(b);
      XorZero(DivideBits(crc, Wide(b), 8));
      FoldIsDivision(Update(crc, b), data[1..]);
    }
  }

  /** On every input the code computes the remainder that bit-by-bit division computes. */
  lemma CrcIsDivision(data: seq<byte>)
    ensures Crc(data) == Xor(Divide(ALL_ONES, data), ALL_ONES)
  {
    FoldIsDivision(ALL_ONES, data);
  }

  // ------------------------------------------------------------------------
  // Error detection
  // ------------------------------------------------------------------------

  lemma XorCancelRight(a: bv32, b: bv32, c: bv32)
    requires Xor(a, c) == Xor(b, c)
    ensures a == b
  {
    hide Xor;
    XorComm(a, c);
    XorComm(b, c);
    XorCancel(c, a, b);
  }

  lemma UpdateInjective(a: bv32, b: bv32, x: byte)
    requires Update(a, x) == Update(b, x)
    ensures a == b
  {
    hide Xor, Update, BitSteps, Wide;
    UpdateIsEightSteps(a, x);
    UpdateIsEightSteps(b, x);
    BitStepsInjective(Xor(a, Wide(x)), Xor(b, Wide(x)), 8);
    XorCancelRight(a, b, Wide(x));
  }

  /** Two different registers never meet again while they read the same bytes. */
  lemma {:induction false} FoldInjective(a: bv32, b: bv32, data: seq<byte>)
    requires Fold(a, data) == Fold(b, data)
    ensures a == b
    decreases |data|
  {
    hide Update;
    if data != [] {
      FoldInjective(Update(a, data[0]), Update(b, data[0]), data[1..]);
      UpdateInjective(a, b, data[0]);
    }
  }

  lemma {:induction false} FoldConcat(crc: bv32, a: seq<byte>, b: seq<byte>)
    ensures Fold(crc, a + b) == Fold(Fold(crc, a), b)
    decreases |a|
  {
    hide Update;
    if a == [] {
      assert a + b == b;
    } else {
      assert (a + b)[1..] == a[1..] + b;
      FoldConcat(Update(crc, a[0]), a[1..], b);
    }
  }

  function Lift8(v: bv32): bv32 { v << 8 }

  predicate Fits24(v: bv32) { v & 0xFF00_0000 == 0 }

  predicate Fits16(v: bv32) { v & 0xFFFF_0000 == 0 }

  predicate Fits8(v: bv32) { v & 0xFFFF_FF00 == 0 }

  /** Up to four bytes as one little-endian word: the order in which the register eats them. */
  function WordOf(d: seq<byte>): bv32
    decreases |d|
  {
    if d == [] then 0 else Xor(Wide(d[0]), Lift8(WordOf(d[1..])))
  }

  lemma LiftDrops(w: bv32)
    ensures LowByte(Lift8(w)) == 0
    ensures Fits24(w) ==> Drop8(Lift8(w)) == w
  {
  }

  lemma NothingFits(w: bv32)
    ensures w == 0 ==> Fits8(w)
  {
  }

  lemma FitsWiden16(w: bv32)
    ensures Fits8(w) ==> Fits16(w)
  {
  }

  lemma FitsWiden24(w: bv32)
    ensures Fits16(w) ==> Fits24(w)
  {
  }

  lemma FitsWiden(w: bv32)
    ensures w == 0 ==> Fits8(w)
    ensures Fits8(w) ==> Fits16(w)
    ensures Fits16(w) ==> Fits24(w)
  {
    hide Fits8, Fits16, Fits24;
    NothingFits(w);
    FitsWiden16(w);
    FitsWiden24(w);
  }

  lemma WordGrows(b: byte, w: bv32)
    ensures w == 0 ==> Fits8(Xor(Wide(b), Lift8(w)))
    ensures Fits8(w) ==> Fits16(Xor(Wide(b), Lift8(w)))
  {
  }

  lemma WordGrowsTo24(b: byte, w: bv32)
    requires Fits16(w)
    ensures Fits24(Xor(Wide(b), Lift8(w)))
  {
  }

  lemma WordFits(d: seq<byte>)
    requires |d| <= 3
    ensures Fits24(WordOf(d))
    ensures |d| <= 2 ==> Fits16(WordOf(d))
    ensures |d| <= 1 ==> Fits8(WordOf(d))
    ensures |d| == 0 ==> WordOf(d) == 0
    decreases |d|
  {
    hide Xor, Wide, Lift8, Fits24, Fits16, Fits8, LowByte, Drop8;
    FitsWiden(WordOf(d));
    if d != [] {
      WordFits(d[1..]);
      FitsWiden(WordOf(d[1..]));
      WordGrows(d[0], WordOf(d[1..]));
      WordGrowsTo24(d[0], WordOf(d[1..]));
    }
  }

  lemma WordDetermines(a: byte, b: byte, v: bv32, w: bv32)
    requires Xor(Wide(a), Lift8(v)) == Xor(Wide(b), Lift8(w))
    requires Fits24(v) && Fits24(w)
    ensures a == b && v == w
  {
  }

  lemma {:induction false} WordInjective(d: seq<byte>, e: seq<byte>)
    requires |d| == |e| <= 4
    requires WordOf(d) == WordOf(e)
    ensures d == e
    decreases |d|
  {
    hide Xor, Wide, Lift8, Fits24;
    if d != [] {
      WordFits(d[1..]);
      WordFits(e[1..]);
      WordDetermines(d[0], e[0], WordOf(d[1..]), WordOf(e[1..]));
      WordInjective(d[1..], e[1..]);
      assert d == [d[0]] + d[1..] && e == [e[0]] + e[1..];
    }
  }

  /** Reading up to four bytes is one exclusive or with their word, then shifting it through. */
  lemma {:induction false} FoldIsWordStep(crc: bv32, d: seq<byte>)
    requires |d| <= 4
    ensures Fold(crc, d) == BitSteps(Xor(crc, WordOf(d)), 8 * |d|)
    decreases |d|
  {
    hide Xor, Wide, Lift8, Fits24, Fits16, Fits8, LowByte, Drop8, Update;
    if d == [] {
      XorZero(crc);
    } else {
      var rest := WordOf(d[1..]);
      var first := Xor(crc, Wide(d[0]));
      WordFits(d[1..]);
      LiftDrops(rest);
      UpdateIsEightSteps(crc, d[0]);
      FoldIsWordStep(Update(crc, d[0]), d[1..]);
      ByteStepShifts(first, Lift8(rest));
      XorAssoc(crc, Wide(d[0]), Lift8(rest));
      BitStepsAdd(Xor(first, Lift8(rest)), 8, 8 * |d[1..]|);
    }
  }

  lemma BurstInjective(crc: bv32, d: seq<byte>, e: seq<byte>)
    requires |d| == |e| <= 4
    requires Fold(crc, d) == Fold(crc, e)
    ensures d == e
  {
    hide Xor, BitSteps, WordOf, Fold;
    FoldIsWordStep(crc, d);
    FoldIsWordStep(crc, e);
    BitStepsInjective(Xor(crc, WordOf(d)), Xor(crc, WordOf(e)), 8 * |d|);
    XorCancel(crc, WordOf(d), WordOf(e));
    WordInjective(d, e);
  }

  /** A change confined to four consecutive bytes always changes the CRC, whatever
      surrounds it and however long the message is. */
  lemma BurstDetected(before: seq<byte>, d: seq<byte>, e: seq<byte>, after: seq<byte>)
    requires |d| == |e| <= 4 && d != e
    ensures Crc(before + d + after) != Crc(before + e + after)
  {
    hide Xor, Fold;
    var start := Fold(ALL_ONES, before);
    FoldConcat(ALL_ONES, before + d, after);
    FoldConcat(ALL_ONES, before, d);
    FoldConcat(ALL_ONES, before + e, after);
    FoldConcat(ALL_ONES, before, e);
    if Crc(before + d + after) == Crc(before + e + after) {
      XorCancelRight(Fold(Fold(start, d), after), Fold(Fold(start, e), after), ALL_ONES);
      FoldInjective(Fold(start, d), Fold(start, e), after);
      BurstInjective(start, d, e);
    }
  }
}
