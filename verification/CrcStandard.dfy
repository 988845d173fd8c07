/** CRC-32 as section 3.2.9 of IEEE 802.3 defines it: the remainder of a division of polynomials
    over GF(2) by one that is given by its exponents. */
module CrcStandard {
  import opened Common
  import opened Crc32

  /** A polynomial over GF(2): the exponents of its terms. */
  type Poly = set<nat>

  const GENERATOR: Poly := {32, 26, 23, 22, 16, 12, 11, 10, 8, 7, 5, 4, 2, 1, 0}

  function Plus(a: Poly, b: Poly): Poly {
    (a - b) + (b - a)
  }

  function TimesX(p: Poly): Poly {
    set e | e in p :: e + 1
  }

  ghost predicate Term(v: bv32, e: nat)
    requires e < 32
  {
    Odd(ShiftedBy(v, 31 - e))
  }

  /** The register holds the coefficient of x^31 in its lowest bit. */
  ghost function PolyOf(v: bv32): Poly {
    set e: nat | e < 32 && Term(v, e)
  }

  // ------------------------------------------------------------------------
  // The divisor
  // ------------------------------------------------------------------------

  lemma {:induction false} ShiftedTwice(v: bv32, m: nat, n: nat)
    ensures ShiftedBy(ShiftedBy(v, m), n) == ShiftedBy(v, m + n)
    decreases m
  {
    hide Half;
    if m > 0 {
      ShiftedTwice(Half(v), m - 1, n);
    }
  }

  lemma Byte0()
    ensures !Odd(ShiftedBy(0xEDB88320, 0)) && !Odd(ShiftedBy(0xEDB88320, 1))
    ensures !Odd(ShiftedBy(0xEDB88320, 2)) && !Odd(ShiftedBy(0xEDB88320, 3))
    ensures !Odd(ShiftedBy(0xEDB88320, 4)) && Odd(ShiftedBy(0xEDB88320, 5))
    ensures !Odd(ShiftedBy(0xEDB88320, 6)) && !Odd(ShiftedBy(0xEDB88320, 7))
  {
  }

  lemma Byte1()
    ensures Odd(ShiftedBy(0x00EDB883, 0)) && Odd(ShiftedBy(0x00EDB883, 1))
    ensures !Odd(ShiftedBy(0x00EDB883, 2)) && !Odd(ShiftedBy(0x00EDB883, 3))
    ensures !Odd(ShiftedBy(0x00EDB883, 4)) && !Odd(ShiftedBy(0x00EDB883, 5))
    ensures !Odd(ShiftedBy(0x00EDB883, 6)) && Odd(ShiftedBy(0x00EDB883, 7))
  {
  }

  lemma Byte2()
    ensures !Odd(ShiftedBy(0x0000EDB8, 0)) && !Odd(ShiftedBy(0x0000EDB8, 1))
    ensures !Odd(ShiftedBy(0x0000EDB8, 2)) && Odd(ShiftedBy(0x0000EDB8, 3))
    ensures Odd(ShiftedBy(0x0000EDB8, 4)) && Odd(ShiftedBy(0x0000EDB8, 5))
    ensures !Odd(ShiftedBy(0x0000EDB8, 6)) && Odd(ShiftedBy(0x0000EDB8, 7))
  {
  }

  lemma Byte3()
    ensures Odd(ShiftedBy(0x000000ED, 0)) && !Odd(ShiftedBy(0x000000ED, 1))
    ensures Odd(ShiftedBy(0x000000ED, 2)) && Odd(ShiftedBy(0x000000ED, 3))
    ensures !Odd(ShiftedBy(0x000000ED, 4)) && Odd(ShiftedBy(0x000000ED, 5))
    ensures Odd(ShiftedBy(0x000000ED, 6)) && Odd(ShiftedBy(0x000000ED, 7))
  {
  }

  lemma PolynomialBytes()
    ensures ShiftedBy(POLYNOMIAL, 8) == 0x00EDB883 && ShiftedBy(POLYNOMIAL, 16) == 0x0000EDB8
    ensures ShiftedBy(POLYNOMIAL, 24) == 0x000000ED
  {
    hide Half, ShiftedBy;
    ByteShift(POLYNOMIAL);
    ByteShift(0x00EDB883);
    ByteShift(0x0000EDB8);
    ShiftedTwice(POLYNOMIAL, 8, 8);
    ShiftedTwice(POLYNOMIAL, 16, 8);
  }

  lemma NotShifted(v: bv32)
    ensures ShiftedBy(v, 0) == v
  {
  }

  lemma Terms0()
    ensures forall e: nat :: 24 <= e < 32 ==> (Term(POLYNOMIAL, e) <==> e in GENERATOR)
  {
    hide Half, ShiftedBy, Odd;
    PolynomialBytes();
    NotShifted(POLYNOMIAL);
    Byte0();
    forall e: nat | 24 <= e < 32 ensures Term(POLYNOMIAL, e) <==> e in GENERATOR {
      ShiftedTwice(POLYNOMIAL, 0, 31 - e);
      assert e == 24 || e == 25 || e == 26 || e == 27 || e == 28 || e == 29 || e == 30 || e == 31;
    }
  }

  lemma Terms1()
    ensures forall e: nat :: 16 <= e < 24 ==> (Term(POLYNOMIAL, e) <==> e in GENERATOR)
  {
    hide Half, ShiftedBy, Odd;
    PolynomialBytes();
    Byte1();
    forall e: nat | 16 <= e < 24 ensures Term(POLYNOMIAL, e) <==> e in GENERATOR {
      ShiftedTwice(POLYNOMIAL, 8, 23 - e);
      assert e == 16 || e == 17 || e == 18 || e == 19 || e == 20 || e == 21 || e == 22 || e == 23;
    }
  }

  lemma Terms2()
    ensures forall e: nat :: 8 <= e < 16 ==> (Term(POLYNOMIAL, e) <==> e in GENERATOR)
  {
    hide Half, ShiftedBy, Odd;
    PolynomialBytes();
    Byte2();
    forall e: nat | 8 <= e < 16 ensures Term(POLYNOMIAL, e) <==> e in GENERATOR {
      ShiftedTwice(POLYNOMIAL, 16, 15 - e);
      assert e == 8 || e == 9 || e == 10 || e == 11 || e == 12 || e == 13 || e == 14 || e == 15;
    }
  }

  lemma Terms3()
    ensures forall e: nat :: 0 <= e < 8 ==> (Term(POLYNOMIAL, e) <==> e in GENERATOR)
  {
    hide Half, ShiftedBy, Odd;
    PolynomialBytes();
    Byte3();
    forall e: nat | 0 <= e < 8 ensures Term(POLYNOMIAL, e) <==> e in GENERATOR {
      ShiftedTwice(POLYNOMIAL, 24, 7 - e);
      assert e == 0 || e == 1 || e == 2 || e == 3 || e == 4 || e == 5 || e == 6 || e == 7;
    }
  }

  /** The constant of the table is the generator without its leading term, reflected. */
  lemma PolynomialIsGenerator()
    ensures PolyOf(POLYNOMIAL) == GENERATOR - {32}
  {
    hide Term;
    Terms0();
    Terms1();
    Terms2();
    Terms3();
  }

  // ------------------------------------------------------------------------
  // The check value
  // ------------------------------------------------------------------------

  /** "123456789". */
  const NINE: seq<byte> := [0x31, 0x32, 0x33, 0x34, 0x35, 0x36, 0x37, 0x38, 0x39]

  lemma Eaten(crc: bv32, i: nat, b: byte, after: bv32)
    requires i < 9 && NINE[i] == b && BitSteps(Xor(crc, Wide(b)), 8) == after
    ensures Fold(crc, NINE[i..]) == Fold(after, NINE[i + 1..])
  {
    hide BitSteps, Xor, Wide, Update;
    UpdateIsEightSteps(crc, b);
    assert NINE[i..][0] == b && NINE[i..][1..] == NINE[i + 1..];
  }

  lemma FirstThree()
    ensures Fold(0xFFFFFFFF, NINE[0..]) == Fold(0x77B79C2D, NINE[3..])
  {
    hide Fold;
    assert BitSteps(Xor(0xFFFFFFFF, Wide(0x31)), 8) == 0x7C231048;
    Eaten(0xFFFFFFFF, 0, 0x31, 0x7C231048);
    assert BitSteps(Xor(0x7C231048, Wide(0x32)), 8) == 0xB0ACBB32;
    Eaten(0x7C231048, 1, 0x32, 0xB0ACBB32);
    assert BitSteps(Xor(0xB0ACBB32, Wide(0x33)), 8) == 0x77B79C2D;
    Eaten(0xB0ACBB32, 2, 0x33, 0x77B79C2D);
  }

  lemma NextThree()
    ensures Fold(0x77B79C2D, NINE[3..]) == Fold(0xF68D2C9E, NINE[6..])
  {
    hide Fold;
    assert BitSteps(Xor(0x77B79C2D, Wide(0x34)), 8) == 0x641C1F5C;
    Eaten(0x77B79C2D, 3, 0x34, 0x641C1F5C);
    assert BitSteps(Xor(0x641C1F5C, Wide(0x35)), 8) == 0x340AC5E3;
    Eaten(0x641C1F5C, 4, 0x35, 0x340AC5E3);
    assert BitSteps(Xor(0x340AC5E3, Wide(0x36)), 8) == 0xF68D2C9E;
    Eaten(0x340AC5E3, 5, 0x36, 0xF68D2C9E);
  }

  lemma LastThree()
    ensures Fold(0xF68D2C9E, NINE[6..]) == Fold(0x340BC6D9, NINE[9..])
  {
    hide Fold;
    assert BitSteps(Xor(0xF68D2C9E, Wide(0x37)), 8) == 0xAFFC9660;
    Eaten(0xF68D2C9E, 6, 0x37, 0xAFFC9660);
    assert BitSteps(Xor(0xAFFC9660, Wide(0x38)), 8) == 0x651F2550;
    Eaten(0xAFFC9660, 7, 0x38, 0x651F2550);
    assert BitSteps(Xor(0x651F2550, Wide(0x39)), 8) == 0x340BC6D9;
    Eaten(0x651F2550, 8, 0x39, 0x340BC6D9);
  }

  /** The published check value of this CRC; it fixes the initial register and the final
      inversion as well. */
  lemma CheckValue()
    ensures Crc(NINE) == 0xCBF43926
  {
    FirstThree();
    NextThree();
    LastThree();
    assert NINE[0..] == NINE && NINE[9..] == [];
  }

  // ------------------------------------------------------------------------
  // The register is a remainder
  // ------------------------------------------------------------------------

  lemma {:induction false} ShiftedXor(a: bv32, b: bv32, n: nat)
    ensures ShiftedBy(Xor(a, b), n) == Xor(ShiftedBy(a, n), ShiftedBy(b, n))
    decreases n
  {
    hide Xor, Half;
    if n > 0 {
      XorHalf(a, b);
      ShiftedXor(Half(a), Half(b), n - 1);
    }
  }

  lemma NothingLeft(v: bv32)
    ensures ShiftedBy(v, 32) == 0
  {
    hide ShiftedBy;
    ByteShift(v);
    ByteShift(Drop8(v));
    ByteShift(Drop8(Drop8(v)));
    ByteShift(Drop8(Drop8(Drop8(v))));
    ShiftedTwice(v, 8, 8);
    ShiftedTwice(v, 16, 8);
    ShiftedTwice(v, 24, 8);
  }

  lemma XorPoly(a: bv32, b: bv32)
    ensures PolyOf(Xor(a, b)) == Plus(PolyOf(a), PolyOf(b))
  {
    hide Xor, Odd, ShiftedBy;
    forall e: nat | e < 32 ensures Term(Xor(a, b), e) <==> Term(a, e) != Term(b, e) {
      ShiftedXor(a, b, 31 - e);
      XorOdd(ShiftedBy(a, 31 - e), ShiftedBy(b, 31 - e));
    }
  }

  lemma TimesXIn(p: Poly, e: nat)
    ensures e in TimesX(p) <==> e > 0 && e - 1 in p
  {
    if e > 0 && e - 1 in p {
      assert (e - 1) + 1 in TimesX(p);
    }
  }

  lemma HalfPoly(v: bv32)
    ensures PolyOf(Half(v)) == TimesX(PolyOf(v)) - {32}
    ensures 32 in TimesX(PolyOf(v)) <==> Odd(v)
  {
    hide Odd, Half, PolyOf, TimesX;
    HalfTerms(v);
    forall e: nat ensures e in PolyOf(Half(v)) <==> e in TimesX(PolyOf(v)) - {32} {
      TimesXIn(PolyOf(v), e);
      InPoly(v, e - 1);
      InPoly(Half(v), e);
    }
    TimesXIn(PolyOf(v), 32);
    InPoly(v, 31);
  }

  lemma InPoly(v: bv32, e: int)
    ensures e in PolyOf(v) <==> 0 <= e < 32 && Term(v, e)
  {
    hide Term;
  }

  lemma HalfTerms(v: bv32)
    ensures forall e: nat :: e < 32 ==> (Term(Half(v), e) <==> e > 0 && Term(v, e - 1))
    ensures Term(v, 31) <==> Odd(v)
  {
    hide Odd, Half;
    NothingLeft(v);
    ZeroIsEven();
    forall e: nat | e < 32 ensures Term(Half(v), e) <==> e > 0 && Term(v, e - 1) {
      assert ShiftedBy(Half(v), 31 - e) == ShiftedBy(v, 32 - e);
    }
  }

  lemma ZeroIsEven()
    ensures !Odd(0)
  {
  }

  /** The dividend so far: what was there, one place up, and the next bit of the message. */
  function Dividend(start: Poly, bits: seq<bool>): Poly {
    if bits == [] then start
    else
      Plus(TimesX(Dividend(start, bits[..|bits| - 1])), if bits[|bits| - 1] then {32} else {})
  }

  /** The generator times the polynomial with these coefficients, highest first. */
  function TimesGenerator(q: seq<bool>): Poly {
    if q == [] then {}
    else
      Plus(TimesX(TimesGenerator(q[..|q| - 1])), if q[|q| - 1] then GENERATOR else {})
  }

  function Register(start: bv32, bits: seq<bool>): bv32 {
    if bits == [] then start else DivideBit(Register(start, bits[..|bits| - 1]), bits[|bits| - 1])
  }

  /** One step of the register: shift, add the message bit, and subtract the generator if the
      sum has reached its degree. */
  lemma DivideBitPoly(v: bv32, bit: bool)
    ensures var sum := Plus(TimesX(PolyOf(v)), if bit then {32} else {});
            PolyOf(DivideBit(v, bit)) == if 32 in sum then Plus(sum, GENERATOR) else sum
  {
    hide Xor, Half, Odd, PolyOf, TimesX;
    HalfPoly(v);
    PolynomialIsGenerator();
    XorPoly(Half(v), POLYNOMIAL);
  }

  lemma TimesXPlus(a: Poly, b: Poly)
    ensures TimesX(Plus(a, b)) == Plus(TimesX(a), TimesX(b))
  {
    hide TimesX;
    forall e: nat ensures e in TimesX(Plus(a, b)) <==> e in Plus(TimesX(a), TimesX(b)) {
      TimesXIn(Plus(a, b), e);
      TimesXIn(a, e);
      TimesXIn(b, e);
    }
  }

  lemma PlusAssoc(a: Poly, b: Poly, c: Poly)
    ensures Plus(Plus(a, b), c) == Plus(a, Plus(b, c))
  {
  }

  lemma PlusBoth(a: Poly, b: Poly, g: Poly)
    ensures Plus(a, b) == Plus(Plus(a, g), Plus(b, g))
  {
  }

  lemma NothingAdded(a: Poly)
    ensures Plus(a, {}) == a && Plus({}, a) == a
  {
  }

  /** Polynomial division with remainder: for every message there is a quotient such that the
      dividend is the generator times the quotient, plus the register; and the register is of
      lower degree than the generator. */
  lemma {:induction false} RegisterIsRemainder(start: bv32, bits: seq<bool>) returns (q: seq<bool>)
    ensures Dividend(PolyOf(start), bits) == Plus(TimesGenerator(q), PolyOf(Register(start, bits)))
    ensures forall e <- PolyOf(Register(start, bits)) :: e < 32
    decreases |bits|
  {
    hide PolyOf, TimesX, DivideBit, Plus;
    if bits == [] {
      NothingAdded(PolyOf(start));
      q := [];
    } else {
      var front, bit := bits[..|bits| - 1], bits[|bits| - 1];
      var p := RegisterIsRemainder(start, front);
      var r := Register(start, front);
      DivideBitPoly(r, bit);
      TimesXPlus(TimesGenerator(p), PolyOf(r));
      var sum := Plus(TimesX(PolyOf(r)), if bit then {32} else {});
      q := p + [32 in sum];
      assert q[..|q| - 1] == p;
      PlusAssoc(TimesX(TimesGenerator(p)), TimesX(PolyOf(r)), if bit then {32} else {});
      PlusBoth(TimesX(TimesGenerator(p)), sum, GENERATOR);
      NothingAdded(TimesX(TimesGenerator(p)));
    }
    LowDegree(Register(start, bits));
  }

  lemma LowDegree(v: bv32)
    ensures forall e <- PolyOf(v) :: e < 32
  {
    hide Term;
  }

  /** The lowest n bits of v, lowest first. */
  function LowBits(v: bv32, n: nat): (s: seq<bool>)
    ensures |s| == n
    decreases n
  {
    if n == 0 then [] else [Odd(v)] + LowBits(Half(v), n - 1)
  }

  /** The bits of a message in the order of transmission: byte by byte, lowest bit first. */
  function MessageBits(data: seq<byte>): seq<bool>
    decreases |data|
  {
    if data == [] then [] else LowBits(Wide(data[0]), 8) + MessageBits(data[1..])
  }

  lemma {:induction false} RegisterConcat(start: bv32, a: seq<bool>, b: seq<bool>)
    ensures Register(start, a + b) == Register(Register(start, a), b)
    decreases |b|
  {
    hide DivideBit;
    if b == [] {
      assert a + b == a;
    } else {
      assert (a + b)[..|a + b| - 1] == a + b[..|b| - 1];
      RegisterConcat(start, a, b[..|b| - 1]);
    }
  }

  lemma RegisterOne(start: bv32, bit: bool)
    ensures Register(start, [bit]) == DivideBit(start, bit)
  {
    hide DivideBit;
    assert [bit][..0] == [];
  }

  lemma {:induction false} BitsAreBits(register: bv32, v: bv32, n: nat)
    ensures DivideBits(register, v, n) == Register(register, LowBits(v, n))
    decreases n
  {
    hide DivideBit, Odd, Half, Register;
    if n == 0 {
      NoBits(register);
    } else {
      RegisterOne(register, Odd(v));
      RegisterConcat(register, [Odd(v)], LowBits(Half(v), n - 1));
      BitsAreBits(DivideBit(register, Odd(v)), Half(v), n - 1);
    }
  }

  lemma NoBits(register: bv32)
    ensures Register(register, []) == register
  {
  }

  lemma {:induction false} DivideIsRegister(register: bv32, data: seq<byte>)
    ensures Divide(register, data) == Register(register, MessageBits(data))
    decreases |data|
  {
    hide DivideBits, LowBits, Wide, Register;
    if data == [] {
      NoBits(register);
    } else {
      var low := LowBits(Wide(data[0]), 8);
      BitsAreBits(register, Wide(data[0]), 8);
      RegisterConcat(register, low, MessageBits(data[1..]));
      DivideIsRegister(DivideBits(register, Wide(data[0]), 8), data[1..]);
    }
  }

  /** The CRC of any message, uninverted, is the remainder of dividing by the generator the
      polynomial of the message, moved up by 32 places, with ones added in front. */
  lemma CrcIsRemainder(data: seq<byte>)
    ensures exists q ::
              Dividend(PolyOf(0xFFFF_FFFF), MessageBits(data)) ==
              Plus(TimesGenerator(q), PolyOf(Xor(Crc(data), 0xFFFF_FFFF)))
    ensures forall e <- PolyOf(Xor(Crc(data), 0xFFFF_FFFF)) :: e < 32
  {
    hide Dividend, PolyOf, Plus, TimesGenerator, Register, MessageBits, Divide;
    CrcIsDivision(data);
    DivideIsRegister(ALL_ONES, data);
    Inverted(Divide(ALL_ONES, data));
    var q := RegisterIsRemainder(ALL_ONES, MessageBits(data));
  }

  lemma Inverted(v: bv32)
    ensures Xor(Xor(v, ALL_ONES), 0xFFFF_FFFF) == v
  {
  }
}
