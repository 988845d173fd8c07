/** What FIPS 180-4 says of the functions and constants of SHA-256, told without their formulas:
    which bits the functions pick, and which roots the constants are fractions of. */
module Sha256Standard {
  import opened Common
  import opened BigEndian
  import opened Sha256

  // ------------------------------------------------------------------------
  // Sections 3.2 and 4.1.2: the logical functions
  // ------------------------------------------------------------------------

  /** Ch chooses: y's bits where x has ones, z's where x has zeros. */
  lemma ChChooses(x: bv32, y: bv32, z: bv32)
    ensures Ch(x, y, z) & x == y & x && Ch(x, y, z) & !x == z & !x
  {
  }

  /** Maj takes the bits that two of the three have: x's where x and y agree, z's elsewhere. */
  lemma MajIsMajority(x: bv32, y: bv32, z: bv32)
    ensures Maj(x, y, z) & !(x ^ y) == x & !(x ^ y) && Maj(x, y, z) & (x ^ y) == z & (x ^ y)
  {
  }

  /** Rotating by one place moves every bit down and the lowest one to the top. */
  lemma RotrOne(x: bv32)
    ensures x & 1 == 1 ==> Rotr(x, 1) == (x >> 1) | 0x8000_0000
    ensures x & 1 == 0 ==> Rotr(x, 1) == x >> 1
  {
  }

  /** Rotating by n + 1 places is rotating by n and by one. */
  lemma RotrStep(x: bv32, n: bv32)
    requires 0 < n < 31
    ensures Rotr(x, n + 1) == Rotr(Rotr(x, n), 1)
  {
  }

  // ------------------------------------------------------------------------
  // The first sixty-four primes
  // ------------------------------------------------------------------------

  ghost predicate IsPrime(p: nat) {
    p >= 2 && forall d :: 2 <= d < p ==> p % d != 0
  }

  predicate Divides(q: nat, n: nat)
    requires q > 0
  {
    n % q == 0 && n != q
  }

  predicate Composite(n: nat) {
    || Divides(2, n) || Divides(3, n) || Divides(5, n) || Divides(7, n)
    || Divides(11, n) || Divides(13, n) || Divides(17, n)
  }

  lemma Multiple(n: nat, q: nat, e: nat)
    requires q >= 2 && e >= 2 && n == e * q
    ensures Divides(q, n)
  {
    QuotientUnique(n, q, e);
    assert n == (n / q) * q + n % q;
    MulMonotone(2, e, q);
  }

  lemma Regroup(q: nat, h: nat, k: nat)
    requires h >= 1 && k >= 2
    ensures (q * h) * k == (h * k) * q && h * k >= 2
  {
    MulMonotone(1, h, k);
  }

  lemma SmallFactor(n: nat, m: nat, k: nat)
    requires 2 <= m <= 17 && n == m * k && k >= 2
    ensures Composite(n)
  {
    var q := if m % 2 == 0 then 2 else if m % 3 == 0 then 3 else m;
    assert m == q * (m / q);
    Regroup(q, m / q, k);
    Multiple(n, q, (m / q) * k);
  }

  lemma LargeSquare(m: nat, k: nat)
    requires m >= 18 && k >= 18
    ensures m * k >= 324
  {
    MulMonotone(18, m, k);
  }

  /** Trial division by the primes up to 17 is enough below 18 * 18. */
  lemma PrimeIfNotComposite(n: nat)
    requires 2 <= n < 324
    ensures IsPrime(n) <==> !Composite(n)
  {
    if !Composite(n) {
      forall d | 2 <= d < n ensures n % d != 0 {
        if n % d == 0 {
          var k := n / d;
          assert n == d * k;
          assert k >= 2;
          if d <= 17 {
            SmallFactor(n, d, k);
          } else if k <= 17 {
            assert n == k * d;
            SmallFactor(n, k, d);
          } else {
            LargeSquare(d, k);
          }
        }
      }
    }
  }

  /** The first number from n on that is not composite. */
  function NextPrime(n: nat): nat
    decreases 324 - n
  {
    if n >= 324 || !Composite(n) then n else NextPrime(n + 1)
  }

  lemma {:induction false} NextPrimeIs(n: nat)
    requires 2 <= n && NextPrime(n) < 324
    ensures n <= NextPrime(n) && IsPrime(NextPrime(n))
    ensures forall k :: n <= k < NextPrime(n) ==> !IsPrime(k)
    decreases 324 - n
  {
    hide IsPrime, Composite;
    PrimeIfNotComposite(n);
    if Composite(n) {
      NextPrimeIs(n + 1);
    }
  }

  predicate Skipped(q: nat, p: nat, i: nat) {
    q + i >= p || Composite(q + i)
  }

  /** No prime lies between these two; none in the table are further apart. */
  predicate Adjacent(q: nat, p: nat) {
    && 2 <= q < p <= q + 14 && p < 324 && !Composite(p) && (q == 2 ==> p == 3) && (q == 2 || q % 2 == 1)
    && Skipped(q, p, 2) && Skipped(q, p, 4) && Skipped(q, p, 6)
    && Skipped(q, p, 8) && Skipped(q, p, 10) && Skipped(q, p, 12)
  }

  lemma {:induction false} SkipTo(n: nat, p: nat)
    requires n <= p < 324 && !Composite(p) && forall k :: n <= k < p ==> Composite(k)
    ensures NextPrime(n) == p
    decreases p - n
  {
    hide Composite;
    if n < p {
      SkipTo(n + 1, p);
    }
  }

  lemma AdjacentAreOdd(q: nat, p: nat)
    requires Adjacent(q, p)
    ensures 1 <= q < p < 324
  {
    hide Composite, Skipped;
  }

  lemma EvenIsComposite(n: nat)
    requires n % 2 == 0 && n > 2
    ensures Composite(n)
  {
  }

  lemma AdjacentIsNext(q: nat, p: nat)
    requires Adjacent(q, p)
    ensures NextPrime(q + 1) == p
  {
    hide Composite;
    forall k | q + 1 <= k < p ensures Composite(k) {
      var i := k - q;
      if i % 2 == 1 {
        assert k % 2 == 0 && k > 2;
        EvenIsComposite(k);
      } else {
        assert i == 2 || i == 4 || i == 6 || i == 8 || i == 10 || i == 12;
        assert Skipped(q, p, i);
      }
    }
    SkipTo(q + 1, p);
  }

  ghost predicate PrimeAfter(q: nat, p: nat) {
    IsPrime(p) && q < p && forall n :: q < n < p ==> !IsPrime(n)
  }

  /** The primes in order, from the zeroth. */
  function Prime(t: nat): nat {
    if t == 0 then 2 else NextPrime(Prime(t - 1) + 1)
  }

  // ------------------------------------------------------------------------
  // Sections 4.2.2 and 5.3.3: where the constants come from
  // ------------------------------------------------------------------------

  function Cube(n: int): int {
    n * n * n
  }

  /** k is the first 32 bits of the fractional part of the cube root of p, whose integer part
      is n. */
  predicate CubeFraction(p: nat, n: nat, k: nat) {
    Cube(TWO_32 * n + k) <= p * TWO_32 * TWO_64 < Cube(TWO_32 * n + k + 1) && k < TWO_32
  }

  predicate SquareFraction(p: nat, n: nat, k: nat) {
    (TWO_32 * n + k) * (TWO_32 * n + k) <= p * TWO_64 < (TWO_32 * n + k + 1) * (TWO_32 * n + k + 1) && k < TWO_32
  }

  predicate CubeFractionAt(t: nat, n: nat)
    requires t < 64
  {
    CubeFraction(Prime(t), n, RoundConstant(t) as nat)
  }

  /** The t-th prime is the next one after the prime before it, and the t-th round constant is
      the fraction of its cube root. */
  ghost predicate IsCubeRoot(t: nat) {
    && t < 64 && (exists n :: CubeFractionAt(t, n))
    && (if t == 0 then Prime(t) == 2 else PrimeAfter(Prime(t - 1), Prime(t)))
  }

  lemma Constants0()
    ensures RoundConstant(0) == 0x428a2f98 && RoundConstant(1) == 0x71374491 && RoundConstant(2) == 0xb5c0fbcf
    ensures RoundConstant(3) == 0xe9b5dba5 && RoundConstant(4) == 0x3956c25b && RoundConstant(5) == 0x59f111f1
    ensures RoundConstant(6) == 0x923f82a4 && RoundConstant(7) == 0xab1c5ed5 && RoundConstant(8) == 0xd807aa98
    ensures RoundConstant(9) == 0x12835b01 && RoundConstant(10) == 0x243185be && RoundConstant(11) == 0x550c7dc3
    ensures RoundConstant(12) == 0x72be5d74 && RoundConstant(13) == 0x80deb1fe && RoundConstant(14) == 0x9bdc06a7
    ensures RoundConstant(15) == 0xc19bf174
  {
  }

  lemma Constants1()
    ensures RoundConstant(16) == 0xe49b69c1 && RoundConstant(17) == 0xefbe4786 && RoundConstant(18) == 0x0fc19dc6
    ensures RoundConstant(19) == 0x240ca1cc && RoundConstant(20) == 0x2de92c6f && RoundConstant(21) == 0x4a7484aa
    ensures RoundConstant(22) == 0x5cb0a9dc && RoundConstant(23) == 0x76f988da && RoundConstant(24) == 0x983e5152
    ensures RoundConstant(25) == 0xa831c66d && RoundConstant(26) == 0xb00327c8 && RoundConstant(27) == 0xbf597fc7
    ensures RoundConstant(28) == 0xc6e00bf3 && RoundConstant(29) == 0xd5a79147 && RoundConstant(30) == 0x06ca6351
    ensures RoundConstant(31) == 0x14292967
  {
  }

  lemma Constants2()
    ensures RoundConstant(32) == 0x27b70a85 && RoundConstant(33) == 0x2e1b2138 && RoundConstant(34) == 0x4d2c6dfc
    ensures RoundConstant(35) == 0x53380d13 && RoundConstant(36) == 0x650a7354 && RoundConstant(37) == 0x766a0abb
    ensures RoundConstant(38) == 0x81c2c92e && RoundConstant(39) == 0x92722c85 && RoundConstant(40) == 0xa2bfe8a1
    ensures RoundConstant(41) == 0xa81a664b && RoundConstant(42) == 0xc24b8b70 && RoundConstant(43) == 0xc76c51a3
    ensures RoundConstant(44) == 0xd192e819 && RoundConstant(45) == 0xd6990624 && RoundConstant(46) == 0xf40e3585
    ensures RoundConstant(47) == 0x106aa070
  {
  }

  lemma Constants3()
    ensures RoundConstant(48) == 0x19a4c116 && RoundConstant(49) == 0x1e376c08 && RoundConstant(50) == 0x2748774c
    ensures RoundConstant(51) == 0x34b0bcb5 && RoundConstant(52) == 0x391c0cb3 && RoundConstant(53) == 0x4ed8aa4a
    ensures RoundConstant(54) == 0x5b9cca4f && RoundConstant(55) == 0x682e6ff3 && RoundConstant(56) == 0x748f82ee
    ensures RoundConstant(57) == 0x78a5636f && RoundConstant(58) == 0x84c87814 && RoundConstant(59) == 0x8cc70208
    ensures RoundConstant(60) == 0x90befffa && RoundConstant(61) == 0xa4506ceb && RoundConstant(62) == 0xbef9a3f7
    ensures RoundConstant(63) == 0xc67178f2
  {
  }

  /** One line of the table below: the t-th prime p comes after q. */
  lemma CubeRoot(t: nat, q: nat, p: nat, n: nat, k: bv32)
    requires t < 64 && RoundConstant(t) == k && CubeFraction(p, n, k as nat)
    requires if t == 0 then p == 2 else Prime(t - 1) == q && Adjacent(q, p)
    ensures Prime(t) == p && IsCubeRoot(t)
  {
    hide RoundConstant, CubeFraction, NextPrime, Adjacent, IsPrime;
    if t > 0 {
      AdjacentIsNext(q, p);
      AdjacentAreOdd(q, p);
      NextPrimeIs(q + 1);
    }
    assert CubeFractionAt(t, n);
  }

  lemma Roots0()
    ensures Prime(3) == 7
    ensures forall t :: 0 <= t < 4 ==> IsCubeRoot(t)
  {
    hide IsCubeRoot, Prime, RoundConstant;
    Constants0();
    CubeRoot(0, 0, 2, 1, 0x428a2f98);
    CubeRoot(1, 2, 3, 1, 0x71374491);
    CubeRoot(2, 3, 5, 1, 0xb5c0fbcf);
    CubeRoot(3, 5, 7, 1, 0xe9b5dba5);
  }

  lemma Roots1()
    ensures Prime(7) == 19
    ensures forall t :: 0 <= t < 8 ==> IsCubeRoot(t)
  {
    hide IsCubeRoot, Prime, RoundConstant;
    Constants0();
    Roots0();
    CubeRoot(4, 7, 11, 2, 0x3956c25b);
    CubeRoot(5, 11, 13, 2, 0x59f111f1);
    CubeRoot(6, 13, 17, 2, 0x923f82a4);
    CubeRoot(7, 17, 19, 2, 0xab1c5ed5);
  }

  lemma Roots2()
    ensures Prime(11) == 37
    ensures forall t :: 0 <= t < 12 ==> IsCubeRoot(t)
  {
    hide IsCubeRoot, Prime, RoundConstant;
    Constants0();
    Roots1();
    CubeRoot(8, 19, 23, 2, 0xd807aa98);
    CubeRoot(9, 23, 29, 3, 0x12835b01);
    CubeRoot(10, 29, 31, 3, 0x243185be);
    CubeRoot(11, 31, 37, 3, 0x550c7dc3);
  }

  lemma Roots3()
    ensures Prime(15) == 53
    ensures forall t :: 0 <= t < 16 ==> IsCubeRoot(t)
  {
    hide IsCubeRoot, Prime, RoundConstant;
    Constants0();
    Roots2();
    CubeRoot(12, 37, 41, 3, 0x72be5d74);
    CubeRoot(13, 41, 43, 3, 0x80deb1fe);
    CubeRoot(14, 43, 47, 3, 0x9bdc06a7);
    CubeRoot(15, 47, 53, 3, 0xc19bf174);
  }

  lemma Roots4()
    ensures Prime(19) == 71
    ensures forall t :: 0 <= t < 20 ==> IsCubeRoot(t)
  {
    hide IsCubeRoot, Prime, RoundConstant;
    Constants1();
    Roots3();
    CubeRoot(16, 53, 59, 3, 0xe49b69c1);
    CubeRoot(17, 59, 61, 3, 0xefbe4786);
    CubeRoot(18, 61, 67, 4, 0x0fc19dc6);
    CubeRoot(19, 67, 71, 4, 0x240ca1cc);
  }

  lemma Roots5()
    ensures Prime(23) == 89
    ensures forall t :: 0 <= t < 24 ==> IsCubeRoot(t)
  {
    hide IsCubeRoot, Prime, RoundConstant;
    Constants1();
    Roots4();
    CubeRoot(20, 71, 73, 4, 0x2de92c6f);
    CubeRoot(21, 73, 79, 4, 0x4a7484aa);
    CubeRoot(22, 79, 83, 4, 0x5cb0a9dc);
    CubeRoot(23, 83, 89, 4, 0x76f988da);
  }

  lemma Roots6()
    ensures Prime(27) == 107
    ensures forall t :: 0 <= t < 28 ==> IsCubeRoot(t)
  {
    hide IsCubeRoot, Prime, RoundConstant;
    Constants1();
    Roots5();
    CubeRoot(24, 89, 97, 4, 0x983e5152);
    CubeRoot(25, 97, 101, 4, 0xa831c66d);
    CubeRoot(26, 101, 103, 4, 0xb00327c8);
    CubeRoot(27, 103, 107, 4, 0xbf597fc7);
  }

  lemma Roots7()
    ensures Prime(31) == 131
    ensures forall t :: 0 <= t < 32 ==> IsCubeRoot(t)
  {
    hide IsCubeRoot, Prime, RoundConstant;
    Constants1();
    Roots6();
    CubeRoot(28, 107, 109, 4, 0xc6e00bf3);
    CubeRoot(29, 109, 113, 4, 0xd5a79147);
    CubeRoot(30, 113, 127, 5, 0x06ca6351);
    CubeRoot(31, 127, 131, 5, 0x14292967);
  }

  lemma Roots8()
    ensures Prime(35) == 151
    ensures forall t :: 0 <= t < 36 ==> IsCubeRoot(t)
  {
    hide IsCubeRoot, Prime, RoundConstant;
    Constants2();
    Roots7();
    CubeRoot(32, 131, 137, 5, 0x27b70a85);
    CubeRoot(33, 137, 139, 5, 0x2e1b2138);
    CubeRoot(34, 139, 149, 5, 0x4d2c6dfc);
    CubeRoot(35, 149, 151, 5, 0x53380d13);
  }

  lemma Roots9()
    ensures Prime(39) == 173
    ensures forall t :: 0 <= t < 40 ==> IsCubeRoot(t)
  {
    hide IsCubeRoot, Prime, RoundConstant;
    Constants2();
    Roots8();
    CubeRoot(36, 151, 157, 5, 0x650a7354);
    CubeRoot(37, 157, 163, 5, 0x766a0abb);
    CubeRoot(38, 163, 167, 5, 0x81c2c92e);
    CubeRoot(39, 167, 173, 5, 0x92722c85);
  }

  lemma Roots10()
    ensures Prime(43) == 193
    ensures forall t :: 0 <= t < 44 ==> IsCubeRoot(t)
  {
    hide IsCubeRoot, Prime, RoundConstant;
    Constants2();
    Roots9();
    CubeRoot(40, 173, 179, 5, 0xa2bfe8a1);
    CubeRoot(41, 179, 181, 5, 0xa81a664b);
    CubeRoot(42, 181, 191, 5, 0xc24b8b70);
    CubeRoot(43, 191, 193, 5, 0xc76c51a3);
  }

  lemma Roots11()
    ensures Prime(47) == 223
    ensures forall t :: 0 <= t < 48 ==> IsCubeRoot(t)
  {
    hide IsCubeRoot, Prime, RoundConstant;
    Constants2();
    Roots10();
    CubeRoot(44, 193, 197, 5, 0xd192e819);
    CubeRoot(45, 197, 199, 5, 0xd6990624);
    CubeRoot(46, 199, 211, 5, 0xf40e3585);
    CubeRoot(47, 211, 223, 6, 0x106aa070);
  }

  lemma Roots12()
    ensures Prime(51) == 239
    ensures forall t :: 0 <= t < 52 ==> IsCubeRoot(t)
  {
    hide IsCubeRoot, Prime, RoundConstant;
    Constants3();
    Roots11();
    CubeRoot(48, 223, 227, 6, 0x19a4c116);
    CubeRoot(49, 227, 229, 6, 0x1e376c08);
    CubeRoot(50, 229, 233, 6, 0x2748774c);
    CubeRoot(51, 233, 239, 6, 0x34b0bcb5);
  }

  lemma Roots13()
    ensures Prime(55) == 263
    ensures forall t :: 0 <= t < 56 ==> IsCubeRoot(t)
  {
    hide IsCubeRoot, Prime, RoundConstant;
    Constants3();
    Roots12();
    CubeRoot(52, 239, 241, 6, 0x391c0cb3);
    CubeRoot(53, 241, 251, 6, 0x4ed8aa4a);
    CubeRoot(54, 251, 257, 6, 0x5b9cca4f);
    CubeRoot(55, 257, 263, 6, 0x682e6ff3);
  }

  lemma Roots14()
    ensures Prime(59) == 281
    ensures forall t :: 0 <= t < 60 ==> IsCubeRoot(t)
  {
    hide IsCubeRoot, Prime, RoundConstant;
    Constants3();
    Roots13();
    CubeRoot(56, 263, 269, 6, 0x748f82ee);
    CubeRoot(57, 269, 271, 6, 0x78a5636f);
    CubeRoot(58, 271, 277, 6, 0x84c87814);
    CubeRoot(59, 277, 281, 6, 0x8cc70208);
  }

  lemma Roots15()
    ensures Prime(63) == 311
    ensures forall t :: 0 <= t < 64 ==> IsCubeRoot(t)
  {
    hide IsCubeRoot, Prime, RoundConstant;
    Constants3();
    Roots14();
    CubeRoot(60, 281, 283, 6, 0x90befffa);
    CubeRoot(61, 283, 293, 6, 0xa4506ceb);
    CubeRoot(62, 293, 307, 6, 0xbef9a3f7);
    CubeRoot(63, 307, 311, 6, 0xc67178f2);
  }

  /** Section 4.2.2: the round constants are the fractions of the cube roots of the first
      sixty-four primes. */
  lemma RoundConstantsAreRoots(t: nat)
    requires t < 64
    ensures IsCubeRoot(t)
  {
    Roots15();
  }

  /** Section 5.3.3: the initial hash value holds the fractions of the square roots of the first
      eight. */
  lemma InitialAreRoots()
    ensures SquareFraction(2, 1, INITIAL[0] as nat) && SquareFraction(3, 1, INITIAL[1] as nat)
    ensures SquareFraction(5, 2, INITIAL[2] as nat) && SquareFraction(7, 2, INITIAL[3] as nat)
    ensures SquareFraction(11, 3, INITIAL[4] as nat) && SquareFraction(13, 3, INITIAL[5] as nat)
    ensures SquareFraction(17, 4, INITIAL[6] as nat) && SquareFraction(19, 4, INITIAL[7] as nat)
  {
  }
}
