/** The example digests of FIPS 180-4, one block and two blocks, worked through by the standard's
    functions: the tables hold the working variables after every four rounds, and the message
    schedule. */
module Sha256Examples {
  import opened Common
  import opened BigEndian
  import opened Sha256
  import opened Sha256Standard

  datatype Vars = Vars(a: bv32, b: bv32, c: bv32, d: bv32, e: bv32, f: bv32, g: bv32, h: bv32)

  datatype Quad = Quad(w: bv32, x: bv32, y: bv32, z: bv32)

  function List(v: Vars): Words {
    [v.a, v.b, v.c, v.d, v.e, v.f, v.g, v.h]
  }

  // ------------------------------------------------------------------------
  // From one row of a table to the next
  // ------------------------------------------------------------------------

  function T1(e: bv32, f: bv32, g: bv32, h: bv32, k: bv32, w: bv32): bv32 {
    Add(Add(Add(Add(h, BigSigma1(e)), Ch(e, f, g)), k), w)
  }

  function T2(a: bv32, b: bv32, c: bv32): bv32 {
    Add(BigSigma0(a), Maj(a, b, c))
  }

  /** Round t puts `a'` in front of a and `e'` in front of e. */
  predicate Turns(a: bv32, b: bv32, c: bv32, d: bv32, e: bv32, f: bv32, g: bv32, h: bv32,
                  t: nat, w: bv32, a': bv32, e': bv32)
    requires t < 64
  {
    var t1 := T1(e, f, g, h, RoundConstant(t), w);
    a' == Add(t1, T2(a, b, c)) && e' == Add(d, t1)
  }

  predicate Four(u: Vars, v: Vars, t: nat, q: Quad)
    requires t + 4 <= 64
  {
    && Turns(u.a, u.b, u.c, u.d, u.e, u.f, u.g, u.h, t, q.w, v.d, v.h)
    && Turns(v.d, u.a, u.b, u.c, v.h, u.e, u.f, u.g, t + 1, q.x, v.c, v.g)
    && Turns(v.c, v.d, u.a, u.b, v.g, v.h, u.e, u.f, t + 2, q.y, v.b, v.f)
    && Turns(v.b, v.c, v.d, u.a, v.f, v.g, v.h, u.e, t + 3, q.z, v.a, v.e)
  }

  predicate Eight(u: Vars, m: Vars, v: Vars, t: nat, q: Quad, r: Quad)
    requires t + 8 <= 64
  {
    Four(u, m, t, q) && Four(m, v, t + 4, r)
  }

  /** The four words of the schedule after these sixteen. */
  predicate Next(p: Quad, q: Quad, r: Quad, s: Quad, n: Quad) {
    && n.w == Add(Add(Add(SmallSigma1(s.y), r.x), SmallSigma0(p.x)), p.w)
    && n.x == Add(Add(Add(SmallSigma1(s.z), r.y), SmallSigma0(p.y)), p.x)
    && n.y == Add(Add(Add(SmallSigma1(n.w), r.z), SmallSigma0(p.z)), p.y)
    && n.z == Add(Add(Add(SmallSigma1(n.x), s.w), SmallSigma0(q.w)), p.z)
  }

  predicate Twelve(a: Quad, b: Quad, c: Quad, d: Quad, e: Quad, f: Quad, g: Quad) {
    Next(a, b, c, d, e) && Next(b, c, d, e, f) && Next(c, d, e, f, g)
  }

  // ------------------------------------------------------------------------
  // Whole tables
  // ------------------------------------------------------------------------

  function QuadBytes(q: Quad): (s: seq<byte>)
    ensures |s| == 16
  {
    WordBytes(q.w) + WordBytes(q.x) + WordBytes(q.y) + WordBytes(q.z)
  }

  function BlockOf(a: Quad, b: Quad, c: Quad, d: Quad): Block {
    QuadBytes(a) + QuadBytes(b) + QuadBytes(c) + QuadBytes(d)
  }

  ghost predicate Scheduled(block: Block, t: nat, q: Quad)
    requires t + 4 <= 64
  {
    && Schedule(block, t) == q.w && Schedule(block, t + 1) == q.x
    && Schedule(block, t + 2) == q.y && Schedule(block, t + 3) == q.z
  }

  lemma SliceOfSlice(s: seq<byte>, a: nat, b: nat, c: nat, d: nat)
    requires a <= b <= |s| && c <= d <= b - a
    ensures s[a..b][c..d] == s[a + c..a + d]
  {
    var x, y := s[a..b][c..d], s[a + c..a + d];
    assert forall i :: 0 <= i < d - c ==> x[i] == s[a..b][c + i] == s[a + (c + i)] == y[i];
  }

  lemma Quarters(a: seq<byte>, b: seq<byte>, c: seq<byte>, d: seq<byte>, n: nat)
    requires |a| == n && |b| == n && |c| == n && |d| == n
    ensures var s := a + b + c + d;
            s[0..n] == a && s[n..2 * n] == b && s[2 * n..3 * n] == c && s[3 * n..4 * n] == d
  {
  }

  lemma WordAt(block: Block, t: nat, s: seq<byte>, i: nat)
    requires t <= 12 && i < 4 && |s| == 16 && block[4 * t..4 * t + 16] == s
    ensures Schedule(block, t + i) == ReadWord(s[4 * i..4 * i + 4])
  {
    hide ReadWord;
    SliceOfSlice(block, 4 * t, 4 * t + 16, 4 * i, 4 * i + 4);
  }

  lemma QuadWords(block: Block, t: nat, q: Quad)
    requires t <= 12 && block[4 * t..4 * t + 16] == QuadBytes(q)
    ensures Scheduled(block, t, q)
  {
    var s := QuadBytes(q);
    hide WordBytes, ReadWord, Schedule;
    ReadWordBytes(q.w);
    ReadWordBytes(q.x);
    ReadWordBytes(q.y);
    ReadWordBytes(q.z);
    Quarters(WordBytes(q.w), WordBytes(q.x), WordBytes(q.y), WordBytes(q.z), 4);
    WordAt(block, t, s, 0);
    WordAt(block, t, s, 1);
    WordAt(block, t, s, 2);
    WordAt(block, t, s, 3);
  }

  lemma BlockWords(a: Quad, b: Quad, c: Quad, d: Quad)
    ensures var s := BlockOf(a, b, c, d);
            Scheduled(s, 0, a) && Scheduled(s, 4, b) && Scheduled(s, 8, c) && Scheduled(s, 12, d)
  {
    hide QuadBytes, Scheduled;
    var s := BlockOf(a, b, c, d);
    Quarters(QuadBytes(a), QuadBytes(b), QuadBytes(c), QuadBytes(d), 16);
    QuadWords(s, 0, a);
    QuadWords(s, 4, b);
    QuadWords(s, 8, c);
    QuadWords(s, 12, d);
  }

  lemma NextWord(block: Block, t: nat)
    requires 16 <= t < 64
    ensures Schedule(block, t) ==
            Add(Add(Add(SmallSigma1(Schedule(block, t - 2)), Schedule(block, t - 7)),
                    SmallSigma0(Schedule(block, t - 15))), Schedule(block, t - 16))
  {
    hide Add, SmallSigma0, SmallSigma1;
  }

  lemma ScheduledNext(block: Block, t: nat, p: Quad, q: Quad, r: Quad, s: Quad, n: Quad)
    requires t + 20 <= 64 && Next(p, q, r, s, n)
    requires Scheduled(block, t, p) && Scheduled(block, t + 4, q)
    requires Scheduled(block, t + 8, r) && Scheduled(block, t + 12, s)
    ensures Scheduled(block, t + 16, n)
  {
    hide Schedule, Add, SmallSigma0, SmallSigma1;
    NextWord(block, t + 16);
    NextWord(block, t + 17);
    NextWord(block, t + 18);
    NextWord(block, t + 19);
  }

  lemma OneRound(start: Words, block: Block, t: nat, v: Vars, w: bv32, a': bv32, e': bv32)
    requires t < 64 && Rounds(start, block, t) == List(v) && Schedule(block, t) == w
    requires Turns(v.a, v.b, v.c, v.d, v.e, v.f, v.g, v.h, t, w, a', e')
    ensures Rounds(start, block, t + 1) == List(Vars(a', v.a, v.b, v.c, e', v.e, v.f, v.g))
  {
    hide Add, BigSigma0, BigSigma1, Ch, Maj, RoundConstant, Schedule;
  }

  lemma FourRounds(start: Words, block: Block, t: nat, u: Vars, v: Vars, q: Quad)
    requires t + 4 <= 64 && Rounds(start, block, t) == List(u) && Scheduled(block, t, q) && Four(u, v, t, q)
    ensures Rounds(start, block, t + 4) == List(v)
  {
    hide Turns, Rounds, Schedule;
    OneRound(start, block, t, u, q.w, v.d, v.h);
    OneRound(start, block, t + 1, Vars(v.d, u.a, u.b, u.c, v.h, u.e, u.f, u.g), q.x, v.c, v.g);
    OneRound(start, block, t + 2, Vars(v.c, v.d, u.a, u.b, v.g, v.h, u.e, u.f), q.y, v.b, v.f);
    OneRound(start, block, t + 3, Vars(v.b, v.c, v.d, u.a, v.f, v.g, v.h, u.e), q.z, v.a, v.e);
  }

  lemma NoRounds(start: Words, block: Block)
    ensures Rounds(start, block, 0) == start
  {
  }

  lemma EightRounds(start: Words, block: Block, t: nat, u: Vars, m: Vars, v: Vars, q: Quad, r: Quad)
    requires t + 8 <= 64 && Rounds(start, block, t) == List(u)
    requires Scheduled(block, t, q) && Scheduled(block, t + 4, r) && Eight(u, m, v, t, q, r)
    ensures Rounds(start, block, t + 8) == List(v)
  {
    hide Rounds, Four, List, Scheduled;
    FourRounds(start, block, t, u, m, q);
    FourRounds(start, block, t + 4, m, v, r);
  }

  lemma TwelveWords(block: Block, t: nat, a: Quad, b: Quad, c: Quad, d: Quad, e: Quad, f: Quad, g: Quad)
    requires t + 28 <= 64 && Twelve(a, b, c, d, e, f, g)
    requires Scheduled(block, t, a) && Scheduled(block, t + 4, b)
    requires Scheduled(block, t + 8, c) && Scheduled(block, t + 12, d)
    ensures Scheduled(block, t + 16, e) && Scheduled(block, t + 20, f) && Scheduled(block, t + 24, g)
  {
    hide Scheduled, Next;
    ScheduledNext(block, t, a, b, c, d, e);
    ScheduledNext(block, t + 4, b, c, d, e, f);
    ScheduledNext(block, t + 8, c, d, e, f, g);
  }

  // ------------------------------------------------------------------------
  // From the last row to the digest
  // ------------------------------------------------------------------------

  predicate Sums(x: Vars, y: Vars, z: Vars) {
    && z.a == Add(x.a, y.a) && z.b == Add(x.b, y.b) && z.c == Add(x.c, y.c) && z.d == Add(x.d, y.d)
    && z.e == Add(x.e, y.e) && z.f == Add(x.f, y.f) && z.g == Add(x.g, y.g) && z.h == Add(x.h, y.h)
  }

  lemma Compressed(block: Block, x: Vars, y: Vars, z: Vars)
    requires Rounds(List(x), block, 64) == List(y) && Sums(x, y, z)
    ensures Compress(List(x), block) == List(z)
  {
    hide AddWords, Rounds, List, Sums;
    Summed(x, y, z);
  }

  lemma Summed(x: Vars, y: Vars, z: Vars)
    requires Sums(x, y, z)
    ensures AddWords(List(x), List(y)) == List(z)
  {
    hide Add;
    var s := AddWords(List(x), List(y));
    assert s[0] == z.a && s[1] == z.b && s[2] == z.c && s[3] == z.d;
    assert s[4] == z.e && s[5] == z.f && s[6] == z.g && s[7] == z.h;
  }

  function HalfBytes(a: bv32, b: bv32, c: bv32, d: bv32): seq<byte> {
    WordBytes(a) + WordBytes(b) + WordBytes(c) + WordBytes(d)
  }

  lemma DigestBytes(z: Vars)
    ensures DigestPrefix(List(z), 8) == HalfBytes(z.a, z.b, z.c, z.d) + HalfBytes(z.e, z.f, z.g, z.h)
  {
    hide WordBytes;
    var w := List(z);
    assert DigestPrefix(w, 2) == WordBytes(w[0]) + WordBytes(w[1]);
    assert DigestPrefix(w, 4) == DigestPrefix(w, 2) + WordBytes(w[2]) + WordBytes(w[3]);
    assert DigestPrefix(w, 6) == DigestPrefix(w, 4) + WordBytes(w[4]) + WordBytes(w[5]);
    assert DigestPrefix(w, 8) == DigestPrefix(w, 6) + WordBytes(w[6]) + WordBytes(w[7]);
  }

  lemma HashOfOne(m: seq<byte>, block: Block, z: Vars)
    requires Pad(m) == block && Compress(INITIAL, block) == List(z)
    ensures Hash(m) == HalfBytes(z.a, z.b, z.c, z.d) + HalfBytes(z.e, z.f, z.g, z.h)
  {
    hide Compress, Pad, DigestPrefix, HalfBytes;
    DigestBytes(z);
    assert block[0..64] == block;
    assert Blocks(block, 1) == Compress(Blocks(block, 0), block[0..64]);
  }

  lemma HashOfTwo(m: seq<byte>, first: Block, second: Block, y: Vars, z: Vars)
    requires Pad(m) == first + second
    requires Compress(INITIAL, first) == List(y) && Compress(List(y), second) == List(z)
    ensures Hash(m) == HalfBytes(z.a, z.b, z.c, z.d) + HalfBytes(z.e, z.f, z.g, z.h)
  {
    hide Compress, Pad, DigestPrefix, HalfBytes;
    DigestBytes(z);
    var p := first + second;
    assert p[0..64] == first && p[64..128] == second;
    assert Blocks(p, 1) == Compress(Blocks(p, 0), p[0..64]);
    assert Blocks(p, 2) == Compress(Blocks(p, 1), p[64..128]);
  }

  /** A length below 2^16 in the field that ends the padding. */
  lemma ShortLength(v: nat)
    requires v < 65536
    ensures WriteBe(v, 8) == [0, 0, 0, 0, 0, 0, ToByte(v / 256), ToByte(v % 256)]
  {
    hide ToByte, WriteBe;
    NoLength(6);
    WriteLast(v, 7);
    WriteLast(v / 256, 6);
    FromToByte(0);
  }

  lemma {:induction false} NoLength(n: nat)
    ensures WriteBe(0, n) == Zeros(n)
    decreases n
  {
    if n > 0 {
      NoLength(n - 1);
    }
  }

  // ------------------------------------------------------------------------
  // The tables
  // ------------------------------------------------------------------------

  const One0 := Vars(0x6a09e667, 0xbb67ae85, 0x3c6ef372, 0xa54ff53a, 0x510e527f, 0x9b05688c, 0x1f83d9ab, 0x5be0cd19)
  const One1 := Vars(0xd550f666, 0xc8c347a7, 0x5a6ad9ad, 0x5d6aebcd, 0x24e00850, 0xf92939eb, 0x78ce7989, 0xfa2a4622)
  const One2 := Vars(0x85a07b5f, 0xe5030380, 0x2b4209f5, 0x04409a6a, 0x0c657a79, 0x9b27a401, 0x714260ad, 0x43ada245)
  const One3 := Vars(0xf71fc5a9, 0x4798a3f4, 0x8c87346b, 0x8e04ecb9, 0x816fd6e9, 0x436b23e8, 0x1cc92596, 0x32ca2d8c)
  const One4 := Vars(0xb0fa238e, 0xc0645fde, 0xd932eb16, 0x87912990, 0x07590dcd, 0x0b92f20c, 0x745a48de, 0x1e578218)
  const One5 := Vars(0xe1f20c33, 0xfe777bbf, 0xc2fbd9d1, 0x21da9a9b, 0xb0638179, 0xcc899961, 0x846ee454, 0x8034229c)
  const One6 := Vars(0xc5d53d8d, 0xa7a3623f, 0xc2606d6d, 0x9dc68b63, 0xaa47c347, 0x49f5114a, 0xe1257970, 0x8ada8930)
  const One7 := Vars(0x77d37528, 0xb62ec4bc, 0xcde8037d, 0x1c2c2838, 0xedffbff8, 0xc74c6516, 0x14383d8e, 0x2823ef91)
  const One8 := Vars(0x73b33bf5, 0xea992a22, 0xa0060b30, 0x363482c9, 0xba591112, 0x0109ab3a, 0xade79437, 0x6112a3b7)
  const One9 := Vars(0x65a0cfe4, 0xa9a7738c, 0xfe604df5, 0x98e12507, 0xf4b002d6, 0x085f3833, 0x59249dd3, 0x9cd9f5f6)
  const One10 := Vars(0x79ea687a, 0x6dc57a8a, 0x34df1604, 0x41a65cb1, 0x1efbc0a0, 0xf0781bc8, 0xa507a53d, 0x0772a26b)
  const One11 := Vars(0x9d4baf93, 0x17aa0dfe, 0xdf46652f, 0xd6670766, 0xfda24c2e, 0xdecd4715, 0x838b2711, 0x26352d63)
  const One12 := Vars(0x4172328d, 0xa14c14b0, 0x72ab4b91, 0x26628815, 0xfecf0bc6, 0xd57b94a9, 0xb7755da1, 0xa80f11f0)
  const One13 := Vars(0x886e7a22, 0x7a0508a1, 0xf11bfaa8, 0x05757ceb, 0x49231c1e, 0x52f1ccf7, 0x6e5c390c, 0xbd714038)
  const One14 := Vars(0x38cc9913, 0x3ec45cdb, 0xf5702fdb, 0x101fd28f, 0x54cb266b, 0xe50e1b4f, 0x9f4787c3, 0x529e7d00)
  const One15 := Vars(0xb6ae8fff, 0xffb70472, 0xc062d46f, 0xfcd1887b, 0xb21bad3d, 0x6d83bfc6, 0x7e44008e, 0x9b5e906c)
  const One16 := Vars(0x506e3058, 0xd39a2165, 0x04d24d6c, 0xb85e2ce9, 0x5ef50f24, 0xfb121210, 0x948d25b6, 0x961f4894)
  const OneW0 := Quad(0x61626380, 0x00000000, 0x00000000, 0x00000000)
  const OneW1 := Quad(0x00000000, 0x00000000, 0x00000000, 0x00000000)
  const OneW2 := Quad(0x00000000, 0x00000000, 0x00000000, 0x00000000)
  const OneW3 := Quad(0x00000000, 0x00000000, 0x00000000, 0x00000018)
  const OneW4 := Quad(0x61626380, 0x000f0000, 0x7da86405, 0x600003c6)
  const OneW5 := Quad(0x3e9d7b78, 0x0183fc00, 0x12dcbfdb, 0xe2e2c38e)
  const OneW6 := Quad(0xc8215c1a, 0xb73679a2, 0xe5bc3909, 0x32663c5b)
  const OneW7 := Quad(0x9d209d67, 0xec8726cb, 0x702138a4, 0xd3b7973b)
  const OneW8 := Quad(0x93f5997f, 0x3b68ba73, 0xaff4ffc1, 0xf10a5c62)
  const OneW9 := Quad(0x0a8b3996, 0x72af830a, 0x9409e33e, 0x24641522)
  const OneW10 := Quad(0x9f47bf94, 0xf0a64f5a, 0x3e246a79, 0x27333ba3)
  const OneW11 := Quad(0x0c4763f2, 0x840abf27, 0x7a290d5d, 0x065c43da)
  const OneW12 := Quad(0xfb3e89cb, 0xcc7617db, 0xb9e66c34, 0xa9993667)
  const OneW13 := Quad(0x84badedd, 0xc21462bc, 0x1487472c, 0xb20f7a99)
  const OneW14 := Quad(0xef57b9cd, 0xebe6b238, 0x9fe3095e, 0x78bc8d4b)
  const OneW15 := Quad(0xa43fcf15, 0x668b2ff8, 0xeeaba2cc, 0x12b1edeb)

  lemma OneRounds0()
    ensures Eight(One0, One1, One2, 0, OneW0, OneW1)
  { hide RoundConstant; Constants0(); }

  lemma OneRounds1()
    ensures Eight(One2, One3, One4, 8, OneW2, OneW3)
  { hide RoundConstant; Constants0(); }

  lemma OneRounds2()
    ensures Eight(One4, One5, One6, 16, OneW4, OneW5)
  { hide RoundConstant; Constants1(); }

  lemma OneRounds3()
    ensures Eight(One6, One7, One8, 24, OneW6, OneW7)
  { hide RoundConstant; Constants1(); }

  lemma OneRounds4()
    ensures Eight(One8, One9, One10, 32, OneW8, OneW9)
  { hide RoundConstant; Constants2(); }

  lemma OneRounds5()
    ensures Eight(One10, One11, One12, 40, OneW10, OneW11)
  { hide RoundConstant; Constants2(); }

  lemma OneRounds6()
    ensures Eight(One12, One13, One14, 48, OneW12, OneW13)
  { hide RoundConstant; Constants3(); }

  lemma OneRounds7()
    ensures Eight(One14, One15, One16, 56, OneW14, OneW15)
  { hide RoundConstant; Constants3(); }

  lemma OneSchedule0()
    ensures Twelve(OneW0, OneW1, OneW2, OneW3,
                   OneW4, OneW5, OneW6)
  { }

  lemma OneSchedule1()
    ensures Twelve(OneW3, OneW4, OneW5, OneW6,
                   OneW7, OneW8, OneW9)
  { }

  lemma OneSchedule2()
    ensures Twelve(OneW6, OneW7, OneW8, OneW9,
                   OneW10, OneW11, OneW12)
  { }

  lemma OneSchedule3()
    ensures Twelve(OneW9, OneW10, OneW11, OneW12,
                   OneW13, OneW14, OneW15)
  { }

  lemma OneBlock()
    ensures Rounds(List(One0), BlockOf(OneW0, OneW1, OneW2, OneW3), 64) == List(One16)
  {
    hide *;
    var block := BlockOf(OneW0, OneW1, OneW2, OneW3);
    BlockWords(OneW0, OneW1, OneW2, OneW3);
    OneSchedule0();
    TwelveWords(block, 0, OneW0, OneW1, OneW2, OneW3, OneW4, OneW5, OneW6);
    OneSchedule1();
    TwelveWords(block, 12, OneW3, OneW4, OneW5, OneW6, OneW7, OneW8, OneW9);
    OneSchedule2();
    TwelveWords(block, 24, OneW6, OneW7, OneW8, OneW9, OneW10, OneW11, OneW12);
    OneSchedule3();
    TwelveWords(block, 36, OneW9, OneW10, OneW11, OneW12, OneW13, OneW14, OneW15);
    NoRounds(List(One0), block);
    OneRounds0();
    EightRounds(List(One0), block, 0, One0, One1, One2, OneW0, OneW1);
    OneRounds1();
    EightRounds(List(One0), block, 8, One2, One3, One4, OneW2, OneW3);
    OneRounds2();
    EightRounds(List(One0), block, 16, One4, One5, One6, OneW4, OneW5);
    OneRounds3();
    EightRounds(List(One0), block, 24, One6, One7, One8, OneW6, OneW7);
    OneRounds4();
    EightRounds(List(One0), block, 32, One8, One9, One10, OneW8, OneW9);
    OneRounds5();
    EightRounds(List(One0), block, 40, One10, One11, One12, OneW10, OneW11);
    OneRounds6();
    EightRounds(List(One0), block, 48, One12, One13, One14, OneW12, OneW13);
    OneRounds7();
    EightRounds(List(One0), block, 56, One14, One15, One16, OneW14, OneW15);
  }

  const First0 := Vars(0x6a09e667, 0xbb67ae85, 0x3c6ef372, 0xa54ff53a, 0x510e527f, 0x9b05688c, 0x1f83d9ab, 0x5be0cd19)
  const First1 := Vars(0x4a8d64d5, 0x97651825, 0x2f2d5fcf, 0x5d6aebb1, 0x6494841b, 0x62d5c49e, 0x4eb1cfce, 0xfa2a4606)
  const First2 := Vars(0xd237e6db, 0x485835b7, 0x55c8ef48, 0xf921c212, 0xa401d211, 0x39a5b2ca, 0x7ff91c94, 0x05c4f88a)
  const First3 := Vars(0x1762215c, 0xb8e2b4cb, 0x3a474b2b, 0x359f2bce, 0xee1c97a8, 0x443ed29e, 0x9037b3b8, 0xc09ffec4)
  const First4 := Vars(0xc3486194, 0xdd16cbb3, 0xd68e6457, 0x101a4861, 0x1496a54f, 0x9162aded, 0x9243f8af, 0x839a0fc9)
  const First5 := Vars(0x2139187b, 0xf402f058, 0x046a193e, 0xb9dcacb1, 0x7c304206, 0x6f433549, 0x885370b6, 0xd4f64250)
  const First6 := Vars(0x59fce6b9, 0xae2e2d4f, 0x1b2b66b8, 0xd70ac17d, 0xa2c7d51d, 0xf074fc95, 0xd560b028, 0x7cc6b262)
  const First7 := Vars(0x73f858af, 0x128661da, 0x573221da, 0x4a885065, 0xe77c797f, 0x1162d575, 0x36e74eb4, 0x763597fb)
  const First8 := Vars(0x5581ab07, 0xeb43f3ed, 0xdf7151a0, 0x74bcf468, 0xdf980085, 0x0635d880, 0x7629c961, 0x72abaecd)
  const First9 := Vars(0x0786dce8, 0x1df8e885, 0x9ce5a62f, 0x9fc905c8, 0xde2a21d1, 0x2a9e048e, 0x6ef3b6bd, 0xa94d2af1)
  const First10 := Vars(0x7e4d30b8, 0x91ac9d5d, 0xa985b4be, 0x2c55d3a6, 0x9f5b9b6d, 0x68d8d590, 0xf72bf353, 0xb067c1af)
  const First11 := Vars(0x167361de, 0xb62c7013, 0x508a16ab, 0x7e056794, 0x41dd3844, 0x80a92a00, 0x45459d97, 0x423b26c0)
  const First12 := Vars(0x13d82741, 0x165be9cd, 0x18f0d19d, 0xde71e2f2, 0xa7802a4d, 0xa483f080, 0x6b88472c, 0xff61c636)
  const First13 := Vars(0x81c1cde0, 0x758ca97a, 0x543c99a1, 0x017b9d99, 0x5c47eb7b, 0x100cf2ea, 0x16f134b6, 0xaeb10b60)
  const First14 := Vars(0x9e57c4a0, 0xf907b313, 0x1d6de87a, 0xb8d55619, 0xeec13548, 0x61a41711, 0x3443bed4, 0x1c806a61)
  const First15 := Vars(0xe18f259a, 0x921fccb6, 0x7c015a2c, 0x71629856, 0x51e15869, 0x43d8a034, 0xcb9d3dd0, 0x2f6c8c4e)
  const First16 := Vars(0x1bdc6f6f, 0x86126910, 0xf6f443f8, 0xbcfce922, 0x25d2430a, 0x2fc08f85, 0xacc75916, 0x962d8621)
  const FirstW0 := Quad(0x61626364, 0x62636465, 0x63646566, 0x64656667)
  const FirstW1 := Quad(0x65666768, 0x66676869, 0x6768696a, 0x68696a6b)
  const FirstW2 := Quad(0x696a6b6c, 0x6a6b6c6d, 0x6b6c6d6e, 0x6c6d6e6f)
  const FirstW3 := Quad(0x6d6e6f70, 0x6e6f7071, 0x80000000, 0x00000000)
  const FirstW4 := Quad(0xeb8012ad, 0xa7c3ae92, 0x76e93ba2, 0xba42e743)
  const FirstW5 := Quad(0x92a92204, 0xd847e75e, 0x9e160036, 0xb280a7cb)
  const FirstW6 := Quad(0xddeb1516, 0xf36586f4, 0x969cd048, 0xe959d99d)
  const FirstW7 := Quad(0x6accc0ec, 0xf54cb098, 0x2af1b2da, 0xee59c4c9)
  const FirstW8 := Quad(0xa835e16a, 0x1dff4429, 0xd6e15959, 0xc397cd6e)
  const FirstW9 := Quad(0x6f1801ca, 0x21574205, 0x35ff7a84, 0x9743ee78)
  const FirstW10 := Quad(0xe44183e7, 0x0d09f00d, 0x9c89af54, 0x042d5bef)
  const FirstW11 := Quad(0x71f134d0, 0x0f94f463, 0x7e49dc63, 0x6f65c997)
  const FirstW12 := Quad(0x0b706583, 0x179312ca, 0x503054e9, 0xba125c39)
  const FirstW13 := Quad(0x7e9392c9, 0xd5cbaa1e, 0x78e0585d, 0xf6e7611c)
  const FirstW14 := Quad(0x8ac830ce, 0x8b47a303, 0xfd6e627f, 0x8c6e2c6a)
  const FirstW15 := Quad(0x4001adf1, 0x1a3dd097, 0xa9df6f62, 0x6aa60a39)

  lemma FirstRounds0()
    ensures Eight(First0, First1, First2, 0, FirstW0, FirstW1)
  { hide RoundConstant; Constants0(); }

  lemma FirstRounds1()
    ensures Eight(First2, First3, First4, 8, FirstW2, FirstW3)
  { hide RoundConstant; Constants0(); }

  lemma FirstRounds2()
    ensures Eight(First4, First5, First6, 16, FirstW4, FirstW5)
  { hide RoundConstant; Constants1(); }

  lemma FirstRounds3()
    ensures Eight(First6, First7, First8, 24, FirstW6, FirstW7)
  { hide RoundConstant; Constants1(); }

  lemma FirstRounds4()
    ensures Eight(First8, First9, First10, 32, FirstW8, FirstW9)
  { hide RoundConstant; Constants2(); }

  lemma FirstRounds5()
    ensures Eight(First10, First11, First12, 40, FirstW10, FirstW11)
  { hide RoundConstant; Constants2(); }

  lemma FirstRounds6()
    ensures Eight(First12, First13, First14, 48, FirstW12, FirstW13)
  { hide RoundConstant; Constants3(); }

  lemma FirstRounds7()
    ensures Eight(First14, First15, First16, 56, FirstW14, FirstW15)
  { hide RoundConstant; Constants3(); }

  lemma FirstSchedule0()
    ensures Twelve(FirstW0, FirstW1, FirstW2, FirstW3,
                   FirstW4, FirstW5, FirstW6)
  { }

  lemma FirstSchedule1()
    ensures Twelve(FirstW3, FirstW4, FirstW5, FirstW6,
                   FirstW7, FirstW8, FirstW9)
  { }

  lemma FirstSchedule2()
    ensures Twelve(FirstW6, FirstW7, FirstW8, FirstW9,
                   FirstW10, FirstW11, FirstW12)
  { }

  lemma FirstSchedule3()
    ensures Twelve(FirstW9, FirstW10, FirstW11, FirstW12,
                   FirstW13, FirstW14, FirstW15)
  { }

  lemma FirstBlock()
    ensures Rounds(List(First0), BlockOf(FirstW0, FirstW1, FirstW2, FirstW3), 64) == List(First16)
  {
    hide *;
    var block := BlockOf(FirstW0, FirstW1, FirstW2, FirstW3);
    BlockWords(FirstW0, FirstW1, FirstW2, FirstW3);
    FirstSchedule0();
    TwelveWords(block, 0, FirstW0, FirstW1, FirstW2, FirstW3, FirstW4, FirstW5, FirstW6);
    FirstSchedule1();
    TwelveWords(block, 12, FirstW3, FirstW4, FirstW5, FirstW6, FirstW7, FirstW8, FirstW9);
    FirstSchedule2();
    TwelveWords(block, 24, FirstW6, FirstW7, FirstW8, FirstW9, FirstW10, FirstW11, FirstW12);
    FirstSchedule3();
    TwelveWords(block, 36, FirstW9, FirstW10, FirstW11, FirstW12, FirstW13, FirstW14, FirstW15);
    NoRounds(List(First0), block);
    FirstRounds0();
    EightRounds(List(First0), block, 0, First0, First1, First2, FirstW0, FirstW1);
    FirstRounds1();
    EightRounds(List(First0), block, 8, First2, First3, First4, FirstW2, FirstW3);
    FirstRounds2();
    EightRounds(List(First0), block, 16, First4, First5, First6, FirstW4, FirstW5);
    FirstRounds3();
    EightRounds(List(First0), block, 24, First6, First7, First8, FirstW6, FirstW7);
    FirstRounds4();
    EightRounds(List(First0), block, 32, First8, First9, First10, FirstW8, FirstW9);
    FirstRounds5();
    EightRounds(List(First0), block, 40, First10, First11, First12, FirstW10, FirstW11);
    FirstRounds6();
    EightRounds(List(First0), block, 48, First12, First13, First14, FirstW12, FirstW13);
    FirstRounds7();
    EightRounds(List(First0), block, 56, First14, First15, First16, FirstW14, FirstW15);
  }

  const Second0 := Vars(0x85e655d6, 0x417a1795, 0x3363376a, 0x624cde5c, 0x76e09589, 0xcac5f811, 0xcc4b32c1, 0xf20e533a)
  const Second1 := Vars(0xf268faa9, 0xfd1eebdc, 0x7c3c0f86, 0x7c20c838, 0xe20362ef, 0xaf71b9ea, 0x8c51be64, 0x4670ae6e)
  const Second2 := Vars(0xbf9a93a0, 0x89bba3f1, 0x3eeb6c06, 0x185a5d79, 0x059abdd1, 0x0a34df03, 0xfe20cda6, 0x8dff3001)
  const Second3 := Vars(0x5eb4ec40, 0x5b35025b, 0x2d964e86, 0x2c096744, 0xe11b4548, 0x10e77723, 0xaa27ed82, 0xabfa465b)
  const Second4 := Vars(0x16a8cc79, 0x0cea5cbc, 0xd74080fa, 0x35ee996d, 0x0fcb1f6f, 0x60356548, 0x68aa893f, 0x5c24e2a2)
  const Second5 := Vars(0x76f1a2bc, 0xdcff40fd, 0x23dcb6c2, 0xf16f634e, 0x0dc84bb1, 0x69bf7b95, 0xca9182d3, 0x8b21cdc1)
  const Second6 := Vars(0xa4195b91, 0xf13ae55b, 0xd44dc81a, 0x20aad899, 0xeddbd6ed, 0x966aa287, 0x5bace62d, 0xcc4769f2)
  const Second7 := Vars(0x0d936bab, 0x9450fbbc, 0xaa6cb982, 0x4984fa79, 0x6e495d4b, 0x09166dda, 0x0b5eeea4, 0xa530d939)
  const Second8 := Vars(0xb0eab1c5, 0x02ef3a5f, 0x1cfa5eb0, 0xd958b529, 0xf6d93952, 0x5da10665, 0x6c49db9f, 0xc2fa99b1)
  const Second9 := Vars(0xecde4e0d, 0x9907f1b6, 0x4bd1df96, 0x0bfba73c, 0x5dc119e6, 0x66c3043d, 0x905e44ac, 0x8b99e3a9)
  const Second10 := Vars(0x221b8a5a, 0xadca7a96, 0xd949682b, 0x2f11c939, 0x0b82c5eb, 0xc6cce4ff, 0x32d99008, 0xfed4ce1d)
  const Second11 := Vars(0xf2ad6322, 0x8300fca2, 0x2c794876, 0x12d97845, 0xcc48c7f3, 0xe0e3457c, 0xff6759ba, 0xe4213ca2)
  const Second12 := Vars(0xd7354d5b, 0x0b3303a7, 0x104a7db4, 0x0f154e11, 0xaad55b6b, 0xbbe1c39a, 0x5348e8f6, 0x6f9517cb)
  const Second13 := Vars(0x1a6bcf6a, 0xd8aabcf9, 0x2748e5ec, 0xb736d7a6, 0xff5e99d0, 0x27844711, 0xd4b58576, 0x68f25260)
  const Second14 := Vars(0x92952710, 0xd9f0c115, 0xec02560a, 0x4eca6fa0, 0x226806d6, 0x624150c4, 0x7151df8e, 0x989ed071)
  const Second15 := Vars(0x1c4cddd9, 0x286fe5f0, 0x4348eb1f, 0x20d4d0e4, 0xf487a853, 0x54076664, 0xc21eddf9, 0x4e515a4d)
  const Second16 := Vars(0x9ea7148b, 0x908c2123, 0xb25cef29, 0xa9f181dd, 0x2c5c4ed0, 0x9a392956, 0x2aa1bb13, 0x27ccb387)
  const SecondW0 := Quad(0x00000000, 0x00000000, 0x00000000, 0x00000000)
  const SecondW1 := Quad(0x00000000, 0x00000000, 0x00000000, 0x00000000)
  const SecondW2 := Quad(0x00000000, 0x00000000, 0x00000000, 0x00000000)
  const SecondW3 := Quad(0x00000000, 0x00000000, 0x00000000, 0x000001c0)
  const SecondW4 := Quad(0x00000000, 0x00d80000, 0x00000000, 0x00003677)
  const SecondW5 := Quad(0x00000000, 0x1df5600d, 0x000001c0, 0x1c00501c)
  const SecondW6 := Quad(0x01b00000, 0x220a8d94, 0x0000a365, 0x177017e7)
  const SecondW7 := Quad(0x63d38035, 0x090ab713, 0x4c7539ca, 0x0f19a8c9)
  const SecondW8 := Quad(0x5df4b0c4, 0xe257036a, 0xc97bb6f1, 0xc5b46f4d)
  const SecondW9 := Quad(0xf8253c4e, 0xa558d189, 0x78696285, 0xed07117f)
  const SecondW10 := Quad(0x107358f6, 0x390ae496, 0x565010a2, 0xc51d7d44)
  const SecondW11 := Quad(0x9e74c972, 0x6614b561, 0x30fc129d, 0x9ac684a8)
  const SecondW12 := Quad(0x2b658dbd, 0xe290f793, 0x9eebb24c, 0x9713b5de)
  const SecondW13 := Quad(0x41061ab7, 0xe022e23b, 0x0772079e, 0x7de22d9c)
  const SecondW14 := Quad(0xc8b83778, 0x75a79849, 0xd93dbddb, 0x0a036c9d)
  const SecondW15 := Quad(0xcb4f6ac6, 0x823f97e2, 0xea2f2a7a, 0xb9018b52)

  lemma SecondRounds0()
    ensures Eight(Second0, Second1, Second2, 0, SecondW0, SecondW1)
  { hide RoundConstant; Constants0(); }

  lemma SecondRounds1()
    ensures Eight(Second2, Second3, Second4, 8, SecondW2, SecondW3)
  { hide RoundConstant; Constants0(); }

  lemma SecondRounds2()
    ensures Eight(Second4, Second5, Second6, 16, SecondW4, SecondW5)
  { hide RoundConstant; Constants1(); }

  lemma SecondRounds3()
    ensures Eight(Second6, Second7, Second8, 24, SecondW6, SecondW7)
  { hide RoundConstant; Constants1(); }

  lemma SecondRounds4()
    ensures Eight(Second8, Second9, Second10, 32, SecondW8, SecondW9)
  { hide RoundConstant; Constants2(); }

  lemma SecondRounds5()
    ensures Eight(Second10, Second11, Second12, 40, SecondW10, SecondW11)
  { hide RoundConstant; Constants2(); }

  lemma SecondRounds6()
    ensures Eight(Second12, Second13, Second14, 48, SecondW12, SecondW13)
  { hide RoundConstant; Constants3(); }

  lemma SecondRounds7()
    ensures Eight(Second14, Second15, Second16, 56, SecondW14, SecondW15)
  { hide RoundConstant; Constants3(); }

  lemma SecondSchedule0()
    ensures Twelve(SecondW0, SecondW1, SecondW2, SecondW3,
                   SecondW4, SecondW5, SecondW6)
  { }

  lemma SecondSchedule1()
    ensures Twelve(SecondW3, SecondW4, SecondW5, SecondW6,
                   SecondW7, SecondW8, SecondW9)
  { }

  lemma SecondSchedule2()
    ensures Twelve(SecondW6, SecondW7, SecondW8, SecondW9,
                   SecondW10, SecondW11, SecondW12)
  { }

  lemma SecondSchedule3()
    ensures Twelve(SecondW9, SecondW10, SecondW11, SecondW12,
                   SecondW13, SecondW14, SecondW15)
  { }

  lemma SecondBlock()
    ensures Rounds(List(Second0), BlockOf(SecondW0, SecondW1, SecondW2, SecondW3), 64) == List(Second16)
  {
    hide *;
    var block := BlockOf(SecondW0, SecondW1, SecondW2, SecondW3);
    BlockWords(SecondW0, SecondW1, SecondW2, SecondW3);
    SecondSchedule0();
    TwelveWords(block, 0, SecondW0, SecondW1, SecondW2, SecondW3, SecondW4, SecondW5, SecondW6);
    SecondSchedule1();
    TwelveWords(block, 12, SecondW3, SecondW4, SecondW5, SecondW6, SecondW7, SecondW8, SecondW9);
    SecondSchedule2();
    TwelveWords(block, 24, SecondW6, SecondW7, SecondW8, SecondW9, SecondW10, SecondW11, SecondW12);
    SecondSchedule3();
    TwelveWords(block, 36, SecondW9, SecondW10, SecondW11, SecondW12, SecondW13, SecondW14, SecondW15);
    NoRounds(List(Second0), block);
    SecondRounds0();
    EightRounds(List(Second0), block, 0, Second0, Second1, Second2, SecondW0, SecondW1);
    SecondRounds1();
    EightRounds(List(Second0), block, 8, Second2, Second3, Second4, SecondW2, SecondW3);
    SecondRounds2();
    EightRounds(List(Second0), block, 16, Second4, Second5, Second6, SecondW4, SecondW5);
    SecondRounds3();
    EightRounds(List(Second0), block, 24, Second6, Second7, Second8, SecondW6, SecondW7);
    SecondRounds4();
    EightRounds(List(Second0), block, 32, Second8, Second9, Second10, SecondW8, SecondW9);
    SecondRounds5();
    EightRounds(List(Second0), block, 40, Second10, Second11, Second12, SecondW10, SecondW11);
    SecondRounds6();
    EightRounds(List(Second0), block, 48, Second12, Second13, Second14, SecondW12, SecondW13);
    SecondRounds7();
    EightRounds(List(Second0), block, 56, Second14, Second15, Second16, SecondW14, SecondW15);
  }

  // ------------------------------------------------------------------------
  // One block
  // ------------------------------------------------------------------------

  /** "abc". */
  const ABC: seq<byte> := [0x61, 0x62, 0x63]

  const OneSum := Vars(0xba7816bf, 0x8f01cfea, 0x414140de, 0x5dae2223, 0xb00361a3, 0x96177a9c, 0xb410ff61, 0xf20015ad)

  lemma OneFilled()
    ensures QuadBytes(OneW0) == ABC + [0x80, 0, 0, 0, 0, 0, 0, 0, 0, 0, 0, 0, 0]
    ensures QuadBytes(OneW1) == [0, 0, 0, 0, 0, 0, 0, 0, 0, 0, 0, 0, 0, 0, 0, 0]
    ensures QuadBytes(OneW2) == [0, 0, 0, 0, 0, 0, 0, 0, 0, 0, 0, 0, 0, 0, 0, 0]
    ensures QuadBytes(OneW3) == [0, 0, 0, 0, 0, 0, 0, 0, 0, 0, 0, 0, 0, 0, 0, 0x18]
  {
  }

  lemma OneIs()
    ensures BlockOf(OneW0, OneW1, OneW2, OneW3) == ABC + [0x80] + Zeros(52) + [0, 0, 0, 0, 0, 0, 0, 0x18]
  {
    hide QuadBytes;
    OneFilled();
  }

  lemma OnePadded()
    ensures Pad(ABC) == BlockOf(OneW0, OneW1, OneW2, OneW3)
  {
    hide WriteBe, ToByte, QuadBytes, BlockOf;
    ShortLength(24);
    SmallBytes();
    OneIs();
    assert Pad(ABC) == ABC + [0x80] + Zeros(52) + [0, 0, 0, 0, 0, 0, 0, 0x18];
  }

  lemma SmallBytes()
    ensures ToByte(0) == 0 && ToByte(1) == 1 && ToByte(24) == 0x18 && ToByte(192) == 0xC0
  {
  }

  lemma OneSums()
    ensures Sums(One0, One16, OneSum) && List(One0) == INITIAL
  {
  }

  lemma OneDigest()
    ensures HalfBytes(OneSum.a, OneSum.b, OneSum.c, OneSum.d) ==
            [0xba, 0x78, 0x16, 0xbf, 0x8f, 0x01, 0xcf, 0xea, 0x41, 0x41, 0x40, 0xde, 0x5d, 0xae, 0x22, 0x23]
    ensures HalfBytes(OneSum.e, OneSum.f, OneSum.g, OneSum.h) ==
            [0xb0, 0x03, 0x61, 0xa3, 0x96, 0x17, 0x7a, 0x9c, 0xb4, 0x10, 0xff, 0x61, 0xf2, 0x00, 0x15, 0xad]
  {
  }

  /** The one-block example: the digest of "abc". */
  lemma OneBlockExample()
    ensures Hash(ABC) ==
            [0xba, 0x78, 0x16, 0xbf, 0x8f, 0x01, 0xcf, 0xea, 0x41, 0x41, 0x40, 0xde, 0x5d, 0xae, 0x22, 0x23] +
            [0xb0, 0x03, 0x61, 0xa3, 0x96, 0x17, 0x7a, 0x9c, 0xb4, 0x10, 0xff, 0x61, 0xf2, 0x00, 0x15, 0xad]
  {
    hide Hash, Pad, BlockOf, HalfBytes, Rounds, Sums;
    OnePadded();
    OneBlock();
    OneSums();
    OneDigest();
    Compressed(BlockOf(OneW0, OneW1, OneW2, OneW3), One0, One16, OneSum);
    HashOfOne(ABC, BlockOf(OneW0, OneW1, OneW2, OneW3), OneSum);
  }

  // ------------------------------------------------------------------------
  // Two blocks
  // ------------------------------------------------------------------------

  /** "abcdbcdecdefdefgefghfghighijhijkijkljklmklmnlmnomnopnopq". */
  const LONGER: seq<byte> :=
    [0x61, 0x62, 0x63, 0x64, 0x62, 0x63, 0x64, 0x65, 0x63, 0x64, 0x65, 0x66, 0x64, 0x65, 0x66, 0x67] +
    [0x65, 0x66, 0x67, 0x68, 0x66, 0x67, 0x68, 0x69, 0x67, 0x68, 0x69, 0x6a, 0x68, 0x69, 0x6a, 0x6b] +
    [0x69, 0x6a, 0x6b, 0x6c, 0x6a, 0x6b, 0x6c, 0x6d, 0x6b, 0x6c, 0x6d, 0x6e, 0x6c, 0x6d, 0x6e, 0x6f] +
    [0x6d, 0x6e, 0x6f, 0x70, 0x6e, 0x6f, 0x70, 0x71]

  const FirstSum := Vars(0x85e655d6, 0x417a1795, 0x3363376a, 0x624cde5c, 0x76e09589, 0xcac5f811, 0xcc4b32c1, 0xf20e533a)
  const SecondSum := Vars(
    0x248d6a61, 0xd20638b8, 0xe5c02693, 0x0c3e6039, 0xa33ce459, 0x64ff2167, 0xf6ecedd4, 0x19db06c1)

  lemma FirstFilled()
    ensures QuadBytes(FirstW0) ==
            [0x61, 0x62, 0x63, 0x64, 0x62, 0x63, 0x64, 0x65, 0x63, 0x64, 0x65, 0x66, 0x64, 0x65, 0x66, 0x67]
    ensures QuadBytes(FirstW1) ==
            [0x65, 0x66, 0x67, 0x68, 0x66, 0x67, 0x68, 0x69, 0x67, 0x68, 0x69, 0x6a, 0x68, 0x69, 0x6a, 0x6b]
    ensures QuadBytes(FirstW2) ==
            [0x69, 0x6a, 0x6b, 0x6c, 0x6a, 0x6b, 0x6c, 0x6d, 0x6b, 0x6c, 0x6d, 0x6e, 0x6c, 0x6d, 0x6e, 0x6f]
    ensures QuadBytes(FirstW3) ==
            [0x6d, 0x6e, 0x6f, 0x70, 0x6e, 0x6f, 0x70, 0x71, 0x80, 0x00, 0x00, 0x00, 0x00, 0x00, 0x00, 0x00]
  {
  }

  lemma SecondFilled()
    ensures var zeros: seq<byte> := [0, 0, 0, 0, 0, 0, 0, 0, 0, 0, 0, 0, 0, 0, 0, 0];
            QuadBytes(SecondW0) == zeros && QuadBytes(SecondW1) == zeros && QuadBytes(SecondW2) == zeros
    ensures QuadBytes(SecondW3) ==
            [0x00, 0x00, 0x00, 0x00, 0x00, 0x00, 0x00, 0x00, 0x00, 0x00, 0x00, 0x00, 0x00, 0x00, 0x01, 0xc0]
  {
  }

  lemma FirstIs()
    ensures BlockOf(FirstW0, FirstW1, FirstW2, FirstW3) == LONGER + [0x80] + Zeros(7)
  {
    hide QuadBytes;
    FirstFilled();
  }

  lemma SecondIs()
    ensures BlockOf(SecondW0, SecondW1, SecondW2, SecondW3) == Zeros(56) + [0, 0, 0, 0, 0, 0, 1, 0xC0]
  {
    hide QuadBytes;
    SecondFilled();
  }

  lemma LongerPadded()
    ensures |LONGER| == 56
    ensures Pad(LONGER) ==
            BlockOf(FirstW0, FirstW1, FirstW2, FirstW3) +
            BlockOf(SecondW0, SecondW1, SecondW2, SecondW3)
  {
    hide WriteBe, ToByte, QuadBytes, BlockOf;
    ShortLength(448);
    SmallBytes();
    FirstIs();
    SecondIs();
    assert Pad(LONGER) == LONGER + [0x80] + Zeros(63) + [0, 0, 0, 0, 0, 0, 1, 0xC0];
    assert Zeros(63) == Zeros(7) + Zeros(56);
  }

  lemma FirstSums()
    ensures Sums(First0, First16, FirstSum) && List(First0) == INITIAL
  {
  }

  lemma SecondSums()
    ensures Sums(Second0, Second16, SecondSum) && Second0 == FirstSum
  {
  }

  lemma LongerDigest()
    ensures HalfBytes(SecondSum.a, SecondSum.b, SecondSum.c, SecondSum.d) ==
            [0x24, 0x8d, 0x6a, 0x61, 0xd2, 0x06, 0x38, 0xb8, 0xe5, 0xc0, 0x26, 0x93, 0x0c, 0x3e, 0x60, 0x39]
    ensures HalfBytes(SecondSum.e, SecondSum.f, SecondSum.g, SecondSum.h) ==
            [0xa3, 0x3c, 0xe4, 0x59, 0x64, 0xff, 0x21, 0x67, 0xf6, 0xec, 0xed, 0xd4, 0x19, 0xdb, 0x06, 0xc1]
  {
  }

  /** The two-block example: 56 bytes, whose length no longer fits the block they are in. */
  lemma TwoBlockExample()
    ensures Hash(LONGER) ==
            [0x24, 0x8d, 0x6a, 0x61, 0xd2, 0x06, 0x38, 0xb8, 0xe5, 0xc0, 0x26, 0x93, 0x0c, 0x3e, 0x60, 0x39] +
            [0xa3, 0x3c, 0xe4, 0x59, 0x64, 0xff, 0x21, 0x67, 0xf6, 0xec, 0xed, 0xd4, 0x19, 0xdb, 0x06, 0xc1]
  {
    hide Hash, Pad, BlockOf, HalfBytes, Rounds, Sums;
    LongerPadded();
    FirstBlock();
    FirstSums();
    SecondBlock();
    SecondSums();
    LongerDigest();
    var first := BlockOf(FirstW0, FirstW1, FirstW2, FirstW3);
    var second := BlockOf(SecondW0, SecondW1, SecondW2, SecondW3);
    Compressed(first, First0, First16, FirstSum);
    Compressed(second, Second0, Second16, SecondSum);
    HashOfTwo(LONGER, first, second, FirstSum, SecondSum);
  }
}
