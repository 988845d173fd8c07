/** SHA-256 as FIPS 180-4 defines it: one hash of one finished message.
    The streaming hasher of src/crypto/sha256.cpp is proved against this in Hasher. */
module Sha256 {
  import opened Common
  import opened BigEndian

  type Words = s: seq<bv32> | |s| == 8 witness [0, 0, 0, 0, 0, 0, 0, 0]
  type Block = s: seq<byte> | |s| == 64 witness seq(64, _ => 0)

  /** Section 5.3.3. */
  const INITIAL: Words := [
    0x6a09e667, 0xbb67ae85, 0x3c6ef372, 0xa54ff53a, 0x510e527f, 0x9b05688c, 0x1f83d9ab, 0x5be0cd19]

  /** Section 4.2.2. */
  const ROUND_CONSTANTS: seq<seq<bv32>> := [
    [0x428a2f98, 0x71374491, 0xb5c0fbcf, 0xe9b5dba5, 0x3956c25b, 0x59f111f1, 0x923f82a4, 0xab1c5ed5],
    [0xd807aa98, 0x12835b01, 0x243185be, 0x550c7dc3, 0x72be5d74, 0x80deb1fe, 0x9bdc06a7, 0xc19bf174],
    [0xe49b69c1, 0xefbe4786, 0x0fc19dc6, 0x240ca1cc, 0x2de92c6f, 0x4a7484aa, 0x5cb0a9dc, 0x76f988da],
    [0x983e5152, 0xa831c66d, 0xb00327c8, 0xbf597fc7, 0xc6e00bf3, 0xd5a79147, 0x06ca6351, 0x14292967],
    [0x27b70a85, 0x2e1b2138, 0x4d2c6dfc, 0x53380d13, 0x650a7354, 0x766a0abb, 0x81c2c92e, 0x92722c85],
    [0xa2bfe8a1, 0xa81a664b, 0xc24b8b70, 0xc76c51a3, 0xd192e819, 0xd6990624, 0xf40e3585, 0x106aa070],
    [0x19a4c116, 0x1e376c08, 0x2748774c, 0x34b0bcb5, 0x391c0cb3, 0x4ed8aa4a, 0x5b9cca4f, 0x682e6ff3],
    [0x748f82ee, 0x78a5636f, 0x84c87814, 0x8cc70208, 0x90befffa, 0xa4506ceb, 0xbef9a3f7, 0xc67178f2]]

  function RoundConstant(t: nat): bv32
    requires t < 64
  {
    ROUND_CONSTANTS[t / 8][t % 8]
  }

  // ------------------------------------------------------------------------
  // Section 4.1.2: the logical functions
  // ------------------------------------------------------------------------

  function Add(x: bv32, y: bv32): bv32 { x + y }

  function Rotr(x: bv32, n: bv32): bv32
    requires 0 < n < 32
  {
    (x >> n) | (x << (32 - n))
  }

  function Ch(x: bv32, y: bv32, z: bv32): bv32 { (x & y) ^ (!x & z) }

  function Maj(x: bv32, y: bv32, z: bv32): bv32 { (x & y) ^ (x & z) ^ (y & z) }

  function BigSigma0(x: bv32): bv32 { Rotr(x, 2) ^ Rotr(x, 13) ^ Rotr(x, 22) }

  function BigSigma1(x: bv32): bv32 { Rotr(x, 6) ^ Rotr(x, 11) ^ Rotr(x, 25) }

  function SmallSigma0(x: bv32): bv32 { Rotr(x, 7) ^ Rotr(x, 18) ^ (x >> 3) }

  function SmallSigma1(x: bv32): bv32 { Rotr(x, 17) ^ Rotr(x, 19) ^ (x >> 10) }

  // ------------------------------------------------------------------------
  // Section 6.2.2: the hash computation
  // ------------------------------------------------------------------------

  /** The message schedule word W_t. */
  function Schedule(block: Block, t: nat): bv32
    requires t < 64
    decreases t
  {
    if t < 16 then ReadWord(block[4 * t..4 * t + 4])
    else Add(Add(Add(SmallSigma1(Schedule(block, t - 2)), Schedule(block, t - 7)),
                 SmallSigma0(Schedule(block, t - 15))), Schedule(block, t - 16))
  }

  /** The working variables a to h after `t` rounds. */
  function Rounds(start: Words, block: Block, t: nat): Words
    requires t <= 64
    decreases t
  {
    hide Add, BigSigma0, BigSigma1, Ch, Maj, RoundConstant, Schedule;
    if t == 0 then start
    else
      var r := Rounds(start, block, t - 1);
      var t1 := Add(Add(Add(Add(r[7], BigSigma1(r[4])), Ch(r[4], r[5], r[6])), RoundConstant(t - 1)),
                    Schedule(block, t - 1));
      var t2 := Add(BigSigma0(r[0]), Maj(r[0], r[1], r[2]));
      [Add(t1, t2), r[0], r[1], r[2], Add(r[3], t1), r[4], r[5], r[6]]
  }

  function AddWords(x: Words, y: Words): Words {
    seq(8, (i: nat) requires i < 8 => Add(x[i], y[i]))
  }

  function Compress(start: Words, block: Block): Words {
    hide AddWords, Rounds;
    AddWords(start, Rounds(start, block, |block|))
  }

  /** The intermediate hash H after the first `n` blocks of `m`. */
  function Blocks(m: seq<byte>, n: nat): Words
    requires 64 * n <= |m|
    decreases n
  {
    hide Compress;
    if n == 0 then INITIAL else Compress(Blocks(m, n - 1), m[64 * n - 64..64 * n])
  }

  /** Section 5.1.1: zero bytes between the 1 bit and the length. */
  function ZeroCount(length: nat): nat {
    (119 - length % 64) % 64
  }

  lemma PadLength(length: nat)
    ensures (length + 1 + ZeroCount(length) + 8) % 64 == 0
  {
    var r := length % 64;
    var z := ZeroCount(length);
    assert length == 64 * (length / 64) + r;
    assert r + 1 + z == 56 || r + 1 + z == 120;
  }

  function Zeros(n: nat): (s: seq<byte>)
    ensures |s| == n
  {
    seq(n, _ => 0)
  }

  /** The length field holds 64 bits, so it is exact for messages under 2^64 bits. */
  function LengthBits(length: nat): nat {
    (8 * length) % TWO_64
  }

  function Pad(m: seq<byte>): (p: seq<byte>)
    ensures |p| % 64 == 0
  {
    hide WriteBe, ZeroCount;
    PadLength(|m|);
    m + [0x80] + Zeros(ZeroCount(|m|)) + WriteBe(LengthBits(|m|), 8)
  }

  /** The first `n` words of the final hash value, big-endian. */
  function DigestPrefix(w: Words, n: nat): (d: seq<byte>)
    requires n <= 8
    ensures |d| == 4 * n
    decreases n
  {
    if n == 0 then [] else DigestPrefix(w, n - 1) + WordBytes(w[n - 1])
  }

  function Hash(m: seq<byte>): (d: seq<byte>)
    ensures |d| == 32
  {
    DigestPrefix(Blocks(Pad(m), |Pad(m)| / 64), 8)
  }

  // ------------------------------------------------------------------------
  // Laws
  // ------------------------------------------------------------------------

  /** Section 5.1.1 asks for the smallest number of zero bits that leaves 64 bits for the
      length; in bytes, the smallest number of zero bytes that reaches 56 modulo 64. */
  lemma PaddingIsShortest(length: nat, k: nat)
    ensures (length + 1 + ZeroCount(length)) % 64 == 56
    ensures (length + 1 + k) % 64 == 56 ==> ZeroCount(length) <= k
  {
    var r := length % 64;
    var z := ZeroCount(length);
    assert r + 1 + z == 56 || r + 1 + z == 120;
    assert length == 64 * (length / 64) + r;
    if (length + 1 + k) % 64 == 56 {
      var q := (length + 1 + k) / 64 - length / 64;
      assert r + 1 + k == 64 * q + 56;
    }
  }

  /** Bytes that arrive later do not change the blocks already taken in. */
  lemma {:induction false} BlocksExtend(m: seq<byte>, more: seq<byte>, n: nat)
    requires 64 * n <= |m|
    ensures Blocks(m + more, n) == Blocks(m, n)
    decreases n
  {
    hide Compress;
    if n > 0 {
      BlocksExtend(m, more, n - 1);
      assert (m + more)[64 * n - 64..64 * n] == m[64 * n - 64..64 * n];
    }
  }

  lemma PadEnds(m: seq<byte>)
    ensures |Pad(m)| >= |m| + 8
    ensures Pad(m)[..|m|] == m && Pad(m)[|Pad(m)| - 8..] == WriteBe(LengthBits(|m|), 8)
  {
    hide WriteBe, ZeroCount, LengthBits;
  }

  /** Encoding the length keeps a padded message from being another message's padded prefix:
      different messages are padded differently. */
  lemma PadInjective(a: seq<byte>, b: seq<byte>)
    requires 8 * |a| < TWO_64 && 8 * |b| < TWO_64
    requires Pad(a) == Pad(b)
    ensures a == b
  {
    var p := Pad(a);
    hide WriteBe;
    Capacities();
    PadEnds(a);
    PadEnds(b);
    hide Pad;
    ReadAfterWrite(LengthBits(|a|), 8);
    ReadAfterWrite(LengthBits(|b|), 8);
  }
}
