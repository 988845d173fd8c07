/** Big-endian fields: the read_be and write_be helpers of src/protocol/serializer.cpp and
    src/crypto/sha256.cpp. Numbers are written by arithmetic, checksum and hash words by
    shifting and masking. */
module BigEndian {
  import opened Common

  /** 256 to the power n: how many values n bytes can hold. */
  function Capacity(n: nat): nat {
    if n == 0 then 1 else 256 * Capacity(n - 1)
  }

  /** The lowest n bytes of `v`, most significant first. */
  function WriteBe(v: nat, n: nat): (s: seq<byte>)
    ensures |s| == n
    decreases n
  {
    if n == 0 then [] else WriteBe(v / 256, n - 1) + [ToByte(v % 256)]
  }

  lemma WriteLast(v: nat, n: nat)
    ensures WriteBe(v, n + 1) == WriteBe(v / 256, n) + [ToByte(v % 256)]
  {
  }

  /** The accumulator loop of read_be64, for any number of bytes. */
  function ReadBe(s: seq<byte>): nat
    decreases |s|
  {
    if s == [] then 0 else ReadBe(s[..|s| - 1]) * 256 + FromByte(s[|s| - 1])
  }

  lemma {:induction false} ReadBeBound(s: seq<byte>)
    ensures ReadBe(s) < Capacity(|s|)
    decreases |s|
  {
    if s != [] {
      ReadBeBound(s[..|s| - 1]);
    }
  }

  lemma {:induction false} ReadAfterWrite(v: nat, n: nat)
    requires v < Capacity(n)
    ensures ReadBe(WriteBe(v, n)) == v
    decreases n
  {
    if n > 0 {
      hide ToByte, FromByte;
      FromToByte(v % 256);
      ReadAfterWrite(v / 256, n - 1);
      var s := WriteBe(v, n);
      assert s[..n - 1] == WriteBe(v / 256, n - 1);
    }
  }

  lemma {:induction false} WriteAfterRead(s: seq<byte>)
    ensures WriteBe(ReadBe(s), |s|) == s
    decreases |s|
  {
    if s != [] {
      hide ToByte, FromByte;
      ToFromByte(s[|s| - 1]);
      var front := s[..|s| - 1];
      WriteAfterRead(front);
      assert ReadBe(s) / 256 == ReadBe(front);
      assert s == front + [s[|s| - 1]];
    }
  }

  lemma Capacities()
    ensures Capacity(1) == 0x100 && Capacity(2) == 0x1_0000
    ensures Capacity(4) == TWO_32 && Capacity(8) == TWO_64
  {
    assert Capacity(4) == 256 * (256 * Capacity(2));
    assert Capacity(8) == 256 * (256 * (256 * (256 * Capacity(4))));
  }

  function WordBytes(c: bv32): (s: seq<byte>)
    ensures |s| == 4
  {
    [((c >> 24) & 0xFF) as bv8, ((c >> 16) & 0xFF) as bv8, ((c >> 8) & 0xFF) as bv8, (c & 0xFF) as bv8]
  }

  function ReadWord(s: seq<byte>): bv32
    requires |s| == 4
  {
    ((s[0] as bv32) << 24) | ((s[1] as bv32) << 16) | ((s[2] as bv32) << 8) | (s[3] as bv32)
  }

  lemma ReadWordBytes(c: bv32)
    ensures ReadWord(WordBytes(c)) == c
  {
  }

  lemma WordBytesOfRead(s: seq<byte>)
    requires |s| == 4
    ensures WordBytes(ReadWord(s)) == s
  {
  }

  lemma QuotientUnique(a: nat, c: nat, q: nat)
    requires c > 0 && q * c <= a < q * c + c
    ensures a / c == q
  {
    var p := a / c;
    if p < q {
      MulMonotone(p + 1, q, c);
    }
    if q < p {
      MulMonotone(q + 1, p, c);
    }
  }

  lemma DivDiv(v: nat, c: nat)
    requires c > 0
    ensures (v / 256) / c == v / (256 * c)
  {
    var m := 256 * c;
    var q := v / m;
    var t := q * c;
    assert q * m == 256 * t;
    assert q * m <= v < q * m + m;
    QuotientUnique(v / 256, c, q);
  }

  lemma {:induction false} CapacityPositive(n: nat)
    ensures Capacity(n) > 0
  {
    if n > 0 {
      CapacityPositive(n - 1);
    }
  }

  /** The value shifted right by 8 * k bits, and masked. */
  function ByteAt(v: nat, k: nat): byte {
    CapacityPositive(k);
    ToByte((v / Capacity(k)) % 256)
  }

  lemma ByteAtShift(v: nat, k: nat)
    ensures ByteAt(v / 256, k) == ByteAt(v, k + 1)
  {
    hide ToByte;
    CapacityPositive(k);
    DivDiv(v, Capacity(k));
  }

  lemma {:induction false} WriteBeAt(v: nat, n: nat, i: nat)
    requires i < n
    ensures WriteBe(v, n)[i] == ByteAt(v, n - 1 - i)
    decreases n
  {
    if i < n - 1 {
      hide ByteAt;
      WriteBeAt(v / 256, n - 1, i);
      ByteAtShift(v, n - 2 - i);
    }
  }
}
