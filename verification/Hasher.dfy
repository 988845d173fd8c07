/** The incremental hasher of src/crypto/sha256.cpp: 64-byte buffer, running state and bit
    count, proved to compute Sha256.Hash of everything it was fed, however it was split. */
module Hasher {
  import opened Common
  import opened BigEndian
  import opened Sha256

  lemma AddComm(a: bv32, b: bv32)
    ensures Add(a, b) == Add(b, a)
  {
  }

  lemma AddAssoc(a: bv32, b: bv32, c: bv32)
    ensures Add(Add(a, b), c) == Add(a, Add(b, c))
  {
    calc {
      Add(Add(a, b), c);
      Add(a + b, c);
      (a + b) + c;
      a + (b + c);
      Add(a, b + c);
      Add(a, Add(b, c));
    }
  }

  /** The code adds the four schedule terms in the opposite order. */
  lemma AddOrder(a: bv32, b: bv32, c: bv32, d: bv32)
    ensures Add(Add(Add(a, b), c), d) == Add(Add(Add(d, c), b), a)
  {
    hide Add;
    AddComm(a, b);
    AddComm(Add(b, a), c);
    AddAssoc(c, b, a);
    AddComm(Add(c, Add(b, a)), d);
    AddAssoc(d, c, Add(b, a));
    AddAssoc(Add(d, c), b, a);
  }

  class StreamingHasher {
    var state: array<bv32>
    var buffer: array<byte>
    var buffered: nat
    var totalBits: nat

    /** Every byte taken in so far, of which `taken` whole blocks are in the state and the
        rest is in the buffer. */
    ghost var message: seq<byte>
    ghost var taken: nat

    ghost predicate Shape()
      reads `state, `buffer, `buffered, `message, `taken, buffer
    {
      && state.Length == 8 && buffer.Length == 64 && buffered <= 64
      && |message| == 64 * taken + buffered
      && buffer[..buffered] == message[64 * taken..]
    }

    ghost predicate Hashed()
      reads `state, `message, `taken, state
    {
      64 * taken <= |message| && state[..] == Blocks(message, taken)
    }

    ghost predicate Absorbed()
      reads `state, `buffer, `buffered, `message, `taken, state, buffer
    {
      Shape() && Hashed()
    }

    ghost predicate Valid()
      reads this, state, buffer
    {
      Absorbed() && buffered < 64 && totalBits == LengthBits(|message|)
    }

    constructor ()
      ensures Valid() && message == [] && fresh(state) && fresh(buffer)
    {
      state := new bv32[8](i requires 0 <= i < 8 => INITIAL[i]);
      buffer := new byte[64];
      buffered := 0;
      totalBits := 0;
      message := [];
      taken := 0;
      new;
      assert state[..] == INITIAL;
    }

    method ComputeSchedule(block: Block) returns (w: array<bv32>)
      ensures fresh(w) && w.Length == 64
      ensures forall t :: 0 <= t < 64 ==> w[t] == Schedule(block, t)
    {
      hide Add, SmallSigma0, SmallSigma1, ReadWord;
      w := new bv32[64];
      for i := 0 to 16
        invariant forall t :: 0 <= t < i ==> w[t] == Schedule(block, t)
      {
        w[i] := ReadWord(block[4 * i..4 * i + 4]);
      }
      for i := 16 to 64
        invariant forall t :: 0 <= t < i ==> w[t] == Schedule(block, t)
      {
        var s0 := SmallSigma0(w[i - 15]);
        var s1 := SmallSigma1(w[i - 2]);
        AddOrder(s1, w[i - 7], s0, w[i - 16]);
        w[i] := Add(Add(Add(w[i - 16], s0), w[i - 7]), s1);
      }
    }

    method RunRounds(start: Words, block: Block) returns (r: Words)
      ensures r == Rounds(start, block, |block|)
    {
      hide Add, BigSigma0, BigSigma1, Ch, Maj, RoundConstant, Schedule;
      var w := ComputeSchedule(block);
      var a, b, c, d := start[0], start[1], start[2], start[3];
      var e, f, g, h := start[4], start[5], start[6], start[7];
      for i := 0 to 64
        invariant Rounds(start, block, i) == [a, b, c, d, e, f, g, h]
      {
        var temp1 := Add(Add(Add(Add(h, BigSigma1(e)), Ch(e, f, g)), RoundConstant(i)), w[i]);
        var temp2 := Add(BigSigma0(a), Maj(a, b, c));
        h := g;
        g := f;
        f := e;
        e := Add(d, temp1);
        d := c;
        c := b;
        b := a;
        a := Add(temp1, temp2);
      }
      r := [a, b, c, d, e, f, g, h];
    }

    method CompressBlock(block: Block)
      requires state.Length == 8
      modifies state
      ensures state[..] == Compress(old(state[..]), block)
    {
      hide Add, Rounds;
      var r := RunRounds(state[..], block);
      ghost var start: Words := state[..];
      for i := 0 to 8
        invariant forall k :: 0 <= k < i ==> state[k] == Add(start[k], r[k])
        invariant forall k :: i <= k < 8 ==> state[k] == start[k]
      {
        state[i] := Add(state[i], r[i]);
      }
      assert state[..] == AddWords(start, r);
    }

    /** memcpy into the free part of the buffer. */
    method Append(bytes: seq<byte>)
      requires Absorbed() && buffered + |bytes| <= 64
      modifies `buffered, `message, buffer
      ensures Absorbed() && buffered == old(buffered) + |bytes|
      ensures message == old(message) + bytes
    {
      hide Blocks;
      forall i | 0 <= i < |bytes| {
        buffer[buffered + i] := bytes[i];
      }
      assert buffer[..buffered] == old(buffer[..buffered]);
      assert buffer[buffered..buffered + |bytes|] == bytes;
      buffered := buffered + |bytes|;
      BlocksExtend(message, bytes, taken);
      assert (message + bytes)[64 * taken..] == message[64 * taken..] + bytes;
      message := message + bytes;
    }

    /** The buffer is full: compress it and start over. */
    method Flush()
      requires Absorbed() && buffered == 64
      modifies `buffered, `taken, state
      ensures Absorbed() && buffered == 0
    {
      hide Compress, Blocks;
      assert message[64 * taken..64 * taken + 64] == buffer[..];
      CompressBlock(buffer[..]);
      NextBlock(message, taken, buffer[..]);
      buffered := 0;
      taken := taken + 1;
    }

    /** A whole block straight from the input. */
    method TakeBlock(block: Block)
      requires Absorbed() && buffered == 0
      modifies `message, `taken, state
      ensures Absorbed() && message == old(message) + block
    {
      hide Compress, Blocks;
      CompressBlock(block);
      BlocksExtend(message, block, taken);
      message := message + block;
      assert message[64 * taken..64 * taken + 64] == block;
      NextBlock(message, taken, block);
      taken := taken + 1;
    }

    method Update(data: seq<byte>)
      requires Valid()
      modifies `buffered, `totalBits, `message, `taken, state, buffer
      ensures Valid() && message == old(message) + data
    {
      hide Hashed, LengthBits;
      ghost var before := message;
      AddLength(|before|, |data|);
      totalBits := (totalBits + 8 * |data|) % TWO_64;
      var offset := 0;
      if buffered > 0 {
        var want := 64 - buffered;
        var take := if |data| < want then |data| else want;
        Append(data[..take]);
        offset := take;
        if buffered < 64 {
          assert data[..take] == data;
          assert message == before + data;
          return;
        }
        Flush();
      }
      while offset + 64 <= |data|
        invariant offset <= |data| && buffered == 0
        invariant Absorbed() && message == before + data[..offset]
        invariant totalBits == LengthBits(|before + data|)
      {
        TakeBlock(data[offset..offset + 64]);
        offset := offset + 64;
      }
      Append(data[offset..]);
      assert message == before + data;
    }

    method AppendLength(lengthBits: nat)
      requires Absorbed() && buffered == 56
      modifies `buffered, `message, buffer
      ensures Absorbed() && buffered == 64
      ensures message == old(message) + WriteBe(lengthBits, 8)
    {
      hide Hashed, Shape, WriteBe, ByteAt;
      ghost var start := message;
      ghost var field := WriteBe(lengthBits, 8);
      assert start + field[..0] == start;
      var i := 7;
      while i >= 0
        invariant -1 <= i <= 7 && buffered == 63 - i
        invariant Absorbed() && message == start + field[..7 - i]
      {
        WriteBeAt(lengthBits, 8, 7 - i);
        Append([ByteAt(lengthBits, i)]);
        NextByte(start, field, 7 - i);
        i := i - 1;
      }
      assert field[..8] == field;
    }

    method Digest() returns (digest: seq<byte>)
      requires state.Length == 8
      ensures digest == DigestPrefix(state[..], 8)
    {
      hide WordBytes;
      digest := [];
      for i := 0 to 8
        invariant digest == DigestPrefix(state[..], i)
      {
        digest := digest + WordBytes(state[i]);
      }
    }

    method AppendZeros(limit: nat)
      requires Absorbed() && buffered <= limit <= 64
      modifies `buffered, `message, buffer
      ensures Absorbed() && buffered == limit
      ensures message == old(message) + Zeros(limit - old(buffered))
    {
      hide Hashed;
      while buffered < limit
        invariant old(buffered) <= buffered <= limit
        invariant Absorbed() && message == old(message) + Zeros(buffered - old(buffered))
      {
        Append([0]);
        NextZero(old(message), buffered - 1 - old(buffered));
      }
    }

    /** The padding that finish writes in front of the length. */
    method AppendPadding()
      requires Absorbed() && buffered < 64
      modifies `buffered, `message, `taken, buffer, state
      ensures Absorbed() && buffered == 56
      ensures message == old(message) + [0x80] + Zeros(ZeroCount(|old(message)|))
    {
      hide Hashed, Zeros, ZeroCount;
      ghost var used := buffered;
      Append([0x80]);
      if buffered > 56 {
        AppendZeros(64);
        Flush();
      }
      AppendZeros(56);
      PaddingParts(old(message), used);
    }

    method Finish() returns (digest: seq<byte>)
      requires Valid()
      modifies `buffered, `message, `taken, state, buffer
      ensures digest == Hash(old(message))
    {
      hide Blocks, WriteBe, LengthBits, ZeroCount;
      var lengthBits := totalBits;
      AppendPadding();
      AppendLength(lengthBits);
      assert message == Pad(old(message));
      Flush();
      digest := Digest();
    }
  }

  lemma NextBlock(m: seq<byte>, n: nat, block: Block)
    requires 64 * n + 64 <= |m| && block == m[64 * n..64 * n + 64]
    ensures Blocks(m, n + 1) == Compress(Blocks(m, n), block)
  {
    hide Compress;
  }

  lemma NextByte(m: seq<byte>, field: seq<byte>, k: nat)
    requires k < |field|
    ensures m + field[..k] + [field[k]] == m + field[..k + 1]
  {
  }

  lemma NextZero(m: seq<byte>, n: nat)
    ensures m + Zeros(n) + [0] == m + Zeros(n + 1)
  {
  }

  lemma PaddingParts(m: seq<byte>, used: nat)
    requires used == |m| % 64
    ensures used + 1 > 56 ==> m + [0x80] + Zeros(63 - used) + Zeros(56) == m + [0x80] + Zeros(ZeroCount(|m|))
    ensures used + 1 <= 56 ==> m + [0x80] + Zeros(55 - used) == m + [0x80] + Zeros(ZeroCount(|m|))
  {
    assert used + 1 > 56 ==> Zeros(63 - used) + Zeros(56) == Zeros(119 - used);
  }

  lemma AddLength(before: nat, added: nat)
    ensures (LengthBits(before) + 8 * added) % TWO_64 == LengthBits(before + added)
  {
  }
}
