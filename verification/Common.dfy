/** Shared vocabulary: bytes, machine-word bounds and the two stock wrappers. */
module Common {

  type byte = bv8

  const TWO_32: nat := 0x1_0000_0000
  const TWO_64: nat := 0x1_0000_0000_0000_0000

  datatype Option<+T> = None | Some(value: T)

  datatype Result<+T, +E> = Ok(value: T) | Err(error: E)

  // ------------------------------------------------------------------------
  // Bytes and numbers
  // ------------------------------------------------------------------------

  function ToByte(i: nat): byte
    requires i < 256
  {
    i as bv8
  }

  function FromByte(b: byte): (i: nat)
    ensures i < 256
  {
    b as nat
  }

  lemma ToFromByte(b: byte)
    ensures ToByte(FromByte(b)) == b
  {
  }

  lemma Successor(b: byte)
    requires b != 0xFF
    ensures FromByte(b + 1) == FromByte(b) + 1
  {
  }

  lemma Preimage(i: nat) returns (b: byte)
    requires i < 256
    ensures FromByte(b) == i
  {
    b := 0;
    if i > 0 {
      var c := Preimage(i - 1);
      assert FromByte(0xFF) == 255;
      Successor(c);
      b := c + 1;
    }
  }

  lemma FromToByte(i: nat)
    requires i < 256
    ensures FromByte(ToByte(i)) == i
  {
    var b := Preimage(i);
    ToFromByte(b);
  }

  lemma SubsetSize<T>(a: set<T>, b: set<T>)
    requires a <= b
    ensures |a| <= |b|
  {
    assert b == a + (b - a);
  }

  lemma MulMonotone(a: int, b: int, c: nat)
    requires a <= b
    ensures a * c <= b * c
  {
  }
}
