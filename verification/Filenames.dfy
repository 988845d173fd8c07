/** Names and paths: src/transfer/filename.cpp, and the temporary name that
    src/transfer/receiver_session.cpp derives from a session id. */
module Filenames {
  import opened Common
  import opened Packets
  import opened Files

  const SLASH: byte := 0x2F
  const DOT: byte := 0x2E
  const DASH: byte := 0x2D
  const MAX_NAME: nat := 200

  datatype Rejection = Empty | TooLong | PathSeparator | DotDot | ControlCharacter | DisallowedCharacter | LeadingDash

  predicate IsControl(c: byte) {
    c < 0x20 || c == 0x7F
  }

  /** Letters, digits, and the six marks . - _ + @ = */
  predicate IsPermitted(c: byte) {
    || (0x61 <= c <= 0x7A)
    || (0x41 <= c <= 0x5A)
    || (0x30 <= c <= 0x39)
    || c == DOT || c == DASH || c == 0x5F || c == 0x2B || c == 0x40 || c == 0x3D
  }

  /** What follows the last separator. */
  function BaseName(raw: seq<byte>): (b: seq<byte>)
    ensures SLASH !in b && |b| <= |raw| && b == raw[|raw| - |b|..]
    decreases |raw|
  {
    if SLASH !in raw then raw else BaseName(raw[1..])
  }

  function Sanitize(raw: seq<byte>): Result<seq<byte>, Rejection> {
    if raw == [] then Err(Empty)
    else if exists c <- raw :: IsControl(c) then Err(ControlCharacter)
    else
      var base := BaseName(raw);
      if base == [] then Err(PathSeparator)
      else if base == [DOT] || base == [DOT, DOT] then Err(DotDot)
      else if |base| > MAX_NAME then Err(TooLong)
      else if base[0] == DASH then Err(LeadingDash)
      else if exists c <- base :: !IsPermitted(c) then Err(DisallowedCharacter)
      else Ok(base)
  }

  function JoinPath(directory: Path, name: seq<byte>): Path {
    directory + (if directory != [] && directory[|directory| - 1] != SLASH then [SLASH] else []) + name
  }

  // ------------------------------------------------------------------------
  // Temporary names
  // ------------------------------------------------------------------------

  function HexDigit(d: nat): byte
    requires d < 16
  {
    if d < 10 then ToByte(48 + d) else ToByte(87 + d)
  }

  /** The lowest n hexadecimal digits of v, padded with zeros. */
  function Hex(v: nat, n: nat): (h: seq<byte>)
    ensures |h| == n
    decreases n
  {
    if n == 0 then [] else Hex(v / 16, n - 1) + [HexDigit(v % 16)]
  }

  /** ".swiftlink-" and ".partial". */
  const PREFIX: seq<byte> := [0x2E, 0x73, 0x77, 0x69, 0x66, 0x74, 0x6C, 0x69, 0x6E, 0x6B, 0x2D]
  const SUFFIX: seq<byte> := [0x2E, 0x70, 0x61, 0x72, 0x74, 0x69, 0x61, 0x6C]

  function TempName(id: uint64): seq<byte> {
    PREFIX + Hex(id, 16) + SUFFIX
  }

  function TempPath(directory: Path, id: uint64): Path {
    JoinPath(directory, TempName(id))
  }

  /** A name that is also some session's temporary name. */
  ghost predicate Reserved(name: seq<byte>) {
    exists id: uint64 :: name == TempName(id)
  }

  // ------------------------------------------------------------------------
  // Facts about paths
  // ------------------------------------------------------------------------

  function Pow16(n: nat): nat {
    if n == 0 then 1 else 16 * Pow16(n - 1)
  }

  lemma HexDigitInjective(a: nat, b: nat)
    requires a < 16 && b < 16 && HexDigit(a) == HexDigit(b)
    ensures a == b
  {
    hide ToByte, FromByte;
    FromToByte(if a < 10 then 48 + a else 87 + a);
    FromToByte(if b < 10 then 48 + b else 87 + b);
  }

  lemma {:induction false} HexInjective(a: nat, b: nat, n: nat)
    requires a < Pow16(n) && b < Pow16(n) && Hex(a, n) == Hex(b, n)
    ensures a == b
    decreases n
  {
    if n > 0 {
      hide HexDigit;
      var x, y := Hex(a, n), Hex(b, n);
      assert x[..n - 1] == Hex(a / 16, n - 1) && y[..n - 1] == Hex(b / 16, n - 1);
      assert x[n - 1] == HexDigit(a % 16) && y[n - 1] == HexDigit(b % 16);
      HexInjective(a / 16, b / 16, n - 1);
      HexDigitInjective(a % 16, b % 16);
    }
  }

  lemma Pow16Of16()
    ensures Pow16(16) == TWO_64
  {
    assert Pow16(4) == 0x1_0000;
    assert Pow16(8) == 16 * (16 * (16 * (16 * Pow16(4))));
    assert Pow16(12) == 16 * (16 * (16 * (16 * Pow16(8))));
    assert Pow16(16) == 16 * (16 * (16 * (16 * Pow16(12))));
  }

  lemma JoinInjective(directory: Path, a: seq<byte>, b: seq<byte>)
    requires JoinPath(directory, a) == JoinPath(directory, b)
    ensures a == b
  {
    var p := JoinPath(directory, []);
    assert JoinPath(directory, a) == p + a && JoinPath(directory, b) == p + b;
    assert a == (p + a)[|p|..] && b == (p + b)[|p|..];
  }

  /** The temporary path is determined by the session id and determines it. */
  lemma TempPathsDiffer(directory: Path, a: uint64, b: uint64)
    ensures TempPath(directory, a) == TempPath(directory, b) <==> a == b
  {
    if TempPath(directory, a) == TempPath(directory, b) {
      hide Hex;
      JoinInjective(directory, TempName(a), TempName(b));
      var x, y := TempName(a), TempName(b);
      assert x[11..27] == Hex(a, 16) && y[11..27] == Hex(b, 16);
      Pow16Of16();
      HexInjective(a, b, 16);
    }
  }

  /** A published file lands on a session's temporary path exactly when its name is that
      session's temporary name. */
  lemma OutputHitsTemp(directory: Path, name: seq<byte>, id: uint64)
    ensures JoinPath(directory, name) == TempPath(directory, id) <==> name == TempName(id)
  {
    hide TempName;
    if JoinPath(directory, name) == TempPath(directory, id) {
      JoinInjective(directory, name, TempName(id));
    }
  }

  /** An accepted name has no separator, so it stays in the output directory. */
  lemma SanitizedIsBare(raw: seq<byte>)
    requires Sanitize(raw).Ok?
    ensures var name := Sanitize(raw).value;
            && name != [] && SLASH !in name && name != [DOT] && name != [DOT, DOT]
            && Sanitize(name) == Ok(name)
  {
  }

  predicate IsPlain(c: byte) {
    IsPermitted(c) && c != SLASH && !IsControl(c)
  }

  lemma HexDigitPlain(d: nat)
    requires d < 16
    ensures IsPlain(HexDigit(d))
  {
  }

  lemma {:induction false} HexPlain(v: nat, n: nat)
    ensures forall c <- Hex(v, n) :: IsPlain(c)
    decreases n
  {
    if n > 0 {
      hide IsPlain, HexDigit;
      HexPlain(v / 16, n - 1);
      HexDigitPlain(v % 16);
    }
  }

  lemma PlainIsAccepted(name: seq<byte>)
    requires 3 <= |name| <= MAX_NAME && name[0] == DOT
    requires forall c <- name :: IsPlain(c)
    ensures Sanitize(name) == Ok(name)
  {
    hide IsPermitted, IsControl;
    assert BaseName(name) == name;
  }

  lemma AffixesPlain()
    ensures (forall c <- PREFIX :: IsPlain(c)) && (forall c <- SUFFIX :: IsPlain(c))
  {
  }

  /** The reserved shape is not refused: a peer may advertise another session's temporary name. */
  lemma ReservedIsAccepted(id: uint64)
    ensures Sanitize(TempName(id)) == Ok(TempName(id))
  {
    var hex := Hex(id, 16);
    HexPlain(id, 16);
    AffixesPlain();
    hide IsPlain, Hex, Sanitize;
    assert forall c <- TempName(id) :: c in PREFIX || c in hex || c in SUFFIX;
    PlainIsAccepted(TempName(id));
  }
}
