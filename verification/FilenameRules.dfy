/** Which names are accepted, where files are put and what temporary files are called, in
    characters. */
module FilenameRules {
  import opened Common
  import opened Packets
  import opened Files
  import opened Filenames

  function Code(c: char): byte
    requires c < 128 as char
  {
    ToByte(c as int)
  }

  predicate IsAscii(s: string) {
    forall i :: 0 <= i < |s| ==> s[i] < 128 as char
  }

  function Ascii(s: string): (b: seq<byte>)
    requires IsAscii(s)
    ensures |b| == |s|
  {
    seq(|s|, i requires 0 <= i < |s| => Code(s[i]))
  }

  // ------------------------------------------------------------------------
  // Names
  // ------------------------------------------------------------------------

  predicate Between(c: byte, from: char, to: char)
    requires from < 128 as char && to < 128 as char
  {
    Code(from) <= c <= Code(to)
  }

  /** Letters, digits, and the six marks. */
  lemma PermittedCharacters(c: byte)
    ensures IsPermitted(c) <==>
            || Between(c, 'a', 'z') || Between(c, 'A', 'Z') || Between(c, '0', '9')
            || c == Code('.') || c == Code('-') || c == Code('_') || c == Code('+') || c == Code('@') || c == Code('=')
  {
  }

  lemma ControlCharacters(c: byte)
    ensures IsControl(c) <==> c < Code(' ') || c == 127
  {
  }

  lemma Marks()
    ensures SLASH == Code('/') && DASH == Code('-')
    ensures [SLASH] == Ascii("/") && [DOT] == Ascii(".") && [DOT, DOT] == Ascii("..")
  {
  }

  /** The name is what follows the last slash. */
  predicate FollowsSlash(raw: seq<byte>, name: seq<byte>) {
    && SLASH !in name && |name| <= |raw| && raw[|raw| - |name|..] == name
    && (|name| < |raw| ==> raw[|raw| - |name| - 1] == SLASH)
  }

  lemma FollowsLater(raw: seq<byte>, name: seq<byte>)
    requires raw != [] && SLASH in raw && FollowsSlash(raw[1..], name)
    ensures FollowsSlash(raw, name)
  {
    var n := |raw| - |name|;
    assert raw[1..][n - 1..] == raw[n..];
    if n == 1 {
      assert raw == [raw[0]] + name;
    } else {
      assert raw[1..][n - 2] == raw[n - 1];
    }
  }

  lemma {:induction false} BaseFollows(raw: seq<byte>)
    ensures FollowsSlash(raw, BaseName(raw))
    decreases |raw|
  {
    if SLASH in raw {
      var rest := raw[1..];
      BaseFollows(rest);
      FollowsLater(raw, BaseName(rest));
    }
  }

  lemma LongerHasSlash(raw: seq<byte>, name: seq<byte>, longer: seq<byte>)
    requires FollowsSlash(raw, name) && |name| < |longer| <= |raw| && raw[|raw| - |longer|..] == longer
    ensures SLASH in longer
  {
    assert longer[|longer| - |name| - 1] == raw[|raw| - |name| - 1];
  }

  lemma OneFollows(raw: seq<byte>, a: seq<byte>, b: seq<byte>)
    requires FollowsSlash(raw, a) && FollowsSlash(raw, b)
    ensures a == b
  {
    if |a| < |b| {
      LongerHasSlash(raw, a, b);
    } else if |b| < |a| {
      LongerHasSlash(raw, b, a);
    }
  }

  /** What is wrong with a raw name, the first thing in the order of the checks. */
  predicate FirstWrong(raw: seq<byte>, name: seq<byte>, wrong: Option<Rejection>) {
    if raw == [] then wrong == Some(Empty)
    else if exists c <- raw :: IsControl(c) then wrong == Some(ControlCharacter)
    else if name == [] then wrong == Some(PathSeparator)
    else if name == Ascii(".") || name == Ascii("..") then wrong == Some(DotDot)
    else if |name| > 200 then wrong == Some(TooLong)
    else if name[0] == DASH then wrong == Some(LeadingDash)
    else if exists c <- name :: !IsPermitted(c) then wrong == Some(DisallowedCharacter)
    else wrong == None
  }

  /** A raw name is accepted as what follows its last slash, if nothing is wrong with it, and
      turned down otherwise for the first thing that is. */
  lemma SanitizeExactly(raw: seq<byte>, name: seq<byte>)
    requires FollowsSlash(raw, name)
    ensures match Sanitize(raw)
            case Ok(n) => n == name && FirstWrong(raw, name, None)
            case Err(e) => FirstWrong(raw, name, Some(e))
  {
    hide IsControl, IsPermitted, FollowsSlash;
    BaseFollows(raw);
    OneFollows(raw, name, BaseName(raw));
    Marks();
  }

  // ------------------------------------------------------------------------
  // Paths
  // ------------------------------------------------------------------------

  /** A bare name joined to a directory comes last in the path, with exactly one slash between
      them unless the directory is empty. */
  lemma JoinedIsLast(directory: Path, name: seq<byte>)
    requires SLASH !in name
    ensures FollowsSlash(JoinPath(directory, name), name)
    ensures JoinPath(directory, name) ==
            if directory == [] || directory[|directory| - 1] == Code('/') then directory + name
            else directory + Ascii("/") + name
  {
    Marks();
  }

  // ------------------------------------------------------------------------
  // Temporary names
  // ------------------------------------------------------------------------

  /** What a hexadecimal digit in lower case stands for. */
  function Digit(c: byte): int {
    if FromByte(c) <= '9' as int then FromByte(c) - '0' as int else FromByte(c) - 'a' as int + 10
  }

  predicate IsHex(c: byte) {
    '0' as int <= FromByte(c) <= '9' as int || 'a' as int <= FromByte(c) <= 'f' as int
  }

  /** The number that a string of digits stands for, the highest first. */
  function Number(h: seq<byte>): int {
    if h == [] then 0 else 16 * Number(h[..|h| - 1]) + Digit(h[|h| - 1])
  }

  lemma DigitOf(d: nat)
    requires d < 16
    ensures IsHex(HexDigit(d)) && Digit(HexDigit(d)) == d
  {
    hide ToByte, FromByte;
    FromToByte(if d < 10 then 48 + d else 87 + d);
  }

  lemma {:induction false} HexReads(v: nat, n: nat)
    requires v < Pow16(n)
    ensures Number(Hex(v, n)) == v && forall c <- Hex(v, n) :: IsHex(c)
    decreases n
  {
    hide HexDigit, IsHex, Digit;
    if n > 0 {
      HexReads(v / 16, n - 1);
      DigitOf(v % 16);
      var h := Hex(v, n);
      assert h[..n - 1] == Hex(v / 16, n - 1);
    }
  }

  lemma Letters()
    ensures Code('.') == 0x2E && Code('s') == 0x73 && Code('w') == 0x77 && Code('i') == 0x69
    ensures Code('f') == 0x66 && Code('t') == 0x74 && Code('l') == 0x6C && Code('n') == 0x6E
    ensures Code('k') == 0x6B && Code('-') == 0x2D && Code('p') == 0x70 && Code('a') == 0x61
    ensures Code('r') == 0x72
  {
  }

  lemma Affixes()
    ensures PREFIX == Ascii(".swiftlink-") && SUFFIX == Ascii(".partial")
  {
    hide Code;
    Letters();
    var p, s := ".swiftlink-", ".partial";
    assert p[0] == '.' && Ascii(p)[0] == PREFIX[0];
    assert p[1] == 's' && Ascii(p)[1] == PREFIX[1];
    assert p[2] == 'w' && Ascii(p)[2] == PREFIX[2];
    assert p[3] == 'i' && Ascii(p)[3] == PREFIX[3];
    assert p[4] == 'f' && Ascii(p)[4] == PREFIX[4];
    assert p[5] == 't' && Ascii(p)[5] == PREFIX[5];
    assert p[6] == 'l' && Ascii(p)[6] == PREFIX[6];
    assert p[7] == 'i' && Ascii(p)[7] == PREFIX[7];
    assert p[8] == 'n' && Ascii(p)[8] == PREFIX[8];
    assert p[9] == 'k' && Ascii(p)[9] == PREFIX[9];
    assert p[10] == '-' && Ascii(p)[10] == PREFIX[10];
    assert s[0] == '.' && Ascii(s)[0] == SUFFIX[0];
    assert s[1] == 'p' && Ascii(s)[1] == SUFFIX[1];
    assert s[2] == 'a' && Ascii(s)[2] == SUFFIX[2];
    assert s[3] == 'r' && Ascii(s)[3] == SUFFIX[3];
    assert s[4] == 't' && Ascii(s)[4] == SUFFIX[4];
    assert s[5] == 'i' && Ascii(s)[5] == SUFFIX[5];
    assert s[6] == 'a' && Ascii(s)[6] == SUFFIX[6];
    assert s[7] == 'l' && Ascii(s)[7] == SUFFIX[7];
  }

  /** A temporary name is ".swiftlink-", sixteen hexadecimal digits in lower case that stand for
      the session id, and ".partial". */
  lemma TempNameText(id: uint64)
    ensures exists h :: |h| == 16 && (forall c <- h :: IsHex(c)) && Number(h) == id &&
              TempName(id) == Ascii(".swiftlink-") + h + Ascii(".partial")
  {
    hide Hex, IsHex, Number, Ascii;
    Pow16Of16();
    Affixes();
    HexReads(id, 16);
    var h := Hex(id, 16);
    assert TempName(id) == Ascii(".swiftlink-") + h + Ascii(".partial");
  }
}
