/** The text of a UUID: base/uuid/parse.c and unparse.c. */
module UuidText {
  import opened Basics
  import opened Uuid

  // ---------------------------------------------------------------------------------------
  // Hexadecimal digits
  // ---------------------------------------------------------------------------------------

  /** `isxdigit`, in the C locale. */
  predicate IsHex(c: char) {
    '0' <= c <= '9' || 'a' <= c <= 'f' || 'A' <= c <= 'F'
  }

  function Digit(c: char): (d: nat)
    requires IsHex(c)
    ensures d < 16
  {
    if '0' <= c <= '9' then c as nat - '0' as nat
    else if 'a' <= c <= 'f' then c as nat - 'a' as nat + 10
    else c as nat - 'A' as nat + 10
  }

  /** The digit that `%x` or `%X` prints. */
  function DigitChar(d: nat, upper: bool): (c: char)
    requires d < 16
    ensures IsHex(c) && Digit(c) == d
  {
    if d < 10 then ('0' as nat + d) as char
    else if upper then ('A' as nat + d - 10) as char
    else ('a' as nat + d - 10) as char
  }

  const LOWER_DIGITS := "0123456789abcdef"

  const UPPER_DIGITS := "0123456789ABCDEF"

  lemma DigitCharAt(d: nat, upper: bool)
    requires d < 16
    ensures DigitChar(d, upper) == (if upper then UPPER_DIGITS else LOWER_DIGITS)[d]
  {
  }

  /** A character is a hexadecimal digit of some value if it stands there in one of the two rows. */
  lemma DigitExactly(c: char, d: nat)
    requires d < 16
    ensures IsHex(c) && Digit(c) == d <==> c == LOWER_DIGITS[d] || c == UPPER_DIGITS[d]
  {
  }

  function Lower(c: char): char {
    if 'A' <= c <= 'Z' then (c as nat - 'A' as nat + 'a' as nat) as char else c
  }

  function ToLower(s: string): (r: string)
    ensures |r| == |s|
  {
    seq(|s|, i requires 0 <= i < |s| => Lower(s[i]))
  }

  lemma LowerDigit(c: char)
    requires IsHex(c)
    ensures DigitChar(Digit(c), false) == Lower(c)
  {
  }

  /** `%0<width>x` of a value that fits the width. */
  function Hex(n: nat, width: nat, upper: bool): (s: string)
    ensures |s| == width
    ensures forall i :: 0 <= i < width ==> IsHex(s[i])
  {
    if width == 0 then [] else Hex(n / 16, width - 1, upper) + [DigitChar(n % 16, upper)]
  }

  /** The value of some digits. */
  function HexValue(s: string): (n: nat)
    requires forall i :: 0 <= i < |s| ==> IsHex(s[i])
  {
    if s == [] then 0 else 16 * HexValue(s[..|s| - 1]) + Digit(s[|s| - 1])
  }

  /** The first digit weighs most. */
  lemma {:induction false} HexValueFirst(s: string)
    requires s != [] && forall i :: 0 <= i < |s| ==> IsHex(s[i])
    ensures HexValue(s) == Digit(s[0]) * Power16(|s| - 1) + HexValue(s[1..])
  {
    if |s| > 1 {
      hide Digit;
      var t := s[..|s| - 1];
      HexValueFirst(t);
      assert s[1..][..|s| - 2] == t[1..];
      Shifted(Digit(s[0]), Power16(|s| - 2), HexValue(t[1..]));
    }
  }

  lemma Shifted(d: nat, p: nat, v: nat)
    ensures 16 * (d * p + v) == d * (16 * p) + 16 * v
  {
  }

  function Power16(n: nat): (p: nat)
    ensures p > 0
  {
    if n == 0 then 1 else 16 * Power16(n - 1)
  }

  lemma {:induction false} HexValueBound(s: string)
    requires forall i :: 0 <= i < |s| ==> IsHex(s[i])
    ensures HexValue(s) < Power16(|s|)
  {
    if s != [] {
      HexValueBound(s[..|s| - 1]);
    }
  }

  lemma {:induction false} ValueOfHex(n: nat, width: nat, upper: bool)
    requires n < Power16(width)
    ensures HexValue(Hex(n, width, upper)) == n
  {
    if width > 0 {
      var s := Hex(n, width, upper);
      assert s[..|s| - 1] == Hex(n / 16, width - 1, upper);
      ValueOfHex(n / 16, width - 1, upper);
    }
  }

  lemma {:induction false} HexOfValue(s: string)
    requires forall i :: 0 <= i < |s| ==> IsHex(s[i])
    ensures Hex(HexValue(s), |s|, false) == ToLower(s)
  {
    if s != [] {
      var t, d := s[..|s| - 1], Digit(s[|s| - 1]);
      HexOfValue(t);
      LowerDigit(s[|s| - 1]);
      assert (16 * HexValue(t) + d) / 16 == HexValue(t) && (16 * HexValue(t) + d) % 16 == d;
      assert ToLower(s) == ToLower(t) + [Lower(s[|s| - 1])];
    }
  }

  /** `strtoul` in base 16 from position `i`, where a digit stands: all the digits there are.  (A sign,
      blanks or `0x` cannot occur at the places it is used at.) */
  function Strtoul(s: string, i: nat): nat
    requires i <= |s|
  {
    HexValue(Digits(s, i))
  }

  function Digits(s: string, i: nat): (r: string)
    requires i <= |s|
    ensures forall k :: 0 <= k < |r| ==> IsHex(r[k])
    decreases |s| - i
  {
    if i < |s| && IsHex(s[i]) then [s[i]] + Digits(s, i + 1) else []
  }

  lemma {:induction false} DigitsAre(s: string, i: nat, j: nat)
    requires i <= j <= |s| && (forall k :: i <= k < j ==> IsHex(s[k])) && (j == |s| || !IsHex(s[j]))
    ensures Digits(s, i) == s[i..j]
    decreases j - i
  {
    if i < j {
      DigitsAre(s, i + 1, j);
    }
  }

  // ---------------------------------------------------------------------------------------
  // Parsing
  // ---------------------------------------------------------------------------------------

  predicate IsHyphenAt(i: nat) {
    i == 8 || i == 13 || i == 18 || i == 23
  }

  /** Section 3 of RFC 4122: 8, 4, 4, 4 and 12 digits with hyphens between. */
  predicate WellFormed(s: string) {
    |s| == 36 && forall i: nat :: i < 36 ==> if IsHyphenAt(i) then s[i] == '-' else IsHex(s[i])
  }

  function Field(s: string, i: nat, j: nat): (n: nat)
    requires WellFormed(s) && i <= j <= 36 && forall k: nat :: i <= k < j ==> !IsHyphenAt(k)
    ensures n < Power16(j - i)
  {
    assert forall k :: 0 <= k < j - i ==> IsHex(s[i..j][k]) by {
      forall k: nat | k < j - i ensures IsHex(s[i..j][k]) {
        assert s[i..j][k] == s[i + k] && !IsHyphenAt(i + k);
      }
    }
    HexValueBound(s[i..j]);
    HexValue(s[i..j])
  }

  lemma Powers()
    ensures Power16(2) == 256 && Power16(4) == 0x1_0000 && Power16(8) == 0x1_0000_0000
  {
    assert Power16(3) == 16 * Power16(2) && Power16(5) == 16 * Power16(4) && Power16(7) == 16 * Power16(6);
  }

  function NodeByte(s: string, k: nat): Byte
    requires WellFormed(s) && k < 6
  {
    Powers();
    Field(s, 24 + 2 * k, 26 + 2 * k)
  }

  /** The fields that a well-formed string stands for. */
  function ParsedFields(s: string): Fields
    requires WellFormed(s)
  {
    Powers();
    Fields(Field(s, 0, 8), Field(s, 9, 13), Field(s, 14, 18), Field(s, 19, 23),
      seq(6, k requires 0 <= k < 6 => NodeByte(s, k)))
  }

  function Parsed(s: string): Option<Bytes16> {
    if WellFormed(s) then Some(Packed(ParsedFields(s))) else None
  }

  /** The checks of `uuid_parse`. */
  method Check(input: string) returns (ok: bool)
    ensures ok == WellFormed(input)
  {
    if |input| != 36 {
      return false;
    }
    var i: nat := 0;
    while i <= 36
      invariant i <= 37
      invariant forall k: nat :: k < i && k < 36 ==> if IsHyphenAt(k) then input[k] == '-' else IsHex(input[k])
    {
      if i == 8 || i == 13 || i == 18 || i == 23 {
        if input[i] != '-' {
          assert IsHyphenAt(i);
          return false;
        }
      } else if i < 36 {
        if !IsHex(input[i]) {
          assert !IsHyphenAt(i);
          return false;
        }
      }
      i := i + 1;
    }
    return true;
  }

  lemma StrtoulField(s: string, i: nat, j: nat)
    requires WellFormed(s) && i <= j < 36 && (forall k: nat :: i <= k < j ==> !IsHyphenAt(k)) && IsHyphenAt(j)
    ensures Strtoul(s, i) == Field(s, i, j)
  {
    DigitsAre(s, i, j);
  }

  lemma StrtoulPair(s: string, i: nat)
    requires WellFormed(s) && 24 <= i <= 34
    ensures Strtoul([s[i], s[i + 1]], 0) == Field(s, i, i + 2)
  {
    assert IsHex(s[i]) && IsHex(s[i + 1]);
    DigitsAre([s[i], s[i + 1]], 0, 2);
    assert s[i..i + 2] == [s[i], s[i + 1]] == [s[i], s[i + 1]][0..2];
  }

  /** `uuid_parse`: 0 and the bytes for exactly the well-formed strings, otherwise -1. */
  method Parse(input: string, uu: array<Byte>) returns (r: int)
    requires uu.Length == 16
    modifies uu
    ensures WellFormed(input) ==> r == 0 && Parsed(input).Some? && uu[..] == Parsed(input).value
    ensures !WellFormed(input) ==> r == -1 && Parsed(input).None? && uu[..] == old(uu[..])
  {
    hide Strtoul, Field, WellFormed, Packed;
    var ok := Check(input);
    if !ok {
      return -1;
    }
    Powers();
    LengthOf(input);
    StrtoulField(input, 0, 8);
    StrtoulField(input, 9, 13);
    StrtoulField(input, 14, 18);
    StrtoulField(input, 19, 23);
    var node: seq<Byte> := [];
    for i := 0 to 6
      invariant |node| == i && forall k: nat :: k < i ==> node[k] == NodeByte(input, k)
    {
      var buf := [input[24 + 2 * i], input[25 + 2 * i]];
      StrtoulPair(input, 24 + 2 * i);
      node := node + [Strtoul(buf, 0)];
    }
    var uuid := Fields(Strtoul(input, 0), Strtoul(input, 9), Strtoul(input, 14), Strtoul(input, 19), node);
    assert uuid == ParsedFields(input);
    Pack(uuid, uu);
    return 0;
  }

  lemma LengthOf(s: string)
    requires WellFormed(s)
    ensures |s| == 36
  {
  }

  // ---------------------------------------------------------------------------------------
  // Unparsing
  // ---------------------------------------------------------------------------------------

  /** The first `n` bytes of the node, two digits each. */
  function NodeHex(node: Bytes6, n: nat, upper: bool): (s: string)
    requires n <= 6
    ensures |s| == 2 * n
  {
    if n == 0 then [] else NodeHex(node, n - 1, upper) + Hex(node[n - 1], 2, upper)
  }

  /** Five parts with hyphens between. */
  function Parts(a: string, b: string, c: string, d: string, e: string): string {
    a + "-" + b + "-" + c + "-" + d + "-" + e
  }

  /** `uuid_unparse_x` with one of its formats. */
  function Unparse(uu: Bytes16, upper: bool): string {
    var u := Unpacked(uu);
    Parts(Hex(u.timeLow, 8, upper), Hex(u.timeMid, 4, upper), Hex(u.timeHi, 4, upper),
      Hex(u.clockSeq / 256, 2, upper) + Hex(u.clockSeq % 256, 2, upper), NodeHex(u.node, 6, upper))
  }

  lemma HexOfTwo(n: nat, upper: bool)
    ensures Hex(n / 256, 2, upper) + Hex(n % 256, 2, upper) == Hex(n, 4, upper)
  {
    assert n / 16 / 16 == n / 256 && n % 256 / 16 == n / 16 % 16 && n % 256 % 16 == n % 16;
    Hex2(n / 256, upper);
    Hex2(n % 256, upper);
    assert Hex(n, 4, upper) == Hex(n / 16, 3, upper) + [DigitChar(n % 16, upper)];
    assert Hex(n / 16, 3, upper) == Hex(n / 256, 2, upper) + [DigitChar(n / 16 % 16, upper)];
  }

  lemma Hex2(n: nat, upper: bool)
    ensures Hex(n, 2, upper) == [DigitChar(n / 16 % 16, upper), DigitChar(n % 16, upper)]
  {
    assert Hex(n / 16, 1, upper) == Hex(n / 16 / 16, 0, upper) + [DigitChar(n / 16 % 16, upper)];
  }

  lemma PartsAt(a: string, b: string, c: string, d: string, e: string)
    requires |a| == 8 && |b| == |c| == |d| == 4 && |e| == 12
    ensures var s := Parts(a, b, c, d, e);
      && |s| == 36 && s[8] == s[13] == s[18] == s[23] == '-'
      && s[0..8] == a && s[9..13] == b && s[14..18] == c && s[19..23] == d && s[24..36] == e
  {
  }

  /** The parts of a string of 36 characters with hyphens in their places make it up. */
  lemma PartsOf(s: string)
    requires |s| == 36 && s[8] == s[13] == s[18] == s[23] == '-'
    ensures s == Parts(s[0..8], s[9..13], s[14..18], s[19..23], s[24..36])
  {
    PartsAt(s[0..8], s[9..13], s[14..18], s[19..23], s[24..36]);
    var t := Parts(s[0..8], s[9..13], s[14..18], s[19..23], s[24..36]);
    hide Parts;
    assert s == s[0..8] + [s[8]] + s[9..13] + [s[13]] + s[14..18] + [s[18]] + s[19..23] + [s[23]] + s[24..36];
    assert t == t[0..8] + [t[8]] + t[9..13] + [t[13]] + t[14..18] + [t[18]] + t[19..23] + [t[23]] + t[24..36];
  }

  lemma {:induction false} NodeHexAt(node: Bytes6, n: nat, upper: bool, k: nat)
    requires k < n <= 6
    ensures NodeHex(node, n, upper)[2 * k..2 * k + 2] == Hex(node[k], 2, upper)
  {
    if k < n - 1 {
      NodeHexAt(node, n - 1, upper, k);
    }
  }

  lemma {:induction false} NodeHexDigits(node: Bytes6, n: nat, upper: bool)
    requires n <= 6
    ensures forall i :: 0 <= i < 2 * n ==> IsHex(NodeHex(node, n, upper)[i])
  {
    if n > 0 {
      NodeHexDigits(node, n - 1, upper);
    }
  }

  /** The parts of the text of a UUID. */
  lemma UnparseParts(uu: Bytes16, upper: bool)
    ensures var s := Unparse(uu, upper); var u := Unpacked(uu);
      && WellFormed(s) && |s| == 36
      && s[0..8] == Hex(u.timeLow, 8, upper) && s[9..13] == Hex(u.timeMid, 4, upper)
      && s[14..18] == Hex(u.timeHi, 4, upper) && s[19..23] == Hex(u.clockSeq, 4, upper)
      && s[24..36] == NodeHex(u.node, 6, upper)
  {
    hide Hex, NodeHex, Parts, Unpacked, IsHex;
    var s := Unparse(uu, upper);
    var u := Unpacked(uu);
    HexOfTwo(u.clockSeq, upper);
    NodeHexDigits(u.node, 6, upper);
    PartsAt(Hex(u.timeLow, 8, upper), Hex(u.timeMid, 4, upper), Hex(u.timeHi, 4, upper),
      Hex(u.clockSeq, 4, upper), NodeHex(u.node, 6, upper));
    forall i: nat | i < 36 ensures if IsHyphenAt(i) then s[i] == '-' else IsHex(s[i]) {
      assert i < 8 ==> s[i] == s[0..8][i];
      assert 9 <= i < 13 ==> s[i] == s[9..13][i - 9];
      assert 14 <= i < 18 ==> s[i] == s[14..18][i - 14];
      assert 19 <= i < 23 ==> s[i] == s[19..23][i - 19];
      assert 24 <= i ==> s[i] == s[24..36][i - 24];
    }
  }

  lemma SliceOfSlice(s: string, i: nat, j: nat, a: nat, b: nat)
    requires i <= j <= |s| && a <= b <= j - i
    ensures s[i..j][a..b] == s[i + a..i + b]
  {
    forall k | 0 <= k < b - a ensures s[i..j][a..b][k] == s[i + a..i + b][k] {
      assert s[i..j][a..b][k] == s[i..j][a + k] == s[i + (a + k)];
    }
  }

  lemma UnparseNode(uu: Bytes16, upper: bool, k: nat)
    requires k < 6
    ensures Unparse(uu, upper)[24 + 2 * k..26 + 2 * k] == Hex(Unpacked(uu).node[k], 2, upper)
  {
    hide Hex, NodeHex, Parts, Unpacked, Unparse, WellFormed;
    UnparseParts(uu, upper);
    NodeHexAt(Unpacked(uu).node, 6, upper, k);
    var s := Unparse(uu, upper);
    SliceOfSlice(s, 24, 36, 2 * k, 2 * k + 2);
  }

  /** Parsing undoes printing, in either case. */
  lemma ParsedUnparsed(uu: Bytes16, upper: bool)
    ensures Parsed(Unparse(uu, upper)) == Some(uu)
  {
    hide Hex, HexValue, Unpacked, Unparse, WellFormed, Packed;
    var s, u := Unparse(uu, upper), Unpacked(uu);
    UnparseParts(uu, upper);
    Powers();
    ValueOfHex(u.timeLow, 8, upper);
    ValueOfHex(u.timeMid, 4, upper);
    ValueOfHex(u.timeHi, 4, upper);
    ValueOfHex(u.clockSeq, 4, upper);
    forall k: nat | k < 6 ensures NodeByte(s, k) == u.node[k] {
      UnparseNode(uu, upper, k);
      ValueOfHex(u.node[k], 2, upper);
    }
    assert ParsedFields(s).node == u.node;
    PackedUnpacked(uu);
  }

  lemma FieldLower(s: string, i: nat, j: nat)
    requires WellFormed(s) && i <= j <= 36 && forall k: nat :: i <= k < j ==> !IsHyphenAt(k)
    ensures Hex(Field(s, i, j), j - i, false) == ToLower(s[i..j])
  {
    hide Hex, HexValue;
    forall k: nat | k < j - i ensures IsHex(s[i..j][k]) {
      assert s[i..j][k] == s[i + k] && !IsHyphenAt(i + k);
    }
    HexOfValue(s[i..j]);
  }

  lemma {:induction false} NodeLower(s: string, n: nat)
    requires WellFormed(s) && n <= 6
    ensures NodeHex(ParsedFields(s).node, n, false) == ToLower(s[24..24 + 2 * n])
  {
    hide Hex, Field, WellFormed;
    LengthOf(s);
    if n > 0 {
      NodeLower(s, n - 1);
      FieldLower(s, 22 + 2 * n, 24 + 2 * n);
      assert ParsedFields(s).node[n - 1] == Field(s, 22 + 2 * n, 24 + 2 * n);
      LowerAppend(s[24..22 + 2 * n], s[22 + 2 * n..24 + 2 * n]);
      assert s[24..22 + 2 * n] + s[22 + 2 * n..24 + 2 * n] == s[24..24 + 2 * n];
    }
  }

  lemma LowerAppend(s: string, t: string)
    ensures ToLower(s + t) == ToLower(s) + ToLower(t)
  {
  }

  lemma LowerSlice(s: string, i: nat, j: nat)
    requires i <= j <= |s|
    ensures ToLower(s)[i..j] == ToLower(s[i..j])
  {
  }

  /** Printing what was parsed gives the string back in lower case. */
  lemma UnparsedParsed(s: string)
    requires WellFormed(s)
    ensures Parsed(s).Some? && Unparse(Parsed(s).value, false) == ToLower(s)
  {
    hide Hex, Field, Packed, Unpacked, NodeHex, Parts;
    var f := ParsedFields(s);
    UnpackedPacked(f);
    HexOfTwo(f.clockSeq, false);
    FieldLower(s, 0, 8);
    FieldLower(s, 9, 13);
    FieldLower(s, 14, 18);
    FieldLower(s, 19, 23);
    NodeLower(s, 6);
    LowerSlice(s, 0, 8);
    LowerSlice(s, 9, 13);
    LowerSlice(s, 14, 18);
    LowerSlice(s, 19, 23);
    LowerSlice(s, 24, 36);
    assert IsHyphenAt(8) && IsHyphenAt(13) && IsHyphenAt(18) && IsHyphenAt(23);
    PartsOf(ToLower(s));
  }
}
