/** Base64 encoding and decoding of base/algorithm/Base64.cpp.  The bit operations of the source are
    written as arithmetic. */
module Base64 {
  import opened Basics

  const ALPHABET := "ABCDEFGHIJKLM" + "NOPQRSTUVWXYZ" + "abcdefghijklm" + "nopqrstuvwxyz" + "0123456789+/="

  const PAD: Byte := 61

  // ---------------------------------------------------------------------------------------
  // The alphabet
  // ---------------------------------------------------------------------------------------

  /** The characters for 0 to 63, and for 64 the padding. */
  function Symbol(k: nat): Byte {
    if k < 26 then 65 + k
    else if k < 52 then 71 + k
    else if k < 62 then k - 4
    else if k == 62 then 43
    else if k == 63 then 47
    else PAD
  }

  /** Thirteen consecutive characters. */
  ghost predicate Run(s: string, first: nat) {
    |s| == 13 && forall k: nat :: k < 13 ==> s[k] as int == first + k
  }

  lemma Capitals()
    ensures Run("ABCDEFGHIJKLM", 65) && Run("NOPQRSTUVWXYZ", 78)
  {
  }

  lemma SmallLetters()
    ensures Run("abcdefghijklm", 97) && Run("nopqrstuvwxyz", 110)
  {
  }

  lemma Others(s: string)
    requires s == "0123456789+/="
    ensures |s| == 13 && forall k: nat :: k < 13 ==> s[k] as int == Symbol(52 + k)
  {
  }

  lemma ConcatAt(a: string, b: string, c: string, d: string, e: string, k: nat)
    requires Run(a, 65) && Run(b, 78) && Run(c, 97) && Run(d, 110) && |e| == 13 && k < 65
    requires forall k: nat :: k < 13 ==> e[k] as int == Symbol(52 + k)
    ensures |a + b + c + d + e| == 65 && (a + b + c + d + e)[k] as int == Symbol(k)
  {
    var s := a + b + c + d + e;
    assert k >= 52 ==> s[k] == e[k - 52];
    assert 39 <= k < 52 ==> s[k] == d[k - 39];
    assert 26 <= k < 39 ==> s[k] == c[k - 26];
    assert 13 <= k < 26 ==> s[k] == b[k - 13];
  }

  lemma AlphabetAt(k: nat)
    requires k <= 64
    ensures |ALPHABET| == 65 && ALPHABET[k] as int == Symbol(k)
  {
    hide Run, Symbol;
    Capitals();
    SmallLetters();
    Others("0123456789+/=");
    ConcatAt("ABCDEFGHIJKLM", "NOPQRSTUVWXYZ", "abcdefghijklm", "nopqrstuvwxyz", "0123456789+/=", k);
  }

  /** What a character stands for, or 255. */
  function Value(c: Byte): (v: Byte)
    ensures v < 64 || v == 255
  {
    if 65 <= c <= 90 then c - 65
    else if 97 <= c <= 122 then c - 71
    else if 48 <= c <= 57 then c + 4
    else if c == 43 then 62
    else if c == 47 then 63
    else 255
  }

  lemma ValueOfSymbol(k: nat, c: Byte)
    requires k < 64
    ensures Value(Symbol(k)) == k
    ensures Value(c) == k ==> c == Symbol(k)
  {
  }

  // ---------------------------------------------------------------------------------------
  // The text of a byte string: section 4 of RFC 4648
  // ---------------------------------------------------------------------------------------

  function GroupCount(n: nat): nat {
    (n + 2) / 3
  }

  /** The four groups of six bits in three bytes. */
  function Sextet0(a: Byte): (x: nat)
    ensures x < 64
  {
    a / 4
  }

  function Sextet1(a: Byte, b: Byte): (x: nat)
    ensures x < 64
  {
    a % 4 * 16 + b / 16
  }

  function Sextet2(b: Byte, c: Byte): (x: nat)
    ensures x < 64
  {
    b % 16 * 4 + c / 64
  }

  function Sextet3(c: Byte): (x: nat)
    ensures x < 64
  {
    c % 64
  }

  /** The four characters for the bytes from `3 * g` on. */
  function Group(s: seq<Byte>, g: nat): (r: seq<Byte>)
    requires 3 * g < |s|
    ensures |r| == 4
  {
    var a := s[3 * g];
    if 3 * g + 1 == |s| then [Symbol(Sextet0(a)), Symbol(Sextet1(a, 0)), PAD, PAD]
    else
      var b := s[3 * g + 1];
      if 3 * g + 2 == |s| then [Symbol(Sextet0(a)), Symbol(Sextet1(a, b)), Symbol(Sextet2(b, 0)), PAD]
      else
        var c := s[3 * g + 2];
        [Symbol(Sextet0(a)), Symbol(Sextet1(a, b)), Symbol(Sextet2(b, c)), Symbol(Sextet3(c))]
  }

  /** The first `g` groups. */
  function Groups(s: seq<Byte>, g: nat): (r: seq<Byte>)
    requires g <= GroupCount(|s|)
    ensures |r| == 4 * g
  {
    if g == 0 then [] else Groups(s, g - 1) + Group(s, g - 1)
  }

  function Encoded(s: seq<Byte>): (r: seq<Byte>)
    ensures |r| == GroupCount(|s|) * 4
  {
    Groups(s, GroupCount(|s|))
  }

  lemma {:induction false} GroupsAt(s: seq<Byte>, g: nat, k: nat)
    requires k < g <= GroupCount(|s|)
    ensures Groups(s, g)[4 * k..4 * k + 4] == Group(s, k)
  {
    hide Group;
    if k < g - 1 {
      GroupsAt(s, g - 1, k);
    }
  }

  lemma {:induction false} GroupsPrefix(s: seq<Byte>, g: nat, n: nat)
    requires g <= n <= GroupCount(|s|)
    ensures Groups(s, g) <= Groups(s, n)
  {
    if g < n {
      GroupsPrefix(s, g, n - 1);
    }
  }

  // ---------------------------------------------------------------------------------------
  // The bytes of a text
  // ---------------------------------------------------------------------------------------

  /** How many characters before the first that is not in the alphabet. */
  function Leading(t: seq<Byte>, i: nat): (k: nat)
    requires i <= |t|
    ensures i <= k <= |t|
    decreases |t| - i
  {
    if i < |t| && Value(t[i]) != 255 then Leading(t, i + 1) else i
  }

  /** Byte `j` of the text: eight of the bits of two neighbouring characters. */
  function DecodedByte(t: seq<Byte>, j: nat): Byte
    requires 4 * j / 3 + 1 < |t|
  {
    Eight(j % 3, Value(t[4 * j / 3]), Value(t[4 * j / 3 + 1]))
  }

  /** Eight of twelve bits, from the left, the middle or the right. */
  function Eight(r: nat, x: nat, y: nat): Byte {
    if r == 0 then (64 * x + y) / 16 % 256
    else if r == 1 then (64 * x + y) / 4 % 256
    else (64 * x + y) % 256
  }

  /** How many bytes a text of `k` characters makes. */
  function ByteCount(k: nat): nat {
    6 * k / 8
  }

  /** The padding characters at the end, looking back from `n`. */
  function Trailing(t: seq<Byte>, n: nat): (k: nat)
    requires n <= |t|
    ensures k <= n
  {
    if n > 0 && t[n - 1] == PAD then Trailing(t, n - 1) + 1 else 0
  }

  /** What both passes of decoding return. */
  function DecodedLength(t: seq<Byte>): int {
    |t| / 4 * 3 - Trailing(t, |t|)
  }

  lemma {:induction false} TrailingAtLeast(t: seq<Byte>, n: nat, k: nat)
    requires k <= n <= |t|
    ensures Trailing(t, n) >= k <==> forall j :: n - k <= j < n ==> t[j] == PAD
  {
    if k > 0 && t[n - 1] == PAD {
      TrailingAtLeast(t, n - 1, k - 1);
    }
  }

  /** Which texts have a negative length: those that end in one padding character more than their
      whole groups have bytes.  `====` is one, of length -1. */
  lemma NegativeExactly(t: seq<Byte>)
    ensures DecodedLength(t) < 0 <==>
      var k := |t| / 4 * 3 + 1; k <= |t| && forall j :: |t| - k <= j < |t| ==> t[j] == PAD
    ensures t == [PAD, PAD, PAD, PAD] ==> DecodedLength(t) == -1
  {
    var k := |t| / 4 * 3 + 1;
    if k <= |t| {
      TrailingAtLeast(t, |t|, k);
    }
    if t == [PAD, PAD, PAD, PAD] {
      TrailingAtLeast(t, 4, 4);
    }
  }

  // ---------------------------------------------------------------------------------------
  // Decoding what was encoded
  // ---------------------------------------------------------------------------------------

  /** The padding that a string of length `n` gets. */
  function PadCount(n: nat): nat {
    3 * GroupCount(n) - n
  }

  lemma EncodedCharacter(s: seq<Byte>, i: nat)
    requires i < |Encoded(s)|
    ensures Encoded(s)[i] == Group(s, i / 4)[i % 4]
  {
    hide Group;
    GroupsAt(s, GroupCount(|s|), i / 4);
    assert Encoded(s)[i] == Encoded(s)[4 * (i / 4)..4 * (i / 4) + 4][i % 4];
  }

  /** The characters before the padding are in the alphabet and the padding is not. */
  lemma EncodedValid(s: seq<Byte>, i: nat)
    requires i < |Encoded(s)|
    ensures i < |Encoded(s)| - PadCount(|s|) ==> Value(Encoded(s)[i]) != 255 && Encoded(s)[i] != PAD
    ensures i >= |Encoded(s)| - PadCount(|s|) ==> Value(Encoded(s)[i]) == 255 && Encoded(s)[i] == PAD
  {
    hide Symbol, Value, Encoded, Groups;
    EncodedCharacter(s, i);
    SymbolsValid();
  }

  lemma SymbolsValid()
    ensures forall k: nat :: k < 64 ==> Value(Symbol(k)) == k && Symbol(k) != PAD
    ensures Value(PAD) == 255
  {
    forall k: nat | k < 64 ensures Value(Symbol(k)) == k && Symbol(k) != PAD {
      ValueOfSymbol(k, 0);
    }
  }

  lemma {:induction false} LeadingIs(t: seq<Byte>, i: nat, k: nat)
    requires i <= k <= |t| && (forall j :: i <= j < k ==> Value(t[j]) != 255)
    requires k == |t| || Value(t[k]) == 255
    ensures Leading(t, i) == k
    decreases k - i
  {
    if i < k {
      LeadingIs(t, i + 1, k);
    }
  }

  lemma {:induction false} TrailingIs(t: seq<Byte>, n: nat, k: nat)
    requires k <= n <= |t| && (forall j :: k <= j < n ==> t[j] == PAD)
    requires k == 0 || t[k - 1] != PAD
    ensures Trailing(t, n) == n - k
  {
    if k < n {
      TrailingIs(t, n - 1, k);
    }
  }

  /** The length formulas of encoding and decoding agree. */
  lemma LengthsAgree(s: seq<Byte>)
    ensures Leading(Encoded(s), 0) == |Encoded(s)| - PadCount(|s|)
    ensures ByteCount(Leading(Encoded(s), 0)) == |s| && DecodedLength(Encoded(s)) == |s|
  {
    hide Encoded, Value;
    var t := Encoded(s);
    var k := |t| - PadCount(|s|);
    forall i: nat | i < |t| ensures i < k ==> Value(t[i]) != 255 && t[i] != PAD
      ensures i >= k ==> Value(t[i]) == 255 && t[i] == PAD
    {
      EncodedValid(s, i);
    }
    LeadingIs(t, 0, k);
    TrailingIs(t, |t|, k);
  }

  // The bits of a byte come together again.

  lemma LeftEight(a: Byte, b: Byte)
    ensures Eight(0, Sextet0(a), Sextet1(a, b)) == a
  {
    assert (64 * (a / 4) + (a % 4 * 16 + b / 16)) / 16 == 4 * (a / 4) + a % 4;
  }

  lemma MiddleEight(a: Byte, b: Byte, c: Byte)
    ensures Eight(1, Sextet1(a, b), Sextet2(b, c)) == b
  {
    assert 64 * (a % 4 * 16 + b / 16) + (b % 16 * 4 + c / 64) == 4 * (256 * (a % 4) + b) + c / 64;
    QuarterOf(256 * (a % 4) + b, c / 64);
    LastEight(b, a % 4);
  }

  lemma QuarterOf(x: nat, r: nat)
    requires r < 4
    ensures (4 * x + r) / 4 == x
  {
  }

  lemma RightEight(b: Byte, c: Byte)
    ensures Eight(2, Sextet2(b, c), Sextet3(c)) == c
  {
    assert 64 * (b % 16 * 4 + c / 64) + c % 64 == 256 * (b % 16) + c;
    LastEight(c, b % 16);
  }

  lemma EncodedByteAt(s: seq<Byte>, g: nat, r: nat)
    requires r < 3 && 3 * g + r < |s|
    ensures 4 * g + r + 1 < |Encoded(s)|
    ensures Eight(r, Value(Encoded(s)[4 * g + r]), Value(Encoded(s)[4 * g + r + 1])) == s[3 * g + r]
  {
    hide Symbol, Value, Groups, Eight, Sextet0, Sextet1, Sextet2, Sextet3;
    GroupsAt(s, GroupCount(|s|), g);
    var t := Encoded(s)[4 * g..4 * g + 4];
    assert t[r] == Encoded(s)[4 * g + r] && t[r + 1] == Encoded(s)[4 * g + r + 1];
    SymbolsValid();
    var b := if 3 * g + 1 < |s| then s[3 * g + 1] else 0;
    var c := if 3 * g + 2 < |s| then s[3 * g + 2] else 0;
    LeftEight(s[3 * g], b);
    MiddleEight(s[3 * g], b, c);
    RightEight(b, c);
  }

  lemma Position(j: nat)
    ensures 4 * j / 3 == 4 * (j / 3) + j % 3
  {
  }

  lemma EncodedByte(s: seq<Byte>, j: nat)
    requires j < |s|
    ensures 4 * j / 3 + 1 < |Encoded(s)| && DecodedByte(Encoded(s), j) == s[j]
  {
    hide Value, Encoded, Eight;
    Position(j);
    EncodedByteAt(s, j / 3, j % 3);
  }

  /** The bytes that `Base64Decode` puts into a buffer of the length it returns. */
  function Decoded(t: seq<Byte>): seq<Byte>
    requires DecodedLength(t) >= 0
  {
    seq(DecodedLength(t), j requires 0 <= j < DecodedLength(t) =>
      if j < ByteCount(Leading(t, 0)) then DecodedByte(t, j) else 0)
  }

  /** Decoding undoes encoding, on every byte string. */
  lemma DecodedEncoded(s: seq<Byte>)
    ensures DecodedLength(Encoded(s)) >= 0 && Decoded(Encoded(s)) == s
  {
    hide Encoded, DecodedLength, DecodedByte;
    LengthsAgree(s);
    forall j | 0 <= j < |s| ensures Decoded(Encoded(s))[j] == s[j] {
      EncodedByte(s, j);
    }
  }

  // ---------------------------------------------------------------------------------------
  // The code
  // ---------------------------------------------------------------------------------------

  /** How many groups `maxLen` leaves room for. */
  function GroupsWritten(n: nat, maxLen: int): (g: nat)
    ensures g <= GroupCount(n)
  {
    if maxLen < 4 then 0 else if maxLen / 4 < GroupCount(n) then maxLen / 4 else GroupCount(n)
  }

  /** The `switch` of `Base64Encode`: the places in the alphabet of one group. */
  method Places(src: seq<Byte>, i: nat, ghost g: nat) returns (c0: nat, c1: nat, c2: nat, c3: nat)
    requires i == 3 * g < |src|
    ensures c0 <= 64 && c1 <= 64 && c2 <= 64 && c3 <= 64
    ensures [Symbol(c0), Symbol(c1), Symbol(c2), Symbol(c3)] == Group(src, g)
  {
    hide Symbol, Sextet0, Sextet1, Sextet2, Sextet3;
    PadIs();
    if |src| - i == 1 {
      var v := src[i] as nat * 0x1_0000;
      SixBits(src[i], 0, 0);
      c0, c1, c2, c3 := v / 0x4_0000, v / 0x1000 % 64, 64, 64;
    } else if |src| - i == 2 {
      var v := src[i] as nat * 0x1_0000 + src[i + 1] as nat * 0x100;
      SixBits(src[i], src[i + 1], 0);
      c0, c1, c2, c3 := v / 0x4_0000, v / 0x1000 % 64, v / 64 % 64, 64;
    } else {
      var v := src[i] as nat * 0x1_0000 + src[i + 1] as nat * 0x100 + src[i + 2] as nat;
      SixBits(src[i], src[i + 1], src[i + 2]);
      c0, c1, c2, c3 := v / 0x4_0000, v / 0x1000 % 64, v / 64 % 64, v % 64;
    }
  }

  /** One group at `at`. */
  method PutGroup(src: seq<Byte>, i: nat, ghost g: nat, dest: array<Byte>, at: nat)
    requires i == 3 * g < |src| && at + 4 <= dest.Length
    modifies dest
    ensures dest[at..at + 4] == Group(src, g)
    ensures forall k :: 0 <= k < dest.Length && !(at <= k < at + 4) ==> dest[k] == old(dest[k])
  {
    hide Symbol, Group;
    var c0, c1, c2, c3 := Places(src, i, g);
    AlphabetAt(c0);
    AlphabetAt(c1);
    AlphabetAt(c2);
    AlphabetAt(c3);
    dest[at] := ALPHABET[c0] as int;
    dest[at + 1] := ALPHABET[c1] as int;
    dest[at + 2] := ALPHABET[c2] as int;
    dest[at + 3] := ALPHABET[c3] as int;
    assert dest[at..at + 4] == [Symbol(c0), Symbol(c1), Symbol(c2), Symbol(c3)];
  }

  lemma PadIs()
    ensures Symbol(64) == PAD
  {
  }

  /** The four sextets of three bytes. */
  lemma SixBits(a: Byte, b: Byte, c: Byte)
    ensures var v := a as nat * 0x1_0000 + b as nat * 0x100 + c as nat;
      && v / 0x4_0000 == Sextet0(a) && v / 0x1000 % 64 == Sextet1(a, b)
      && v / 64 % 64 == Sextet2(b, c) && v % 64 == Sextet3(c)
  {
    FourSextets(Sextet0(a), Sextet1(a, b), Sextet2(b, c), Sextet3(c));
  }

  lemma FourSextets(s0: nat, s1: nat, s2: nat, s3: nat)
    requires s0 < 64 && s1 < 64 && s2 < 64 && s3 < 64
    ensures var v := s0 * 0x4_0000 + s1 * 0x1000 + s2 * 64 + s3;
      v / 0x4_0000 == s0 && v / 0x1000 % 64 == s1 && v / 64 % 64 == s2 && v % 64 == s3
  {
    var v := s0 * 0x4_0000 + s1 * 0x1000 + s2 * 64 + s3;
    assert v / 64 == s0 * 0x1000 + s1 * 64 + s2;
    assert v / 0x1000 == s0 * 64 + s1;
  }

  /** `Base64Encode` with a bound: whole groups only, and a zero byte if there is room after them. */
  method Base64Encode(src: seq<Byte>, dest: array?<Byte>, maxLen: int) returns (n: nat)
    requires dest == null ==> maxLen < 4
    requires dest != null ==> maxLen <= dest.Length
    modifies dest
    ensures n == |Encoded(src)|
    ensures dest != null ==> var w := 4 * GroupsWritten(|src|, maxLen);
      && dest[..w] == Encoded(src)[..w]
      && (w < maxLen ==> dest[w] == 0)
      && dest[if w < maxLen then w + 1 else w..] == old(dest[if w < maxLen then w + 1 else w..])
  {
    hide Group, GroupsWritten;
    var nIndex, i: nat := 0, 0;
    ghost var g: nat := 0;
    while i < |src|
      invariant i == 3 * g && nIndex == 4 * g && g <= GroupCount(|src|)
      invariant g > 0 ==> dest != null && nIndex <= maxLen
      invariant dest != null ==> dest[..nIndex] == Groups(src, g) && dest[nIndex..] == old(dest[nIndex..])
      decreases |src| + 3 - i
    {
      if nIndex + 3 >= maxLen {
        break;
      }
      ghost var before := dest[..nIndex];
      PutGroup(src, i, g, dest, nIndex);
      assert dest[..nIndex + 4] == before + dest[nIndex..nIndex + 4];
      nIndex := nIndex + 4;
      i := i + 3;
      g := g + 1;
    }
    WrittenIs(|src|, maxLen, g);
    GroupsPrefix(src, g, GroupCount(|src|));
    if dest != null && nIndex < maxLen {
      dest[nIndex] := 0;
    }
    n := (|src| + 2) / 3 * 4;
  }

  lemma WrittenIs(n: nat, maxLen: int, g: nat)
    requires g <= GroupCount(n) && (g > 0 ==> 4 * g <= maxLen)
    requires 3 * g >= n || 4 * g + 3 >= maxLen
    ensures g == GroupsWritten(n, maxLen)
  {
  }

  /** `base64_table`. */
  method BuildTable() returns (table: array<Byte>)
    ensures fresh(table) && table.Length == 256 && forall c :: 0 <= c < 256 ==> table[c] == Value(c)
  {
    hide Symbol, Value;
    table := new Byte[256];
    for i := 0 to 256
      invariant forall c :: 0 <= c < i ==> table[c] == 255
    {
      table[i] := 255;
    }
    for i := 0 to 64
      invariant forall c :: 0 <= c < 256 ==> table[c] == if Value(c) < i then Value(c) else 255
    {
      AlphabetAt(i);
      forall c | 0 <= c < 256 ensures Value(c) == i <==> c == Symbol(i) {
        ValueOfSymbol(i, c);
      }
      table[ALPHABET[i] as int] := i;
    }
  }

  function Power2(n: nat): (p: nat)
    ensures p > 0
  {
    if n == 0 then 1 else 2 * Power2(n - 1)
  }

  /** The low bits of the accumulator after `i` characters; nothing is said of the others. */
  ghost predicate Recent(src: seq<Byte>, i: nat, v: nat)
    requires i <= |src|
  {
    && (i > 0 ==> v % 64 == Value(src[i - 1]))
    && (i > 1 ==> v % 0x1000 == 64 * Value(src[i - 2]) as nat + Value(src[i - 1]) as nat)
  }

  /** `v << 6` with a sextet put in, in 64 bits. */
  function Shifted(v: nat, x: nat): nat {
    (v * 64 + x) % 0x1_0000_0000_0000_0000
  }

  lemma ShiftedLow(v: nat, x: nat)
    requires x < 64
    ensures Shifted(v, x) % 64 == x && Shifted(v, x) % 0x1000 == 64 * (v % 64) + x
  {
    var q := (v * 64 + x) / 0x1_0000_0000_0000_0000;
    assert v * 64 + x == Shifted(v, x) + 0x1000 * (0x10_0000_0000_0000 * q);
    assert v * 64 + x == 0x1000 * (v / 64) + (64 * (v % 64) + x);
    SameLow(Shifted(v, x), 0x10_0000_0000_0000 * q);
    SameLow(64 * (v % 64) + x, v / 64);
  }

  lemma SameLow(x: nat, y: nat)
    ensures (x + 0x1000 * y) % 0x1000 == x % 0x1000 && (x + 0x1000 * y) % 64 == x % 64
  {
    SameTwelve(x, y);
    SameSix(x, 64 * y);
    assert 64 * (64 * y) == 0x1000 * y;
  }

  lemma SameTwelve(x: nat, y: nat)
    ensures (x + 0x1000 * y) % 0x1000 == x % 0x1000
  {
    assert x + 0x1000 * y == 0x1000 * (x / 0x1000 + y) + x % 0x1000;
  }

  lemma SameSix(x: nat, y: nat)
    ensures (x + 64 * y) % 64 == x % 64
  {
    assert x + 64 * y == 64 * (x / 64 + y) + x % 64;
  }

  lemma RecentMore(src: seq<Byte>, i: nat, v: nat)
    requires i < |src| && Recent(src, i, v) && Value(src[i]) != 255
    ensures Recent(src, i + 1, Shifted(v, Value(src[i])))
  {
    hide Value, Shifted;
    ShiftedLow(v, Value(src[i]));
  }

  /** The counting of bits: `n` of them wait after `i` characters, and the next character completes a
      byte unless none wait. */
  lemma BitCount(i: nat)
    ensures var n := 6 * i - 8 * ByteCount(i);
      && 0 <= n < 8
      && (n + 6 < 8 <==> ByteCount(i + 1) == ByteCount(i))
      && (n + 6 >= 8 ==> i > 0 && ByteCount(i + 1) == ByteCount(i) + 1 && 4 * ByteCount(i) / 3 == i - 1)
      && (n + 6 >= 8 ==> n + 6 - 8 == 4 - 2 * (ByteCount(i) % 3))
  {
    var q := i / 4;
    if i % 4 == 0 {
      assert 6 * i == 8 * (3 * q);
    } else if i % 4 == 1 {
      assert 6 * i == 8 * (3 * q) + 6;
    } else if i % 4 == 2 {
      assert 6 * i == 8 * (3 * q + 1) + 4;
    } else {
      assert 6 * i == 8 * (3 * q + 2) + 2;
    }
  }

  lemma LastEight(x: nat, q: nat)
    ensures (256 * q + x) % 256 == x % 256
  {
  }

  /** Which eight bits leave the accumulator. */
  lemma ByteOut(v: nat, x: nat, y: nat, r: nat)
    requires r < 3 && x < 64 && y < 64 && v % 0x1000 == 64 * x + y
    ensures v / Power2(4 - 2 * r) % 256 == Eight(r, x, y)
  {
    var q, e := v / 0x1000, 64 * x + y;
    assert v == 0x1000 * q + e;
    if r == 0 {
      assert Power2(4) == 16 && v / 16 == 256 * q + e / 16;
      LastEight(e / 16, q);
    } else if r == 1 {
      assert Power2(2) == 4 && v / 4 == 256 * (4 * q) + e / 4;
      LastEight(e / 4, 4 * q);
    } else {
      assert Power2(0) == 1 && v == 256 * (16 * q) + e;
      LastEight(e, 16 * q);
    }
  }

  /** The padding loop of `Base64Decode`. */
  method CountTrailing(src: seq<Byte>) returns (endCount: nat)
    ensures endCount == Trailing(src, |src|)
  {
    endCount := 0;
    var j := |src| - 1;
    PadIs();
    AlphabetAt(64);
    while j >= 0
      invariant -1 <= j < |src| && Trailing(src, |src|) == endCount + Trailing(src, j + 1)
    {
      if src[j] == ALPHABET[64] as int {
        endCount := endCount + 1;
      } else {
        break;
      }
      j := j - 1;
    }
  }

  /** How many bytes `maxLen` lets `Base64Decode` write. */
  function BytesWritten(src: seq<Byte>, maxLen: nat): (w: nat)
    ensures w <= maxLen
  {
    if maxLen < ByteCount(Leading(src, 0)) then maxLen else ByteCount(Leading(src, 0))
  }

  /** `Base64Decode` with a bound.  `junk` is what the accumulator holds at first; nothing that is
      written or returned depends on it. */
  method Base64Decode(src: seq<Byte>, dest: array?<Byte>, maxLen: nat, junk: nat) returns (n: int)
    requires dest == null ==> maxLen == 0
    requires dest != null ==> maxLen <= dest.Length
    modifies dest
    ensures n == DecodedLength(src)
    ensures dest != null ==> var w := BytesWritten(src, maxLen);
      && (forall j :: 0 <= j < w ==> 4 * j / 3 + 1 < |src| && dest[j] == DecodedByte(src, j))
      && dest[w..] == old(dest[w..])
  {
    hide Value, Shifted, Recent, ByteCount, Eight, Power2;
    var table := BuildTable();
    var i: nat, p: nat, bits: nat, v: nat := 0, 0, 0, junk;
    NothingTaken(src, junk);
    while i < |src|
      invariant i <= |src| && (forall j :: 0 <= j < i ==> Value(src[j]) != 255)
      invariant p == ByteCount(i) <= maxLen && bits == 6 * i - 8 * p
      invariant Recent(src, i, v)
      invariant forall c :: 0 <= c < 256 ==> table[c] == Value(c)
      invariant dest != null ==> dest[p..] == old(dest[p..])
      invariant forall j :: 0 <= j < p ==> 4 * j / 3 + 1 < i && dest[j] == DecodedByte(src, j)
    {
      if table[src[i]] == 255 {
        break;
      }
      if p >= maxLen {
        break;
      }
      BitCount(i);
      RecentMore(src, i, v);
      v := Shifted(v, table[src[i]]);
      bits := bits + 6;
      if bits >= 8 {
        bits := bits - 8;
        RecentByte(src, i + 1, v, p % 3);
        dest[p] := v / Power2(bits) % 256;
        p := p + 1;
      }
      i := i + 1;
    }
    WrittenCount(src, i, maxLen);
    var endCount := CountTrailing(src);
    n := |src| / 4 * 3 - endCount;
  }

  lemma NothingTaken(src: seq<Byte>, v: nat)
    ensures Recent(src, 0, v) && ByteCount(0) == 0
  {
  }

  lemma RecentByte(src: seq<Byte>, i: nat, v: nat, r: nat)
    requires 1 < i <= |src| && r < 3 && Recent(src, i, v) && Value(src[i - 1]) != 255 && Value(src[i - 2]) != 255
    ensures v / Power2(4 - 2 * r) % 256 == Eight(r, Value(src[i - 2]), Value(src[i - 1]))
  {
    hide Value, Eight, Power2;
    ByteOut(v, Value(src[i - 2]), Value(src[i - 1]), r);
  }

  /** Wherever the loop stops, it has written as much as there is or as there is room for. */
  lemma WrittenCount(src: seq<Byte>, i: nat, maxLen: nat)
    requires i <= |src| && (forall j :: 0 <= j < i ==> Value(src[j]) != 255) && ByteCount(i) <= maxLen
    requires i == |src| || Value(src[i]) == 255 || ByteCount(i) == maxLen
    ensures BytesWritten(src, maxLen) == ByteCount(i)
  {
    hide Value;
    LeadingPast(src, 0, i);
    if i == |src| || Value(src[i]) == 255 {
      LeadingIs(src, 0, i);
    }
  }

  lemma {:induction false} LeadingPast(t: seq<Byte>, i: nat, k: nat)
    requires i <= k <= |t| && forall j :: i <= j < k ==> Value(t[j]) != 255
    ensures Leading(t, i) >= k
    decreases k - i
  {
    if i < k {
      LeadingPast(t, i + 1, k);
    }
  }

  /** `Base64Encode` in two passes, through a buffer of its own. */
  method EncodeAll(src: seq<Byte>, strEncoded: array<Byte>) returns (len: nat)
    requires strEncoded.Length >= |Encoded(src)|
    modifies strEncoded
    ensures len == |Encoded(src)|
    ensures strEncoded[..len] == Encoded(src) && strEncoded[len..] == old(strEncoded[len..])
  {
    hide Encoded, BytesWritten;
    len := Base64Encode(src, null, 0);
    var buf := new Byte[len + 1](_ => 0);
    var _ := Base64Encode(src, buf, len);
    assert GroupsWritten(|src|, len) == GroupCount(|src|);
    forall k | 0 <= k < len {
      strEncoded[k] := buf[k];
    }
    assert buf[..len] == Encoded(src)[..len] == Encoded(src);
  }

  /** `Base64Decode` in two passes; `junk0` and `junk1` are the accumulators of the passes.  A
      negative length goes to `new` and `memcpy` as a size: that is `None`, and nothing is said of
      what the code does then. */
  method DecodeAll(src: seq<Byte>, strDecoded: array<Byte>, junk0: nat, junk1: nat) returns (len: Option<nat>)
    requires DecodedLength(src) <= strDecoded.Length
    modifies strDecoded
    ensures len == None <==> |src| / 4 * 3 < Trailing(src, |src|)
    ensures len.Some? ==> len.value == DecodedLength(src)
    ensures len.Some? ==>
      strDecoded[..len.value] == Decoded(src) && strDecoded[len.value..] == old(strDecoded[len.value..])
  {
    hide ByteCount, DecodedByte;
    var n := Base64Decode(src, null, 0, junk0);
    if n < 0 {
      return None;
    }
    var buf := new Byte[n + 1](_ => 0);
    var _ := Base64Decode(src, buf, n, junk1);
    forall k | 0 <= k < n ensures buf[k] == Decoded(src)[k] {
      var w := BytesWritten(src, n);
      assert k >= w ==> buf[k] == buf[w..][k - w];
    }
    forall k | 0 <= k < n {
      strDecoded[k] := buf[k];
    }
    len := Some(n);
  }

  /** A byte string goes through both wrappers unchanged. */
  method ThereAndBack(s: seq<Byte>, text: array<Byte>, back: array<Byte>, junk0: nat, junk1: nat)
      returns (len: Option<nat>)
    requires text.Length >= |Encoded(s)| && back.Length >= |s| && text != back
    modifies text, back
    ensures len == Some(|s|) && back[..|s|] == s
  {
    hide Encoded, Decoded;
    var n := EncodeAll(s, text);
    DecodedEncoded(s);
    LengthsAgree(s);
    len := DecodeAll(text[..n], back, junk0, junk1);
  }
}
