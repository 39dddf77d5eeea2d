/** The fields of a UUID and its sixteen bytes: base/uuid/pack.c, unpack.c, compare.c and
    uuid_time.c.  Shifts and masks of the source are written as arithmetic. */
module Uuid {
  import opened Basics

  type Bytes16 = s: seq<Byte> | |s| == 16 witness seq(16, _ => 0)

  type Bytes6 = s: seq<Byte> | |s| == 6 witness seq(6, _ => 0)

  type Uint16 = x: int | 0 <= x < 0x1_0000

  type Uint32 = x: int | 0 <= x < 0x1_0000_0000

  /** `struct uuid`. */
  datatype Fields = Fields(timeLow: Uint32, timeMid: Uint16, timeHi: Uint16, clockSeq: Uint16, node: Bytes6)

  // ---------------------------------------------------------------------------------------
  // Packing
  // ---------------------------------------------------------------------------------------

  /** Sections 4.1.2 of RFC 4122: each field most significant byte first. */
  function Two(a: Byte, b: Byte): Uint16 {
    a * 256 + b
  }

  function Four(a: Byte, b: Byte, c: Byte, d: Byte): Uint32 {
    Two(a, b) * 0x1_0000 + Two(c, d)
  }

  function Unpacked(b: Bytes16): Fields {
    Fields(Four(b[0], b[1], b[2], b[3]), Two(b[4], b[5]), Two(b[6], b[7]), Two(b[8], b[9]), b[10..16])
  }

  /** `uuid_unpack`. */
  method Unpack(input: Bytes16) returns (uu: Fields)
    ensures uu == Unpacked(input)
  {
    hide Two, Four;
    var timeLow, ptr := TakeFour(input, 0);
    var timeMid := TakeTwo(input, ptr);
    var timeHi := TakeTwo(input, ptr + 2);
    var clockSeq := TakeTwo(input, ptr + 4);
    uu := Fields(timeLow, timeMid, timeHi, clockSeq, input[ptr + 6..]);
  }

  method TakeFour(input: Bytes16, start: nat) returns (v: Uint32, ptr: nat)
    requires start + 4 <= 16
    ensures ptr == start + 4 && v == Four(input[start], input[start + 1], input[start + 2], input[start + 3])
  {
    ptr := start;
    var tmp: nat := input[ptr];
    ptr := ptr + 1;
    tmp := tmp * 256 + input[ptr];
    ptr := ptr + 1;
    tmp := tmp * 256 + input[ptr];
    ptr := ptr + 1;
    tmp := tmp * 256 + input[ptr];
    ptr := ptr + 1;
    v := tmp;
  }

  method TakeTwo(input: Bytes16, ptr: nat) returns (v: Uint16)
    requires ptr + 2 <= 16
    ensures v == Two(input[ptr], input[ptr + 1])
  {
    var tmp: nat := input[ptr];
    tmp := tmp * 256 + input[ptr + 1];
    v := tmp;
  }

  function TwoBytes(n: nat): (r: seq<Byte>)
    ensures |r| == 2
  {
    [n / 256 % 256, n % 256]
  }

  function Packed(u: Fields): (b: Bytes16) {
    TwoBytes(u.timeLow / 0x1_0000) + TwoBytes(u.timeLow) + TwoBytes(u.timeMid) + TwoBytes(u.timeHi) +
    TwoBytes(u.clockSeq) + u.node
  }

  lemma TwoOfBytes(n: Uint16)
    ensures Two(TwoBytes(n)[0], TwoBytes(n)[1]) == n
  {
  }

  lemma BytesOfTwo(a: Byte, b: Byte)
    ensures TwoBytes(Two(a, b)) == [a, b]
  {
  }

  lemma LowTwoBytes(n: nat, m: nat)
    requires n % 0x1_0000 == m % 0x1_0000
    ensures TwoBytes(n) == TwoBytes(m)
  {
    var q, p := n / 0x1_0000, m / 0x1_0000;
    var r := n % 0x1_0000;
    assert n == 0x1_0000 * q + r && m == 0x1_0000 * p + r;
    assert n / 256 == 256 * q + r / 256 && m / 256 == 256 * p + r / 256;
    SameByte(r / 256, q);
    SameByte(r / 256, p);
    SameByte(r, 256 * q);
    SameByte(r, 256 * p);
  }

  lemma SameByte(x: nat, y: nat)
    ensures (256 * y + x) % 256 == x % 256
  {
  }

  lemma UnpackedPacked(u: Fields)
    ensures Unpacked(Packed(u)) == u
  {
    hide TwoBytes, Two;
    var low, high := u.timeLow % 0x1_0000, u.timeLow / 0x1_0000;
    LowTwoBytes(u.timeLow, low);
    TwoOfBytes(low);
    TwoOfBytes(high);
    TwoOfBytes(u.timeMid);
    TwoOfBytes(u.timeHi);
    TwoOfBytes(u.clockSeq);
    assert Packed(u)[10..16] == u.node;
  }

  lemma PackedUnpacked(b: Bytes16)
    ensures Packed(Unpacked(b)) == b
  {
    hide TwoBytes, Two;
    var u := Unpacked(b);
    LowTwoBytes(u.timeLow, Two(b[2], b[3]));
    BytesOfTwo(b[0], b[1]);
    BytesOfTwo(b[2], b[3]);
    BytesOfTwo(b[4], b[5]);
    BytesOfTwo(b[6], b[7]);
    BytesOfTwo(b[8], b[9]);
  }

  /** `uuid_pack`. */
  method Pack(uu: Fields, out: array<Byte>)
    requires out.Length == 16
    modifies out
    ensures out[..] == Packed(uu)
  {
    hide TwoBytes;
    PutTwo(uu.timeLow, out, 2);
    PutTwo(uu.timeLow / 0x1_0000, out, 0);
    PutTwo(uu.timeMid, out, 4);
    PutTwo(uu.timeHi, out, 6);
    PutTwo(uu.clockSeq, out, 8);
    forall k | 0 <= k < 6 {
      out[10 + k] := uu.node[k];
    }
  }

  /** Two bytes from the end, shifting `tmp`. */
  method PutTwo(n: nat, out: array<Byte>, at: nat)
    requires out.Length == 16 && at + 2 <= 16
    modifies out
    ensures out[..] == old(out[..])[at := TwoBytes(n)[0]][at + 1 := TwoBytes(n)[1]]
  {
    var tmp := n;
    out[at + 1] := tmp % 256;
    tmp := tmp / 256;
    out[at] := tmp % 256;
  }

  // ---------------------------------------------------------------------------------------
  // Order
  // ---------------------------------------------------------------------------------------

  function Sign(x: int, y: int): int {
    if x < y then -1 else if x > y then 1 else 0
  }

  /** The sign of `memcmp`: lexicographic order of byte strings of one length. */
  function MemCmp(a: seq<Byte>, b: seq<Byte>): int
    requires |a| == |b|
  {
    if a == [] then 0 else if a[0] != b[0] then Sign(a[0], b[0]) else MemCmp(a[1..], b[1..])
  }

  /** `uuid_compare`. */
  function Compare(uu1: Bytes16, uu2: Bytes16): int {
    var u, v := Unpacked(uu1), Unpacked(uu2);
    if u.timeLow != v.timeLow then (if u.timeLow < v.timeLow then -1 else 1)
    else if u.timeMid != v.timeMid then (if u.timeMid < v.timeMid then -1 else 1)
    else if u.timeHi != v.timeHi then (if u.timeHi < v.timeHi then -1 else 1)
    else if u.clockSeq != v.clockSeq then (if u.clockSeq < v.clockSeq then -1 else 1)
    else MemCmp(u.node, v.node)
  }

  lemma MemCmpTwo(a: seq<Byte>, b: seq<Byte>)
    requires |a| == |b| >= 2
    ensures var x, y := Two(a[0], a[1]), Two(b[0], b[1]);
      MemCmp(a, b) == if x != y then Sign(x, y) else MemCmp(a[2..], b[2..])
  {
    if a[0] == b[0] {
      assert a[1..][1..] == a[2..] && b[1..][1..] == b[2..];
    }
  }

  lemma MemCmpFour(a: seq<Byte>, b: seq<Byte>)
    requires |a| == |b| >= 4
    ensures var x, y := Four(a[0], a[1], a[2], a[3]), Four(b[0], b[1], b[2], b[3]);
      MemCmp(a, b) == if x != y then Sign(x, y) else MemCmp(a[4..], b[4..])
  {
    hide MemCmp, Two;
    MemCmpTwo(a, b);
    MemCmpTwo(a[2..], b[2..]);
    assert a[2..][2..] == a[4..] && b[2..][2..] == b[4..];
  }

  /** Comparing the fields is comparing the bytes. */
  lemma CompareIsMemCmp(a: Bytes16, b: Bytes16)
    ensures Compare(a, b) == MemCmp(a, b)
  {
    hide MemCmp, Two, Four;
    MemCmpFour(a, b);
    MemCmpTwo(a[4..], b[4..]);
    MemCmpTwo(a[6..], b[6..]);
    MemCmpTwo(a[8..], b[8..]);
    assert a[4..][2..] == a[6..] && b[4..][2..] == b[6..];
    assert a[6..][2..] == a[8..] && b[6..][2..] == b[8..];
    assert a[8..][2..] == a[10..16] && b[8..][2..] == b[10..16];
  }

  lemma {:induction false} MemCmpZero(a: seq<Byte>, b: seq<Byte>)
    requires |a| == |b|
    ensures MemCmp(a, b) == 0 <==> a == b
    ensures MemCmp(a, b) == -MemCmp(b, a)
  {
    if a != [] {
      assert a == [a[0]] + a[1..] && b == [b[0]] + b[1..];
      MemCmpZero(a[1..], b[1..]);
    }
  }

  lemma {:induction false} MemCmpTransitive(a: seq<Byte>, b: seq<Byte>, c: seq<Byte>)
    requires |a| == |b| == |c| && MemCmp(a, b) < 0 && MemCmp(b, c) < 0
    ensures MemCmp(a, c) < 0
  {
    if a[0] == b[0] == c[0] {
      MemCmpTransitive(a[1..], b[1..], c[1..]);
    }
  }

  /** `uuid_compare` is a strict order that tells all UUIDs apart. */
  lemma CompareIsOrder(a: Bytes16, b: Bytes16, c: Bytes16)
    ensures Compare(a, b) == 0 <==> a == b
    ensures Compare(a, b) == -Compare(b, a)
    ensures Compare(a, b) < 0 && Compare(b, c) < 0 ==> Compare(a, c) < 0
  {
    hide Compare, MemCmp;
    CompareIsMemCmp(a, b);
    CompareIsMemCmp(b, a);
    CompareIsMemCmp(b, c);
    CompareIsMemCmp(a, c);
    MemCmpZero(a, b);
    if MemCmp(a, b) < 0 && MemCmp(b, c) < 0 {
      MemCmpTransitive(a, b, c);
    }
  }

  // ---------------------------------------------------------------------------------------
  // Time
  // ---------------------------------------------------------------------------------------

  /** 100-nanosecond intervals between 15 October 1582 and 1 January 1970. */
  const OFFSET: nat := 0x01B21DD2 * 0x1_0000_0000 + 0x13814000

  // The Gregorian calendar

  predicate IsLeap(year: nat) {
    year % 4 == 0 && (year % 100 != 0 || year % 400 == 0)
  }

  /** Days from 1 January of year 1 to 1 January of `year`. */
  function DaysBefore(year: nat): int
    requires year > 0
  {
    365 * (year - 1) + (year - 1) / 4 - (year - 1) / 100 + (year - 1) / 400
  }

  lemma YearLength(year: nat)
    requires year > 0
    ensures DaysBefore(year + 1) - DaysBefore(year) == if IsLeap(year) then 366 else 365
  {
    OneMoreBy4(year);
    OneMoreBy100(year);
    OneMoreBy400(year);
    WholeHundreds(year);
    var a, b, c := year / 4, year / 100, year / 400;
    assert DaysBefore(year + 1) == 365 * year + a - b + c;
  }

  lemma WholeHundreds(n: nat)
    ensures n % 100 == 0 ==> n % 4 == 0
    ensures n % 400 == 0 ==> n % 100 == 0
  {
    if n % 100 == 0 {
      assert n == 4 * (25 * (n / 100));
    }
    if n % 400 == 0 {
      assert n == 100 * (4 * (n / 400));
    }
  }

  lemma OneMoreBy4(n: nat)
    requires n > 0
    ensures n / 4 - (n - 1) / 4 == if n % 4 == 0 then 1 else 0
  {
  }

  lemma OneMoreBy100(n: nat)
    requires n > 0
    ensures n / 100 - (n - 1) / 100 == if n % 100 == 0 then 1 else 0
  {
  }

  lemma OneMoreBy400(n: nat)
    requires n > 0
    ensures n / 400 - (n - 1) / 400 == if n % 400 == 0 then 1 else 0
  {
  }

  /** Days of 1582 up to the end of September, and of October up to the 15th. */
  const UP_TO_15_OCTOBER := (31 + 28 + 31 + 30 + 31 + 30 + 31 + 31 + 30) + 14

  lemma OffsetExact()
    ensures OFFSET == (DaysBefore(1970) - (DaysBefore(1582) + UP_TO_15_OCTOBER)) * 24 * 60 * 60 * 10_000_000
  {
  }

  const WIDTH64 := 0x1_0000_0000_0000_0000

  const WIDTH60 := 0x1000_0000_0000_0000

  datatype Time = Time(sec: nat, usec: nat)

  /** The fields that `__uuid_generate_time` makes of a timestamp and a clock sequence: sections 4.1.4
      and 4.2.2 of RFC 4122. */
  function Assembled(reg: nat, clockSeq: nat, node: Bytes6): Fields
    requires reg < WIDTH64 && clockSeq < 0x4000
  {
    var clockMid := reg / 0x1_0000_0000;
    Fields(reg % 0x1_0000_0000, clockMid % 0x1_0000, clockMid / 0x1_0000 % 0x1000 + 0x1000, clockSeq + 0x8000, node)
  }

  /** The timestamp that `uuid_time` puts together again. */
  function Register(u: Fields): (r: nat)
    ensures r < WIDTH60
  {
    var high: nat := u.timeMid as nat + u.timeHi as nat % 0x1000 * 0x1_0000;
    u.timeLow as nat + high * 0x1_0000_0000
  }

  /** `uuid_time`; the subtraction is one of 64-bit unsigned values. */
  function UuidTime(b: Bytes16): Time {
    TimeOf((Register(Unpacked(b)) + WIDTH64 - OFFSET) % WIDTH64)
  }

  /** The time in units of 100 nanoseconds, cut to microseconds. */
  function TimeOf(ticks: nat): Time {
    Time(ticks / 10_000_000, ticks % 10_000_000 / 10)
  }

  /** `uuid_type`. */
  function UuidType(b: Bytes16): int {
    Unpacked(b).timeHi / 0x1000 % 16
  }

  datatype Variant = Ncs | Dce | Microsoft | Other

  /** `uuid_variant`. */
  function UuidVariant(b: Bytes16): Variant {
    var s := Unpacked(b).clockSeq;
    if s / 0x8000 % 2 == 0 then Ncs
    else if s / 0x4000 % 2 == 0 then Dce
    else if s / 0x2000 % 2 == 0 then Microsoft
    else Other
  }

  /** The kind of a UUID as the bits of its bytes have it: the type in the upper half of byte 6, the
      variant in the leading bits of byte 8. */
  lemma KindOfBytes(b: Bytes16)
    ensures UuidType(b) == b[6] / 16
    ensures UuidVariant(b) ==
      if b[8] < 0x80 then Ncs else if b[8] < 0xC0 then Dce else if b[8] < 0xE0 then Microsoft else Other
  {
    hide Two, Four;
    TopHalf(b[6], b[7]);
    TopBits(b[8], b[9]);
    LeadingBits(b[8]);
  }

  lemma TopHalf(a: Byte, b: Byte)
    ensures Two(a, b) / 0x1000 % 16 == a / 16
  {
    var q, r: nat := a / 16, 256 * (a % 16) + b;
    assert Two(a, b) == 0x1000 * q + r;
    TopOf16(q, r);
  }

  lemma TopOf16(q: nat, r: nat)
    requires q < 16 && r < 0x1000
    ensures (0x1000 * q + r) / 0x1000 == q && q % 16 == q
  {
  }

  lemma LeadingBits(a: Byte)
    ensures a / 0x80 % 2 == 0 <==> a < 0x80
    ensures 0x80 <= a ==> (a / 0x40 % 2 == 0 <==> a < 0xC0)
    ensures 0xC0 <= a ==> (a / 0x20 % 2 == 0 <==> a < 0xE0)
  {
  }

  lemma TopBits(a: Byte, b: Byte)
    ensures Two(a, b) / 0x8000 == a / 0x80 && Two(a, b) / 0x4000 == a / 0x40 && Two(a, b) / 0x2000 == a / 0x20
  {
  }

  /** Of the timestamp the low sixty bits survive in the fields. */
  lemma RegisterAssembled(reg: nat, clockSeq: nat, node: Bytes6)
    requires reg < WIDTH64 && clockSeq < 0x4000
    ensures Register(Assembled(reg, clockSeq, node)) == reg % WIDTH60
  {
    var mid := reg / 0x1_0000_0000;
    var top := mid / 0x1_0000;
    assert reg == reg % 0x1_0000_0000 + (mid % 0x1_0000 + (top % 0x1000 + top / 0x1000 * 0x1000) * 0x1_0000) * 0x1_0000_0000;
    assert (top % 0x1000 + 0x1000) % 0x1000 == top % 0x1000;
    assert reg == Register(Assembled(reg, clockSeq, node)) + WIDTH60 * (top / 0x1000);
  }

  /** Generated UUIDs are equal only if sixty bits of the timestamp, the clock sequence and the node
      all are. */
  lemma AssembledApart(reg: nat, clockSeq: nat, node: Bytes6, reg': nat, clockSeq': nat, node': Bytes6)
    requires reg < WIDTH64 && clockSeq < 0x4000 && reg' < WIDTH64 && clockSeq' < 0x4000
    ensures Packed(Assembled(reg, clockSeq, node)) == Packed(Assembled(reg', clockSeq', node')) ==>
      reg % WIDTH60 == reg' % WIDTH60 && clockSeq == clockSeq' && node == node'
  {
    hide Packed, Unpacked, Register;
    UnpackedPacked(Assembled(reg, clockSeq, node));
    UnpackedPacked(Assembled(reg', clockSeq', node'));
    RegisterAssembled(reg, clockSeq, node);
    RegisterAssembled(reg', clockSeq', node');
  }

  /** A generated UUID has version 1 and the variant of the standard. */
  lemma GeneratedKind(reg: nat, clockSeq: nat, node: Bytes6)
    requires reg < WIDTH64 && clockSeq < 0x4000
    ensures var b := Packed(Assembled(reg, clockSeq, node)); UuidType(b) == 1 && UuidVariant(b) == Dce
  {
    hide Packed, Unpacked;
    UnpackedPacked(Assembled(reg, clockSeq, node));
    var top := reg / 0x1_0000_0000 / 0x1_0000 % 0x1000;
    assert (top + 0x1000) / 0x1000 == 1;
    assert (clockSeq + 0x8000) / 0x8000 == 1 && (clockSeq + 0x8000) / 0x4000 == 2;
  }

  lemma Wrapped(ticks: nat)
    requires OFFSET + ticks < WIDTH60
    ensures (OFFSET + ticks) % WIDTH60 == OFFSET + ticks && (OFFSET + ticks + WIDTH64 - OFFSET) % WIDTH64 == ticks
  {
    assert OFFSET + ticks + WIDTH64 - OFFSET == WIDTH64 + ticks;
  }

  /** The subtraction gives back what was added. */
  lemma UuidTimeIs(ticks: nat, clockSeq: nat, node: Bytes6)
    requires OFFSET + ticks < WIDTH60 && clockSeq < 0x4000
    ensures UuidTime(Packed(Assembled(OFFSET + ticks, clockSeq, node))) == TimeOf(ticks)
  {
    hide Packed, Unpacked, Assembled, Register, TimeOf;
    RegisterAssembled(OFFSET + ticks, clockSeq, node);
    UnpackedPacked(Assembled(OFFSET + ticks, clockSeq, node));
    Wrapped(ticks);
  }

  lemma TimeOfTicks(sec: nat, usec: nat, adjustment: nat)
    requires usec < 1_000_000 && adjustment <= 10
    ensures var t := TimeOf(10_000_000 * sec + 10 * usec + adjustment);
      && (adjustment <= 9 ==> t == Time(sec, usec))
      && (adjustment == 10 ==> t == if usec == 999_999 then Time(sec + 1, 0) else Time(sec, usec + 1))
  {
    var ticks := 10_000_000 * sec + 10 * usec + adjustment;
    if adjustment <= 9 || usec < 999_999 {
      assert ticks / 10_000_000 == sec && ticks % 10_000_000 == 10 * usec + adjustment;
    } else {
      assert ticks / 10_000_000 == sec + 1 && ticks % 10_000_000 == 0;
    }
  }

  /** `uuid_time` of a generated UUID is the time of its reading exactly when the adjustment is at
      most 9; with 10 it is the microsecond after. */
  lemma TimeRecovered(sec: nat, usec: nat, adjustment: nat, clockSeq: nat, node: Bytes6)
    requires usec < 1_000_000 && adjustment <= 10 && clockSeq < 0x4000
    requires OFFSET + 10_000_000 * sec + 10 * usec + adjustment < WIDTH60
    ensures var b := Packed(Assembled(OFFSET + 10_000_000 * sec + 10 * usec + adjustment, clockSeq, node));
      && (UuidTime(b) == Time(sec, usec) <==> adjustment <= 9)
      && (adjustment == 10 ==>
        UuidTime(b) == if usec == 999_999 then Time(sec + 1, 0) else Time(sec, usec + 1))
  {
    hide UuidTime, Packed, Assembled, TimeOf;
    UuidTimeIs(10_000_000 * sec + 10 * usec + adjustment, clockSeq, node);
    TimeOfTicks(sec, usec, adjustment);
  }
}
