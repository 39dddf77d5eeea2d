/** `StringReplaceAllT` of base/util/string_util.cpp: replacing inside one buffer. */
module ReplaceAll {
  import opened Basics

  // ---------------------------------------------------------------------------------------
  // Searching
  // ---------------------------------------------------------------------------------------

  predicate MatchesAt<T(==)>(s: seq<T>, f: seq<T>, i: nat) {
    i + |f| <= |s| && forall j :: i <= j < i + |f| ==> s[j] == f[j - i]
  }

  /** `f` occurs at `i` if the text is something of that length, `f` and something. */
  lemma MatchesExactly<T>(s: seq<T>, f: seq<T>, i: nat)
    ensures MatchesAt(s, f, i) <==> exists before: seq<T>, after: seq<T> :: |before| == i && s == before + f + after
  {
    if MatchesAt(s, f, i) {
      var before, after := s[..i], s[i + |f|..];
      assert s[i..i + |f|] == f;
      assert |before| == i && s == before + f + after;
    }
    if before: seq<T>, after: seq<T> :| |before| == i && s == before + f + after {
      forall j | i <= j < i + |f| ensures s[j] == f[j - i] {
      }
    }
  }

  /** `basic_string::find`: the least position from `from` on where `f` occurs. */
  function Find<T(==)>(s: seq<T>, f: seq<T>, from: nat): (r: Option<nat>)
    ensures r.Some? ==> from <= r.value <= r.value + |f| <= |s|
    decreases |s| - from
  {
    if from + |f| > |s| then None
    else if MatchesAt(s, f, from) then Some(from)
    else Find(s, f, from + 1)
  }

  lemma {:induction false} FindMatches<T>(s: seq<T>, f: seq<T>, from: nat, p: nat)
    requires Find(s, f, from) == Some(p)
    ensures MatchesAt(s, f, p)
    decreases |s| - from
  {
    if !MatchesAt(s, f, from) {
      FindMatches(s, f, from + 1, p);
    }
  }

  /** It is the least such position, and `None` only if there is none. */
  lemma {:induction false} FindLeast<T>(s: seq<T>, f: seq<T>, from: nat, i: nat)
    requires from <= i && MatchesAt(s, f, i)
    ensures Find(s, f, from).Some? && Find(s, f, from).value <= i
    decreases |s| - from
  {
    if !MatchesAt(s, f, from) {
      FindLeast(s, f, from + 1, i);
    }
  }

  lemma FindIs<T>(s: seq<T>, f: seq<T>, p: nat)
    requires MatchesAt(s, f, p) && forall i :: 0 <= i < p ==> !MatchesAt(s, f, i)
    ensures Find(s, f, 0) == Some(p)
  {
    FindLeast(s, f, 0, p);
    FindMatches(s, f, 0, Find(s, f, 0).value);
  }

  function Shift(r: Option<nat>, gap: nat): Option<nat> {
    match r case None => None case Some(p) => Some(p + gap)
  }

  lemma MatchesInSuffix<T>(s: seq<T>, t: seq<T>, f: seq<T>, gap: nat, i: nat)
    requires gap <= |s| && s[gap..] == t
    ensures MatchesAt(s, f, gap + i) <==> MatchesAt(t, f, i)
  {
    assert forall k :: 0 <= k < |t| ==> t[k] == s[gap + k];
    if MatchesAt(s, f, gap + i) {
      forall j | i <= j < i + |f| ensures t[j] == f[j - i] {
        assert s[gap + j] == f[j - i];
      }
    }
    if MatchesAt(t, f, i) {
      forall j | gap + i <= j < gap + i + |f| ensures s[j] == f[j - gap - i] {
        assert t[j - gap] == f[j - gap - i];
      }
    }
  }

  /** Two texts with a common end find the same in it. */
  lemma {:induction false} FindInSuffix<T>(s: seq<T>, t: seq<T>, f: seq<T>, gap: nat, from: nat)
    requires gap <= |s| && s[gap..] == t
    ensures Find(s, f, gap + from) == Shift(Find(t, f, from), gap)
    decreases |t| - from
  {
    if from + |f| <= |t| {
      MatchesInSuffix(s, t, f, gap, from);
      if !MatchesAt(t, f, from) {
        FindInSuffix(s, t, f, gap, from + 1);
      }
    }
  }

  /** Two texts that agree up to the end of the first occurrence find it alike. */
  lemma FindAlike<T>(s: seq<T>, t: seq<T>, f: seq<T>, p: nat)
    requires Find(s, f, 0) == Some(p) && p + |f| <= |t| && s[..p + |f|] == t[..p + |f|]
    ensures Find(t, f, 0) == Some(p)
  {
    FindMatches(s, f, 0, p);
    forall j | 0 <= j < p + |f| ensures s[j] == t[j] {
      assert s[..p + |f|][j] == t[..p + |f|][j];
    }
    forall i | 0 <= i < p ensures !MatchesAt(t, f, i) {
      if MatchesAt(t, f, i) {
        assert MatchesAt(s, f, i);
        FindLeast(s, f, 0, i);
      }
    }
    FindIs(t, f, p);
  }

  // ---------------------------------------------------------------------------------------
  // What replacing means
  // ---------------------------------------------------------------------------------------

  /** The text from `k` on with every leftmost, non-overlapping occurrence of `f` replaced. */
  function ReplacedFrom<T(==)>(s: seq<T>, f: seq<T>, r: seq<T>, k: nat): seq<T>
    requires f != [] && k <= |s|
    decreases |s| - k
  {
    match Find(s, f, k)
    case None => s[k..]
    case Some(p) => s[k..p] + r + ReplacedFrom(s, f, r, p + |f|)
  }

  function Replaced<T(==)>(s: seq<T>, f: seq<T>, r: seq<T>): seq<T>
    requires f != []
  {
    ReplacedFrom(s, f, r, 0)
  }

  function MatchesFrom<T(==)>(s: seq<T>, f: seq<T>, k: nat): nat
    requires f != [] && k <= |s|
    decreases |s| - k
  {
    match Find(s, f, k)
    case None => 0
    case Some(p) => 1 + MatchesFrom(s, f, p + |f|)
  }

  function Matches<T(==)>(s: seq<T>, f: seq<T>): nat
    requires f != []
  {
    MatchesFrom(s, f, 0)
  }

  /** A text cut into stretches. */
  datatype Cut<T> = Last(piece: seq<T>) | More(piece: seq<T>, rest: Cut<T>)

  /** The stretches between the occurrences that are replaced. */
  function CutFrom<T(==)>(s: seq<T>, f: seq<T>, k: nat): Cut<T>
    requires f != [] && k <= |s|
    decreases |s| - k
  {
    match Find(s, f, k)
    case None => Last(s[k..])
    case Some(p) => More(s[k..p], CutFrom(s, f, p + |f|))
  }

  function LastPiece<T>(c: Cut<T>): seq<T> {
    match c
    case Last(piece) => piece
    case More(_, rest) => LastPiece(rest)
  }

  function TailFrom<T(==)>(s: seq<T>, f: seq<T>, k: nat): seq<T>
    requires f != [] && k <= |s|
  {
    LastPiece(CutFrom(s, f, k))
  }

  /** What follows the last occurrence that is replaced. */
  function Tail<T(==)>(s: seq<T>, f: seq<T>): seq<T>
    requires f != []
  {
    TailFrom(s, f, 0)
  }

  predicate InStretch(i: nat, a: nat, n: nat) {
    a <= i < a + n
  }

  /** Two stretches of `n` elements have one in common. */
  ghost predicate Overlap(a: nat, b: nat, n: nat) {
    exists i: nat :: InStretch(i, a, n) && InStretch(i, b, n)
  }

  lemma OverlapIs(a: nat, b: nat, n: nat)
    requires a <= b
    ensures Overlap(a, b, n) <==> b - a < n
  {
    if b - a < n {
      assert InStretch(b, a, n) && InStretch(b, b, n);
    }
  }

  /** The text shrinks, and less than the tail is long. */
  ghost predicate TailOverlaps<T>(text: seq<T>, f: seq<T>, r: seq<T>)
    requires f != []
  {
    |r| < |f| && 0 < Matches(text, f) * (|f| - |r|) < |Tail(text, f)|
  }

  /** Such a text: the tail `bcd` goes down by one. */
  lemma OverlapHappens()
    ensures TailOverlaps("aabcd", "aa", "a")
  {
    var text, f := "aabcd", "aa";
    assert text[2] == 'b' && text[3] == 'c' && f[0] == 'a' && text[0..2] == f;
    assert !MatchesAt(text, f, 2) && !MatchesAt(text, f, 3);
    assert Find(text, f, 4) == None;
    assert Find(text, f, 3) == None;
    assert Find(text, f, 2) == None;
    assert Find(text, f, 0) == Some(0);
    assert CutFrom(text, f, 0) == More(text[0..0], CutFrom(text, f, 2));
    assert CutFrom(text, f, 2) == Last(text[2..]);
  }

  function Join<T>(c: Cut<T>, sep: seq<T>): seq<T> {
    match c
    case Last(piece) => piece
    case More(piece, rest) => piece + sep + Join(rest, sep)
  }

  /** In a piece followed by `f` the first occurrence of `f` is the one behind the piece; the
      last piece contains none. */
  predicate Leftmost<T(==)>(c: Cut<T>, f: seq<T>) {
    match c
    case Last(piece) => Find(piece, f, 0) == None
    case More(piece, rest) => Find(piece + f, f, 0) == Some(|piece|) && Leftmost(rest, f)
  }

  lemma CutAt<T>(s: seq<T>, f: seq<T>, k: nat, p: nat)
    requires k <= p && MatchesAt(s, f, p)
    ensures s[k..] == s[k..p] + f + s[p + |f|..] && s[k..][..p - k + |f|] == s[k..p] + f
  {
  }

  /** The text is its pieces joined by `f`, and the result is the same pieces joined by `r`. */
  lemma {:induction false} ReplacedJoins<T>(s: seq<T>, f: seq<T>, r: seq<T>, k: nat)
    requires f != [] && k <= |s|
    ensures Join(CutFrom(s, f, k), f) == s[k..]
    ensures Join(CutFrom(s, f, k), r) == ReplacedFrom(s, f, r, k)
    decreases |s| - k
  {
    if Find(s, f, k).Some? {
      var p := Find(s, f, k).value;
      FindMatches(s, f, k, p);
      CutAt(s, f, k, p);
      ReplacedJoins(s, f, r, p + |f|);
    }
  }

  lemma FirstPieceLeftmost<T>(s: seq<T>, f: seq<T>, k: nat, p: nat)
    requires f != [] && k <= |s| && Find(s, f, k) == Some(p)
    ensures Find(s[k..p] + f, f, 0) == Some(p - k)
  {
    FindInSuffix(s, s[k..], f, k, 0);
    FindMatches(s, f, k, p);
    CutAt(s, f, k, p);
    FindAlike(s[k..], s[k..p] + f, f, p - k);
  }

  lemma {:induction false} CutLeftmost<T>(s: seq<T>, f: seq<T>, k: nat)
    requires f != [] && k <= |s|
    ensures Leftmost(CutFrom(s, f, k), f)
    decreases |s| - k
  {
    if Find(s, f, k).Some? {
      var p := Find(s, f, k).value;
      FirstPieceLeftmost(s, f, k, p);
      CutLeftmost(s, f, p + |f|);
    } else {
      FindInSuffix(s, s[k..], f, k, 0);
    }
  }

  lemma DropSlice<T>(s: seq<T>, k: nat, i: nat, j: nat)
    requires k <= |s| && i <= j <= |s| - k
    ensures s[k..][i..j] == s[k + i..k + j]
  {
  }

  lemma {:induction false} CutInSuffix<T>(s: seq<T>, t: seq<T>, f: seq<T>, gap: nat, k: nat)
    requires f != [] && gap <= |s| && s[gap..] == t && k <= |t|
    ensures CutFrom(s, f, gap + k) == CutFrom(t, f, k)
    decreases |t| - k
  {
    hide MatchesAt;
    FindInSuffix(s, t, f, gap, k);
    if Find(t, f, k).None? {
      DropSlice(s, gap, k, |t|);
    } else {
      var p := Find(t, f, k).value;
      DropSlice(s, gap, k, p);
      CutInSuffix(s, t, f, gap, p + |f|);
    }
  }

  lemma CutStep<T>(s: seq<T>, f: seq<T>, k: nat, p: nat)
    requires f != [] && k <= |s| && Find(s, f, k) == Some(p)
    ensures k <= p <= p + |f| <= |s| && CutFrom(s, f, k) == More(s[k..p], CutFrom(s, f, p + |f|))
  {
  }

  /** The first cut of a piece followed by `f` and more text is behind the piece. */
  lemma CutBehind<T>(piece: seq<T>, f: seq<T>, rest: seq<T>)
    requires f != [] && Find(piece + f, f, 0) == Some(|piece|)
    ensures CutFrom(piece + f + rest, f, 0) == More(piece, CutFrom(rest, f, 0))
  {
    hide Find, CutFrom;
    var s, t := piece + f + rest, piece + f;
    assert s[..|t|] == t && t[..|t|] == t && s[|t|..] == rest && s[0..|piece|] == piece;
    FindAlike(t, s, f, |piece|);
    CutInSuffix(s, rest, f, |t|, 0);
    CutStep(s, f, 0, |piece|);
  }

  /** No other cutting of a text at occurrences of `f` is leftmost. */
  lemma {:induction false} CutUnique<T>(c: Cut<T>, f: seq<T>)
    requires f != [] && Leftmost(c, f)
    ensures CutFrom(Join(c, f), f, 0) == c
  {
    match c
    case Last(_) =>
    case More(piece, rest) =>
      CutUnique(rest, f);
      CutBehind(piece, f, Join(rest, f));
  }

  lemma {:induction false} ReplacedLength<T>(s: seq<T>, f: seq<T>, r: seq<T>, k: nat, d: int)
    requires f != [] && k <= |s| && d == |r| - |f|
    ensures |ReplacedFrom(s, f, r, k)| == |s| - k + MatchesFrom(s, f, k) * d
    decreases |s| - k
  {
    if Find(s, f, k).Some? {
      var p := Find(s, f, k).value;
      var m := MatchesFrom(s, f, p + |f|);
      ReplacedLength(s, f, r, p + |f|, d);
      OneMore(m, d);
      assert MatchesFrom(s, f, k) == m + 1;
    }
  }

  lemma OneMore(m: int, d: int)
    ensures (m + 1) * d == m * d + d
  {
  }

  // ---------------------------------------------------------------------------------------
  // The string
  // ---------------------------------------------------------------------------------------

  /** `std::basic_string`: a buffer that may be longer than the text in it. */
  class BasicString<T(0, ==)> {
    var data: array<T>
    var size: nat

    ghost predicate Valid()
      reads this
    {
      size <= data.Length
    }

    function Contents(): (s: seq<T>)
      requires Valid()
      reads this, data
      ensures |s| == size
    {
      data[..size]
    }

    constructor (s: seq<T>)
      ensures Valid() && fresh(data) && Contents() == s
    {
      data := new T[|s|](i requires 0 <= i < |s| => s[i]);
      size := |s|;
    }

    /** The text is cut, or lengthened by elements of no particular value. */
    method Resize(n: nat)
      requires Valid()
      modifies this
      ensures Valid() && size == n && (data == old(data) || fresh(data))
      ensures n >= old(size) ==> data[..old(size)] == old(Contents())
      ensures n <= old(size) ==> Contents() == old(Contents())[..n]
    {
      if n > data.Length {
        var d := new T[n];
        forall i | 0 <= i < size {
          d[i] := data[i];
        }
        data := d;
      }
      size := n;
    }

    /** `memmove` inside the buffer. */
    method Move(to: nat, from: nat, n: nat)
      requires Valid() && to + n <= size && from + n <= size
      modifies data
      ensures Contents() == old(Contents()[..to] + Contents()[from..from + n] + Contents()[to + n..])
    {
      ghost var was := Contents();
      forall i | to <= i < to + n {
        data[i] := data[i - to + from];
      }
      Moved(was, Contents(), to, from, n);
    }

    /** `memcpy` from another string. */
    method CopyIn(to: nat, s: seq<T>)
      requires Valid() && to + |s| <= size
      modifies data
      ensures Contents() == old(Contents()[..to]) + s + old(Contents()[to + |s|..])
    {
      forall i | to <= i < to + |s| {
        data[i] := s[i - to];
      }
    }
  }

  lemma Moved<T>(was: seq<T>, now: seq<T>, to: nat, from: nat, n: nat)
    requires |now| == |was| && to + n <= |was| && from + n <= |was|
    requires forall i :: to <= i < to + n ==> now[i] == was[i - to + from]
    requires forall i :: 0 <= i < |was| && !(to <= i < to + n) ==> now[i] == was[i]
    ensures now == was[..to] + was[from..from + n] + was[to + n..]
  {
    var moved := was[..to] + was[from..from + n] + was[to + n..];
    forall i | 0 <= i < |was| ensures now[i] == moved[i] {
      if to <= i < to + n {
        assert moved[i] == was[from..from + n][i - to] == was[i - to + from];
      } else {
        assert moved[i] == was[i];
      }
    }
  }

  /** The first pass: how many occurrences are going to be replaced. */
  method CountAll<T(0, ==)>(find: seq<T>, output: BasicString<T>) returns (replaced: nat)
    requires output.Valid() && find != []
    ensures replaced == Matches(output.Contents(), find)
  {
    replaced := 0;
    var offset := 0;
    while true
      invariant 0 <= offset <= output.size
      invariant replaced + MatchesFrom(output.Contents(), find, offset) == Matches(output.Contents(), find)
      decreases output.size - offset
    {
      var found := Find(output.Contents(), find, offset);
      if found.None? { break; }
      replaced := replaced + 1;
      offset := found.value + |find|;
    }
  }

  /** What a gap must hold for `m` replacements that each need `d` elements more. */
  function Room(m: nat, d: int): int {
    if m == 0 then 0 else Room(m - 1, d) + d
  }

  lemma {:induction false} RoomIs(m: nat, d: int)
    ensures Room(m, d) == m * d
  {
    if m > 0 {
      RoomIs(m - 1, d);
      OneMore(m - 1, d);
    }
  }

  lemma {:induction false} RoomNat(m: nat, d: nat)
    ensures Room(m, d) >= 0
  {
    if m > 0 {
      RoomNat(m - 1, d);
    }
  }

  /** How far the second pass has got: what lies before `target` is final, the text from `done`
      on is unread and lies in the buffer from `offset` on. */
  ghost predicate Progress<T>(text: seq<T>, f: seq<T>, r: seq<T>, b: seq<T>, target: nat, offset: nat, done: nat)
    requires f != []
  {
    done <= |text| && target <= offset <= |b| && b[offset..] == text[done..] &&
    b[..target] + ReplacedFrom(text, f, r, done) == Replaced(text, f, r)
  }

  /** The gap between the two cursors holds what the replacements to come are going to need, or
      what the replacements so far have saved. */
  ghost predicate Gap<T>(text: seq<T>, f: seq<T>, r: seq<T>, gap: int, done: nat, count: nat)
    requires f != []
  {
    done <= |text| && count + MatchesFrom(text, f, done) == Matches(text, f) && TailFrom(text, f, done) == Tail(text, f) &&
    gap == if |f| < |r| then Room(MatchesFrom(text, f, done), |r| - |f|) else Room(count, |f| - |r|)
  }

  lemma Begin<T>(text: seq<T>, f: seq<T>, r: seq<T>, b: seq<T>, start: nat)
    requires f != [] && start <= |b| && b[start..] == text
    requires start == if |f| < |r| then Room(Matches(text, f), |r| - |f|) else 0
    ensures Progress(text, f, r, b, 0, start, 0) && Gap(text, f, r, start, 0, 0)
  {
  }

  lemma SliceOfSlice<T>(b: seq<T>, text: seq<T>, offset: nat, done: nat, q: nat, p: nat, n: nat)
    requires offset <= q && done <= p && q + n <= |b| && p + n <= |text| && q - offset == p - done
    requires b[offset..] == text[done..]
    ensures b[offset..q] == text[done..p] && b[q + n..] == text[p + n..]
  {
    assert b[offset..q] == b[offset..][..q - offset] && b[q + n..] == b[offset..][q - offset + n..];
    assert text[done..p] == text[done..][..p - done] && text[p + n..] == text[done..][p - done + n..];
  }

  lemma Regroup<T>(a: seq<T>, b: seq<T>, c: seq<T>, d: seq<T>)
    ensures a + (b + c + d) == a + b + c + d
  {
  }

  /** Searching the buffer from `offset` on is searching the unread text. */
  lemma FoundAlike<T>(b: seq<T>, text: seq<T>, f: seq<T>, offset: nat, done: nat)
    requires offset <= |b| && done <= |text| && b[offset..] == text[done..]
    ensures match Find(b, f, offset)
      case None => Find(text, f, done) == None
      case Some(q) => offset <= q && Find(text, f, done) == Some(q - offset + done)
  {
    hide MatchesAt;
    FindInSuffix(b, text[done..], f, offset, 0);
    FindInSuffix(text, text[done..], f, done, 0);
  }

  lemma FoundNext<T>(text: seq<T>, f: seq<T>, r: seq<T>, b: seq<T>, target: nat, offset: nat, done: nat)
    requires f != [] && Progress(text, f, r, b, target, offset, done)
    ensures done <= |text| && target <= offset
    ensures match Find(b, f, offset)
      case None => Find(text, f, done) == None
      case Some(q) => offset <= q && Find(text, f, done) == Some(q - offset + done)
  {
    hide Find;
    FoundAlike(b, text, f, offset, done);
  }

  /** The replacement fits in front of what stays unread. */
  lemma Fits<T>(text: seq<T>, f: seq<T>, r: seq<T>, gap: int, done: nat, p: nat, count: nat)
    requires f != [] && done <= |text| && Gap(text, f, r, gap, done, count) && Find(text, f, done) == Some(p)
    ensures gap + |f| - |r| >= 0 || |r| <= |f|
    ensures Gap(text, f, r, gap + |f| - |r|, p + |f|, count + 1)
    ensures ReplacedFrom(text, f, r, done) == text[done..p] + r + ReplacedFrom(text, f, r, p + |f|)
  {
    hide Find, Matches;
    if |f| < |r| {
      RoomNat(MatchesFrom(text, f, p + |f|), |r| - |f|);
    }
  }

  /** One replacement: both cursors advance. */
  lemma Advance<T>(text: seq<T>, f: seq<T>, r: seq<T>, b: seq<T>, b': seq<T>, target: nat, offset: nat, done: nat,
                   q: nat, p: nat, target': nat)
    requires f != [] && Progress(text, f, r, b, target, offset, done)
    requires offset <= q && q + |f| <= |b| && p + |f| <= |text| && q - offset == p - done
    requires ReplacedFrom(text, f, r, done) == text[done..p] + r + ReplacedFrom(text, f, r, p + |f|)
    requires target' == target + (q - offset) + |r| <= q + |f| <= |b'|
    requires b'[q + |f|..] == b[q + |f|..] && b'[..target'] == b[..target] + b[offset..q] + r
    ensures Progress(text, f, r, b', target', q + |f|, p + |f|)
  {
    hide ReplacedFrom, Replaced;
    SliceOfSlice(b, text, offset, done, q, p, |f|);
    Regroup(b[..target], text[done..p], r, ReplacedFrom(text, f, r, p + |f|));
  }

  /** No occurrence is left: what is unread belongs behind what is written as it is. */
  lemma Finish<T>(text: seq<T>, f: seq<T>, r: seq<T>, b: seq<T>, target: nat, offset: nat, done: nat, count: nat)
    requires f != [] && Progress(text, f, r, b, target, offset, done) && Gap(text, f, r, offset - target, done, count)
    requires Find(b, f, offset) == None || offset == |b|
    ensures count == Matches(text, f) && b[..target] + b[offset..] == Replaced(text, f, r)
    ensures offset - target == if |f| < |r| then 0 else Room(count, |f| - |r|)
    ensures |b| - offset == |Tail(text, f)|
  {
    hide MatchesAt;
    FoundAlike(b, text, f, offset, done);
  }

  /** Move the text between two occurrences down to `target` and put the replacement behind it. */
  method Splice<T(0, ==)>(output: BasicString<T>, replace: seq<T>, target: nat, offset: nat, foundPos: nat, ghost next: nat)
    requires output.Valid() && target <= offset <= foundPos <= next <= output.size
    requires target + (foundPos - offset) + |replace| <= next
    modifies output.data
    ensures output.Contents()[..target + (foundPos - offset) + |replace|] ==
      old(output.Contents()[..target] + output.Contents()[offset..foundPos]) + replace
    ensures output.Contents()[next..] == old(output.Contents()[next..])
  {
    ghost var b, t := output.Contents(), target + (foundPos - offset);
    if target != foundPos {
      output.Move(target, offset, foundPos - offset);
    }
    ghost var b1 := output.Contents();
    assert b1 == b[..target] + b[offset..foundPos] + b[t..];
    output.CopyIn(target + (foundPos - offset), replace);
    assert b1[..t] == b[..target] + b[offset..foundPos];
    assert b1[next..] == b[next..];
  }

  /** One replacement, of the occurrence at `foundPos`. */
  method ReplaceOne<T(0, ==)>(find: seq<T>, replace: seq<T>, output: BasicString<T>, target: nat, offset: nat,
                              foundPos: nat, ghost text: seq<T>, ghost done: nat, ghost count: nat)
      returns (target': nat, ghost done': nat)
    requires output.Valid() && find != [] && offset <= output.size
    requires Progress(text, find, replace, output.Contents(), target, offset, done)
    requires Gap(text, find, replace, offset - target, done, count)
    requires Find(output.Contents(), find, offset) == Some(foundPos)
    modifies output.data
    ensures target' <= |find| + foundPos <= output.size
    ensures Progress(text, find, replace, output.Contents(), target', |find| + foundPos, done')
    ensures Gap(text, find, replace, |find| + foundPos - target', done', count + 1)
  {
    hide Find, MatchesAt, MatchesFrom, ReplacedFrom, Matches, Replaced, Room, Gap, Progress;
    ghost var b := output.Contents();
    FoundNext(text, find, replace, b, target, offset, done);
    ghost var p := foundPos - offset + done;
    Fits(text, find, replace, offset - target, done, p, count);
    Splice(output, replace, target, offset, foundPos, foundPos + |find|);
    target' := target + (foundPos - offset) + |replace|;
    done' := p + |find|;
    Advance(text, find, replace, b, output.Contents(), target, offset, done, foundPos, p, target');
  }

  /** The ending work: what is unread goes down to `target`. */
  method MoveTail<T(0, ==)>(output: BasicString<T>, target: nat, offset: nat) returns (ghost overlap: bool)
    requires output.Valid() && target <= offset <= output.size
    modifies output.data
    ensures output.Contents()[..target + output.size - offset] ==
      old(output.Contents()[..target] + output.Contents()[offset..])
    ensures overlap <==> target != offset && Overlap(target, offset, output.size - offset)
  {
    overlap := false;
    ghost var b := output.Contents();
    if target != offset {
      output.Move(target, offset, output.size - offset);
      overlap := Overlap(target, offset, output.size - offset);
    }
    assert output.Contents()[..target + output.size - offset] == b[..target] + b[offset..];
  }

  /** The buffer when the tail is in its place. */
  lemma Finished<T>(text: seq<T>, f: seq<T>, r: seq<T>, b: seq<T>, after: seq<T>, target: nat, offset: nat,
                    count: nat, overlap: bool)
    requires f != [] && target <= offset <= |b| == |after|
    requires count == Matches(text, f) && b[..target] + b[offset..] == Replaced(text, f, r)
    requires offset - target == if |f| < |r| then 0 else Room(count, |f| - |r|)
    requires |b| - offset == |Tail(text, f)|
    requires after[..target + |b| - offset] == b[..target] + b[offset..]
    requires overlap <==> target != offset && Overlap(target, offset, |b| - offset)
    ensures |f| <= |r| ==> after == Replaced(text, f, r)
    ensures |f| > |r| ==>
      (0 <= Room(count, |f| - |r|) <= |after| && after[..|after| - Room(count, |f| - |r|)] == Replaced(text, f, r))
    ensures overlap <==> TailOverlaps(text, f, r)
  {
    hide Matches, Replaced, Tail, Overlap;
    RoomIs(count, |f| - |r|);
    OverlapIs(target, offset, |b| - offset);
    assert after[..|after|] == after;
  }

  /** The second pass over a buffer whose unread text starts at `start`: the gap in front of it
      is just what the replacements are going to need. */
  method SecondPass<T(0, ==)>(find: seq<T>, replace: seq<T>, output: BasicString<T>, start: nat, ghost text: seq<T>)
      returns (count: nat, ghost overlap: bool)
    requires output.Valid() && find != [] && start <= output.size && output.Contents()[start..] == text
    requires start == if |find| < |replace| then Room(Matches(text, find), |replace| - |find|) else 0
    modifies output.data
    ensures count == Matches(text, find)
    ensures |find| <= |replace| ==> output.Contents() == Replaced(text, find, replace)
    ensures |find| > |replace| ==>
      (0 <= Room(count, |find| - |replace|) <= output.size &&
       output.Contents()[..output.size - Room(count, |find| - |replace|)] == Replaced(text, find, replace))
    ensures overlap <==> TailOverlaps(text, find, replace)
  {
    hide Find, MatchesAt, MatchesFrom, ReplacedFrom, Matches, Replaced, Room, Gap, Progress, Tail, Overlap, TailOverlaps;
    count, overlap := 0, false;
    var offset: nat, endpos: nat, target: nat := start, output.size, 0;
    Begin(text, find, replace, output.Contents(), start);
    ghost var b, done: nat := output.Contents(), 0;
    while offset < endpos
      invariant target <= offset <= endpos == output.size && b == output.Contents()
      invariant Progress(text, find, replace, b, target, offset, done)
      invariant Gap(text, find, replace, offset - target, done, count) && !overlap
    {
      FoundNext(text, find, replace, b, target, offset, done);
      var found := Find(output.Contents(), find, offset);
      if found.None? {
        overlap := MoveTail(output, target, offset);
        break;
      }
      target, done := ReplaceOne(find, replace, output, target, offset, found.value, text, done, count);
      offset := |find| + found.value;
      count := count + 1;
      b := output.Contents();
    }
    Finish(text, find, replace, b, target, offset, done, count);
    OverlapIs(target, offset, endpos - offset);
    assert offset == endpos ==> b[..target] + b[offset..] == b[..target];
    Finished(text, find, replace, b, output.Contents(), target, offset, count, overlap);
  }

  /** The growing case: count what is to be replaced, enlarge the buffer, move the text to its end. */
  method MakeRoom<T(0, ==)>(find: seq<T>, replace: seq<T>, output: BasicString<T>) returns (replaced: nat, start: nat)
    requires output.Valid() && find != [] && |find| < |replace|
    modifies output, output.data
    ensures output.Valid() && (output.data == old(output.data) || fresh(output.data))
    ensures replaced == Matches(old(output.Contents()), find)
    ensures start <= output.size && output.Contents()[start..] == old(output.Contents())
    ensures start == Room(replaced, |replace| - |find|)
  {
    hide Find, MatchesAt, MatchesFrom, Matches, Room;
    ghost var text := output.Contents();
    replaced := CountAll(find, output);
    var oldsize := output.size;
    RoomIs(replaced, |replace| - |find|);
    RoomNat(replaced, |replace| - |find|);
    var newsize := oldsize + replaced * (|replace| - |find|);
    start := newsize - oldsize;
    output.Resize(newsize);
    assert output.Contents()[..oldsize] == text;
    output.Move(start, 0, output.size - start);
  }

  method Grow<T(0, ==)>(find: seq<T>, replace: seq<T>, output: BasicString<T>)
      returns (replaced: nat, ghost overlap: bool)
    requires output.Valid() && find != [] && |find| < |replace|
    modifies output, output.data
    ensures output.Valid() && (output.data == old(output.data) || fresh(output.data))
    ensures output.Contents() == Replaced(old(output.Contents()), find, replace)
    ensures replaced == Matches(old(output.Contents()), find) + Matches(old(output.Contents()), find)
    ensures !overlap
  {
    overlap := false;
    hide Find, MatchesAt, MatchesFrom, ReplacedFrom, Matches, Replaced, Room;
    ghost var text := output.Contents();
    var start;
    replaced, start := MakeRoom(find, replace, output);
    if replaced == 0 {
      NothingToReplace(text, find, replace);
      RoomIs(0, |replace| - |find|);
      assert output.Contents()[0..] == output.Contents();
      return;
    }
    var count;
    count, overlap := SecondPass(find, replace, output, start, text);
    replaced := replaced + count;
  }

  /** The other case: the buffer is rewritten from its start and cut. */
  method Shrink<T(0, ==)>(find: seq<T>, replace: seq<T>, output: BasicString<T>)
      returns (replaced: nat, ghost overlap: bool)
    requires output.Valid() && find != [] && |find| >= |replace|
    modifies output, output.data
    ensures output.Valid() && (output.data == old(output.data) || fresh(output.data))
    ensures output.Contents() == Replaced(old(output.Contents()), find, replace)
    ensures replaced == Matches(old(output.Contents()), find)
    ensures overlap <==> TailOverlaps(old(output.Contents()), find, replace)
  {
    hide Find, MatchesAt, MatchesFrom, ReplacedFrom, Matches, Replaced, Room;
    assert output.Contents()[0..] == output.Contents();
    replaced, overlap := SecondPass(find, replace, output, 0, output.Contents());
    if |replace| < |find| {
      RoomIs(replaced, |find| - |replace|);
      assert replaced * (|find| - |replace|) == Room(replaced, |find| - |replace|);
      output.Resize(output.size - replaced * (|find| - |replace|));
    }
  }

  /** Every leftmost, non-overlapping occurrence is replaced.  The count returned is right when
      the text does not grow; when it grows the two passes both count, and it is doubled.
      `overlap` says that the tail was copied between stretches with an element in common. */
  method StringReplaceAll<T(0, ==)>(find: seq<T>, replace: seq<T>, output: BasicString<T>)
      returns (replaced: nat, ghost overlap: bool)
    requires output.Valid()
    modifies output, output.data
    ensures output.Valid() && (output.data == old(output.data) || fresh(output.data))
    ensures output.Contents() ==
      if find == [] then old(output.Contents()) else Replaced(old(output.Contents()), find, replace)
    ensures replaced ==
      if find == [] then 0
      else if |find| < |replace| then Matches(old(output.Contents()), find) + Matches(old(output.Contents()), find)
      else Matches(old(output.Contents()), find)
    ensures overlap <==> find != [] && TailOverlaps(old(output.Contents()), find, replace)
  {
    hide Find, MatchesAt, MatchesFrom, ReplacedFrom, Matches, Replaced, Room;
    ghost var text := output.Contents();
    replaced, overlap := 0, false;
    if find == [] { return; }
    NothingInEmpty(find, replace);
    assert output.size == 0 ==> text == [];
    if output.size == 0 { return; }
    if |find| < |replace| {
      replaced, overlap := Grow(find, replace, output);
    } else {
      replaced, overlap := Shrink(find, replace, output);
    }
  }

  lemma NothingInEmpty<T>(f: seq<T>, r: seq<T>)
    requires f != []
    ensures Matches([], f) == 0 && Replaced([], f, r) == []
  {
  }

  lemma NothingToReplace<T>(text: seq<T>, f: seq<T>, r: seq<T>)
    requires f != [] && Matches(text, f) == 0
    ensures Replaced(text, f, r) == text
  {
  }
}
