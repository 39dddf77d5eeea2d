/** The clock behind time-based UUIDs: `get_clock` in base/uuid/gen_uuid.c.  Readings of the system
    clock are inputs. */
module UuidClock {
  import opened Basics
  import opened Uuid

  const MAX_ADJUSTMENT := 10

  type Reading = t: Time | t.usec < 1_000_000 witness Time(0, 0)

  function Micros(t: Time): nat {
    1_000_000 * t.sec + t.usec
  }

  /** The comparison of two readings, seconds first. */
  predicate Before(t: Time, u: Time) {
    t.sec < u.sec || (t.sec == u.sec && t.usec < u.usec)
  }

  lemma BeforeIsLess(t: Reading, u: Reading)
    ensures Before(t, u) <==> Micros(t) < Micros(u)
    ensures t == u <==> Micros(t) == Micros(u)
  {
  }

  /** What stays between two calls. */
  datatype State = State(last: Reading, adjustment: nat, clockSeq: nat) {
    ghost predicate Valid() {
      adjustment <= MAX_ADJUSTMENT && clockSeq < 0x4000
    }

    /** The last timestamp that was issued or reserved, from 1970 on. */
    function Reserved(): nat {
      10 * Micros(last) + adjustment
    }
  }

  /** The reading cannot be used: `goto try_again`. */
  predicate Waits(s: State, t: Reading) {
    t == s.last && s.adjustment >= MAX_ADJUSTMENT
  }

  /** The adjustment that a usable reading gets. */
  function Adjusted(s: State, t: Reading): nat {
    if t == s.last then s.adjustment + 1 else 0
  }

  /** The timestamp it gives, from 1970 on. */
  function Ticks(s: State, t: Reading): nat {
    10 * Micros(t) + Adjusted(s, t)
  }

  /** Lines 350 to 356: `num` timestamps at once move `last` on. */
  function Reserve(t: Reading, adjustment: nat, num: int): (Reading, nat) {
    if num > 1 then
      var a := adjustment + num - 1;
      var usec := t.usec + a / 10;
      (Time(t.sec + usec / 1_000_000, usec % 1_000_000), a % 10)
    else (t, adjustment)
  }

  /** The state after a call with a usable reading. */
  function After(s: State, t: Reading, num: int): State {
    var (last, adjustment) := Reserve(t, Adjusted(s, t), num);
    State(last, adjustment, if Before(t, s.last) then (s.clockSeq + 1) % 0x4000 else s.clockSeq)
  }

  // ---------------------------------------------------------------------------------------
  // The code
  // ---------------------------------------------------------------------------------------

  /** The index of the first reading that can be used. */
  function FirstUsable(s: State, readings: seq<Reading>, k: nat): (n: nat)
    requires k <= |readings|
    ensures k <= n <= |readings|
    decreases |readings| - k
  {
    if k < |readings| && Waits(s, readings[k]) then FirstUsable(s, readings, k + 1) else k
  }

  class Clock {
    var last: Reading
    var adjustment: nat
    var clockSeq: nat

    function Now(): State
      reads this
    {
      State(last, adjustment, clockSeq)
    }

    ghost predicate Valid()
      reads this
    {
      Now().Valid()
    }

    constructor ()
      ensures Now() == State(Time(0, 0), 0, 0) && Valid()
    {
      last, adjustment, clockSeq := Time(0, 0), 0, 0;
    }

    /** Lines 321 to 326, at the first call: `random` and `first` are what the system gives. */
    method Start(random: nat, first: Reading)
      requires Valid() && first.sec > 0
      modifies this
      ensures Valid() && Now() ==
        if old(last) == Time(0, 0) then State(Time(first.sec - 1, first.usec), old(adjustment), random % 0x4000)
        else old(Now())
    {
      if last.sec == 0 && last.usec == 0 {
        clockSeq := random % 0x4000;
        last := first;
        last := last.(sec := last.sec - 1);
      }
    }

    /** `get_clock` from `try_again` on.  `readings` are what `gettimeofday` returns one after another;
        unless one of them can be used the call does not end. */
    method GetClock(readings: seq<Reading>, num: int) returns (done: bool, clockReg: nat, seq_: nat)
      requires Valid()
      modifies this
      ensures Valid()
      ensures var n := FirstUsable(old(Now()), readings, 0);
        && done == (n < |readings|)
        && (done ==>
          && Now() == After(old(Now()), readings[n], num)
          && clockReg == OFFSET + Ticks(old(Now()), readings[n])
          && seq_ == Now().clockSeq)
        && (!done ==> Now() == old(Now()))
    {
      done, clockReg, seq_ := false, 0, 0;
      var k: nat := 0;
      while k < |readings|
        invariant k <= |readings| && !done && Now() == old(Now())
        invariant FirstUsable(old(Now()), readings, 0) == FirstUsable(old(Now()), readings, k)
      {
        var tv := readings[k];
        if tv.sec < last.sec || (tv.sec == last.sec && tv.usec < last.usec) {
          clockSeq := (clockSeq + 1) % 0x4000;
          adjustment := 0;
          last := tv;
        } else if tv.sec == last.sec && tv.usec == last.usec {
          if adjustment >= MAX_ADJUSTMENT {
            k := k + 1;
            continue;
          }
          adjustment := adjustment + 1;
        } else {
          adjustment := 0;
          last := tv;
        }
        clockReg := tv.usec * 10 + adjustment;
        clockReg := clockReg + tv.sec * 10_000_000;
        clockReg := clockReg + OFFSET;
        SetAside(num);
        done, seq_ := true, clockSeq;
        return;
      }
    }

    /** Lines 350 to 356. */
    method SetAside(num: int)
      requires adjustment <= MAX_ADJUSTMENT
      modifies `last, `adjustment
      ensures (last, adjustment) == Reserve(old(last), old(adjustment), num) && adjustment <= MAX_ADJUSTMENT
    {
      if num > 1 {
        adjustment := adjustment + (num - 1);
        var usec := last.usec + adjustment / 10;
        adjustment := adjustment % 10;
        last := Time(last.sec + usec / 1_000_000, usec % 1_000_000);
      }
    }
  }

  /** `__uuid_generate_time`: the UUID holds the timestamp, and `uuid_time` gives back the reading it
      came from exactly when the adjustment is at most 9. */
  method GenerateTime(clock: Clock, readings: seq<Reading>, num: int, node: Bytes6, out: array<Byte>) returns (done: bool)
    requires clock.Valid() && out.Length == 16
    requires forall k :: 0 <= k < |readings| ==> OFFSET + 10 * Micros(readings[k]) + MAX_ADJUSTMENT < WIDTH60
    modifies clock, out
    ensures clock.Valid()
    ensures var s := old(clock.Now()); var n := FirstUsable(s, readings, 0);
      && done == (n < |readings|)
      && (done ==>
        && clock.Now() == After(s, readings[n], num)
        && out[..] == Packed(Assembled(OFFSET + Ticks(s, readings[n]), clock.clockSeq, node))
        && UuidType(out[..]) == 1 && UuidVariant(out[..]) == Dce
        && (UuidTime(out[..]) == readings[n] <==> Adjusted(s, readings[n]) <= 9))
  {
    hide Packed, Assembled, After, UuidTime, UuidType, UuidVariant, Waits;
    ghost var s := clock.Now();
    ghost var n := FirstUsable(s, readings, 0);
    var reg, clockSeq;
    done, reg, clockSeq := clock.GetClock(readings, num);
    if done {
      ghost var t := readings[n];
      UsableAdjusted(s, readings, 0);
      Pack(Assembled(reg, clockSeq, node), out);
      GeneratedKind(reg, clockSeq, node);
      TimeRecovered(t.sec, t.usec, Adjusted(s, t), clockSeq, node);
    }
  }

  lemma UsableAdjusted(s: State, readings: seq<Reading>, k: nat)
    requires s.Valid() && k <= |readings|
    ensures var n := FirstUsable(s, readings, k);
      n < |readings| ==> !Waits(s, readings[n]) && Adjusted(s, readings[n]) <= MAX_ADJUSTMENT
    decreases |readings| - k
  {
    if k < |readings| && Waits(s, readings[k]) {
      UsableAdjusted(s, readings, k + 1);
    }
  }

  // ---------------------------------------------------------------------------------------
  // One call
  // ---------------------------------------------------------------------------------------

  /** How many timestamps a call sets aside. */
  function Many(num: int): (n: nat)
    ensures n > 0
  {
    if num > 1 then num else 1
  }

  /** A call for `num` timestamps reserves `num` consecutive ones and remembers the last. */
  lemma ReservedAfter(s: State, t: Reading, num: int)
    ensures After(s, t, num).Reserved() == Ticks(s, t) + Many(num) - 1
  {
    if num > 1 {
      var a := Adjusted(s, t) + num - 1;
      var usec := t.usec + a / 10;
      assert Micros(After(s, t, num).last) == Micros(t) + a / 10;
    }
  }

  lemma AfterValid(s: State, t: Reading, num: int)
    requires s.Valid() && !Waits(s, t)
    ensures After(s, t, num).Valid()
  {
  }

  /** The one case in which a timestamp comes again: the adjustment had reached 10, which makes it the
      timestamp of the next microsecond, and that is the next reading. */
  predicate Collides(s: State, t: Reading) {
    s.adjustment == MAX_ADJUSTMENT && Micros(t) == Micros(s.last) + 1
  }

  /** As long as the clock does not go back, timestamps never do, and the last one comes again only
      in a collision. */
  lemma TicksGrow(s: State, t: Reading)
    requires s.Valid() && !Waits(s, t) && !Before(t, s.last)
    ensures Ticks(s, t) >= s.Reserved()
    ensures Ticks(s, t) == s.Reserved() <==> Collides(s, t)
  {
    BeforeIsLess(t, s.last);
  }

  // ---------------------------------------------------------------------------------------
  // Runs
  // ---------------------------------------------------------------------------------------

  datatype Call = Call(reading: Reading, num: int)

  function StateAfter(s: State, calls: seq<Call>, n: nat): State
    requires n <= |calls|
  {
    if n == 0 then s else After(StateAfter(s, calls, n - 1), calls[n - 1].reading, calls[n - 1].num)
  }

  /** Every reading could be used in its state. */
  ghost predicate IsRun(s: State, calls: seq<Call>) {
    s.Valid() && forall n :: 0 <= n < |calls| ==> !Waits(StateAfter(s, calls, n), calls[n].reading)
  }

  /** Call `n` issues the timestamps `First` to `Last`, in the clock sequence `Sequence`. */
  function First(s: State, calls: seq<Call>, n: nat): nat
    requires n < |calls|
  {
    Ticks(StateAfter(s, calls, n), calls[n].reading)
  }

  function Last(s: State, calls: seq<Call>, n: nat): int
    requires n < |calls|
  {
    First(s, calls, n) + Many(calls[n].num) - 1
  }

  function Sequence(s: State, calls: seq<Call>, n: nat): nat
    requires n < |calls|
  {
    StateAfter(s, calls, n + 1).clockSeq
  }

  /** The clock went back at call `n`. */
  predicate WentBack(s: State, calls: seq<Call>, n: nat)
    requires n < |calls|
  {
    Before(calls[n].reading, StateAfter(s, calls, n).last)
  }

  /** How often it did after call `i`, up to call `j`. */
  function Backs(s: State, calls: seq<Call>, i: nat, j: nat): nat
    requires i <= j < |calls|
    decreases j
  {
    if i == j then 0 else Backs(s, calls, i, j - 1) + if WentBack(s, calls, j) then 1 else 0
  }

  lemma {:induction false} RunValid(s: State, calls: seq<Call>, n: nat)
    requires IsRun(s, calls) && n <= |calls|
    ensures StateAfter(s, calls, n).Valid()
  {
    hide After, Waits;
    if n > 0 {
      RunValid(s, calls, n - 1);
      AfterValid(StateAfter(s, calls, n - 1), calls[n - 1].reading, calls[n - 1].num);
    }
  }

  lemma ReservedIsLast(s: State, calls: seq<Call>, n: nat)
    requires IsRun(s, calls) && n < |calls|
    ensures StateAfter(s, calls, n + 1).Reserved() == Last(s, calls, n)
  {
    hide After, Ticks;
    ReservedAfter(StateAfter(s, calls, n), calls[n].reading, calls[n].num);
  }

  /** Calls between which the clock did not go back issue timestamps in order, in one clock sequence;
      only neighbours can share one, and only in a collision. */
  lemma {:induction false} EpochOrdered(s: State, calls: seq<Call>, i: nat, j: nat)
    requires IsRun(s, calls) && i < j < |calls| && Backs(s, calls, i, j) == 0
    ensures Sequence(s, calls, i) == Sequence(s, calls, j)
    ensures Last(s, calls, i) <= First(s, calls, j)
    ensures Last(s, calls, i) == First(s, calls, j) <==>
      j == i + 1 && Collides(StateAfter(s, calls, j), calls[j].reading)
    decreases j
  {
    hide Ticks, After, Waits, Collides, Before;
    var state := StateAfter(s, calls, j);
    AfterSequence(state, calls[j].reading, calls[j].num);
    RunValid(s, calls, j);
    ReservedIsLast(s, calls, j - 1);
    TicksGrow(state, calls[j].reading);
    if i < j - 1 {
      EpochOrdered(s, calls, i, j - 1);
      RunValid(s, calls, j - 1);
      var before := StateAfter(s, calls, j - 1);
      if Collides(before, calls[j - 1].reading) || Many(calls[j - 1].num) > 1 {
        CollisionAlone(before, calls[j - 1].reading, calls[j - 1].num, calls[j].reading);
      }
    }
  }

  lemma AfterSequence(s: State, t: Reading, num: int)
    ensures After(s, t, num).clockSeq == if Before(t, s.last) then (s.clockSeq + 1) % 0x4000 else s.clockSeq
  {
  }

  /** No collision comes right after another, or after a call for more than one. */
  lemma CollisionAlone(s: State, t: Reading, num: int, next: Reading)
    requires s.Valid() && !Waits(s, t) && (Collides(s, t) || Many(num) > 1)
    ensures !Collides(After(s, t, num), next)
  {
  }

  lemma OneMoreBack(n: nat)
    ensures (n % 0x4000 + 1) % 0x4000 == (n + 1) % 0x4000 && n % 0x4000 % 0x4000 == n % 0x4000
  {
    assert n + 1 == 0x4000 * (n / 0x4000) + (n % 0x4000 + 1);
  }

  /** The clock sequence counts the times the clock went back, modulo 2^14. */
  lemma {:induction false} SequenceCounts(s: State, calls: seq<Call>, i: nat, j: nat)
    requires IsRun(s, calls) && i <= j < |calls|
    ensures Sequence(s, calls, j) == (Sequence(s, calls, i) + Backs(s, calls, i, j)) % 0x4000
    decreases j
  {
    hide After, Waits, Before;
    RunValid(s, calls, i + 1);
    if i < j {
      SequenceCounts(s, calls, i, j - 1);
      AfterSequence(StateAfter(s, calls, j), calls[j].reading, calls[j].num);
      OneMoreBack(Sequence(s, calls, i) + Backs(s, calls, i, j - 1));
    }
  }

  /** Two calls of a run issue a common timestamp in one clock sequence only in a collision between
      neighbours, or after the clock went back a multiple of 2^14 times. */
  lemma Unique(s: State, calls: seq<Call>, i: nat, j: nat, x: int)
    requires IsRun(s, calls) && i < j < |calls|
    requires Sequence(s, calls, i) == Sequence(s, calls, j)
    requires First(s, calls, i) <= x <= Last(s, calls, i) && First(s, calls, j) <= x <= Last(s, calls, j)
    ensures Backs(s, calls, i, j) % 0x4000 == 0
    ensures Backs(s, calls, i, j) == 0 ==>
      j == i + 1 && Collides(StateAfter(s, calls, j), calls[j].reading) && x == Last(s, calls, i)
  {
    hide First, Last, StateAfter;
    RunValid(s, calls, i + 1);
    SequenceCounts(s, calls, i, j);
    if Backs(s, calls, i, j) == 0 {
      EpochOrdered(s, calls, i, j);
    }
  }

  /** The UUID that call `n` makes for a node. */
  function UuidOf(s: State, calls: seq<Call>, n: nat, node: Bytes6): Bytes16
    requires IsRun(s, calls) && n < |calls| && OFFSET + First(s, calls, n) < WIDTH60
  {
    RunValid(s, calls, n + 1);
    Packed(Assembled(OFFSET + First(s, calls, n), Sequence(s, calls, n), node))
  }

  /** So over any run two calls make one UUID only in a collision between neighbours, the first of
      which was for one timestamp, or after the clock went back a multiple of 2^14 times. */
  lemma UuidsApart(s: State, calls: seq<Call>, i: nat, j: nat, node: Bytes6)
    requires IsRun(s, calls) && i < j < |calls|
    requires OFFSET + First(s, calls, i) < WIDTH60 && OFFSET + First(s, calls, j) < WIDTH60
    requires UuidOf(s, calls, i, node) == UuidOf(s, calls, j, node)
    ensures Backs(s, calls, i, j) % 0x4000 == 0
    ensures Backs(s, calls, i, j) == 0 ==>
      j == i + 1 && Collides(StateAfter(s, calls, j), calls[j].reading) && Many(calls[i].num) == 1
  {
    hide First, StateAfter, Packed, Assembled, Collides;
    RunValid(s, calls, i + 1);
    RunValid(s, calls, j + 1);
    var x, y := First(s, calls, i), First(s, calls, j);
    AssembledApart(OFFSET + x, Sequence(s, calls, i), node, OFFSET + y, Sequence(s, calls, j), node);
    assert (OFFSET + x) % WIDTH60 == OFFSET + x && (OFFSET + y) % WIDTH60 == OFFSET + y;
    Unique(s, calls, i, j, x);
  }

  /** It happens: eleven calls within one microsecond and one in the next. */
  lemma CollisionHappens(t: Reading, clockSeq: nat)
    requires clockSeq < 0x4000 && t.usec < 999_999
    ensures
      var s := State(t, 0, clockSeq);
      var calls := seq(10, _ => Call(t, 1)) + [Call(Time(t.sec, t.usec + 1), 1)];
      && IsRun(s, calls)
      && Last(s, calls, 9) == First(s, calls, 10) && Sequence(s, calls, 9) == Sequence(s, calls, 10)
  {
    var s := State(t, 0, clockSeq);
    var calls := seq(10, _ => Call(t, 1)) + [Call(Time(t.sec, t.usec + 1), 1)];
    forall n: nat | n <= 10 ensures StateAfter(s, calls, n) == State(t, n, clockSeq) {
      SameMicrosecond(s, calls, n);
    }
  }

  lemma {:induction false} SameMicrosecond(s: State, calls: seq<Call>, n: nat)
    requires n <= |calls| && s.adjustment == 0 && forall k :: 0 <= k < n ==> calls[k] == Call(s.last, 1)
    ensures StateAfter(s, calls, n) == State(s.last, n, s.clockSeq)
  {
    if n > 0 {
      SameMicrosecond(s, calls, n - 1);
    }
  }
}
