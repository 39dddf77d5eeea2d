/** Waiters and `SetEvent` calls that wait for each other's mutexes.

    A call of `WaitForMultipleEvents` keeps its record locked while it locks one event after
    the other; a `SetEvent` call keeps its event locked while it locks a registered record. */
module EventsDeadlock {
  import opened Events
  import opened EventsInvariant
  import opened EventsRuns
  import opened EventsTheorems
  import opened EventsListing

  /** The call `w` needs an event whose `SetEvent` call needs the record of a call in `knot`. */
  ghost predicate Stuck(s: State, w: nat, knot: set<nat>) {
    Visiting(s, w) && s.waits[w].stage.Blocked? &&
    var e := Visited(s, w);
    SetterAtEntry(s, e) && s.events[e].holder.phase.Locking? && EntryAt(s, e).wait in knot
  }

  /** Calls that can only be let go by one another. */
  ghost predicate Knot(s: State, knot: set<nat>) {
    knot != {} && forall w :: w in knot ==> Stuck(s, w, knot)
  }

  /** Neither the calls nor the `SetEvent` calls they wait for can take a step, and nothing that
      anybody else does changes that. */
  lemma KnotStays(s: State, knot: set<nat>, step: Step)
    requires Knot(s, knot) && Enabled(s, step)
    ensures Knot(Apply(s, step), knot)
  {
    forall w | w in knot ensures Stuck(Apply(s, step), w, knot) {
      StuckStays(s, w, knot, step);
    }
  }

  /** So the calls never return, in any continuation of the run. */
  lemma {:induction false} KnotForever(run: seq<State>, steps: seq<Step>, i: nat, k: nat, knot: set<nat>)
    requires IsRun(run, steps) && i <= k <= |steps| && Knot(run[i], knot)
    ensures Knot(run[k], knot)
    decreases k
  {
    hide Knot, Enabled, Apply;
    if i < k {
      KnotForever(run, steps, i, k - 1, knot);
      KnotStays(run[k - 1], knot, steps[k - 1]);
    }
  }

  lemma StuckStays(s: State, w: nat, knot: set<nat>, step: Step)
    requires Knot(s, knot) && Enabled(s, step) && w in knot
    ensures Stuck(Apply(s, step), w, knot)
  {
    hide Apply, Enabled;
    assert Stuck(s, w, knot);
    var v := Blocker(s, w, knot);
    assert Stuck(s, v, knot);
    WaitKept(s, w, knot, step);
    WaitKept(s, v, knot, step);
    if OfCall(step) {
      CallsPass(s, Visited(s, w), step);
    } else {
      SettersPass(s, Visited(s, w), step);
    }
    StillStuck(s, Apply(s, step), w, knot);
  }

  /** The call in the knot whose record is wanted. */
  ghost function Blocker(s: State, w: nat, knot: set<nat>): (v: nat)
    requires Stuck(s, w, knot)
    ensures v in knot
  {
    EntryAt(s, Visited(s, w)).wait
  }

  ghost predicate SameWait(s: State, s': State, w: nat) {
    w in s.waits && w in s'.waits &&
    s'.waits[w].stage == s.waits[w].stage && s'.waits[w].next == s.waits[w].next && s'.waits[w].events == s.waits[w].events
  }

  ghost predicate SameEvent(s: State, s': State, e: nat)
    requires e < |s.events|
  {
    |s'.events| == |s.events| &&
    s'.events[e].holder == s.events[e].holder && s'.events[e].registered == s.events[e].registered
  }

  lemma StillStuck(s: State, s': State, w: nat, knot: set<nat>)
    requires Stuck(s, w, knot) && SameWait(s, s', w) && SameWait(s, s', Blocker(s, w, knot))
    requires SameEvent(s, s', Visited(s, w))
    ensures Stuck(s', w, knot)
  {
  }

  lemma WaitKept(s: State, w: nat, knot: set<nat>, step: Step)
    requires Stuck(s, w, knot) && Enabled(s, step)
    ensures SameWait(s, Apply(s, step), w)
  {
    hide Apply, Enabled, Stuck;
    if OfCall(step) {
      KeptByCalls(s, w, knot, step);
    } else {
      KeptBySetters(s, w, knot, step);
    }
  }

  lemma KeptByCalls(s: State, w: nat, knot: set<nat>, step: Step)
    requires Stuck(s, w, knot) && Enabled(s, step) && OfCall(step)
    ensures SameWait(s, Apply(s, step), w)
  {
  }

  lemma KeptBySetters(s: State, w: nat, knot: set<nat>, step: Step)
    requires Stuck(s, w, knot) && Enabled(s, step) && !OfCall(step)
    ensures SameWait(s, Apply(s, step), w)
  {
  }

  /** The event's `SetEvent` call needs a locked record. */
  ghost predicate Waiting(s: State, e: nat) {
    SetterAtEntry(s, e) && s.events[e].holder.phase.Locking? && HoldsOwnMutex(s.waits[EntryAt(s, e).wait].stage)
  }

  predicate OfCall(step: Step) {
    step.Begin? || step.Look? || step.Acquire? || step.Clean? || step.Try? || step.Store? || step.LoopEnd? ||
    step.Check? || step.Wake? || step.Finish? || step.Leave?
  }

  lemma CallsPass(s: State, e: nat, step: Step)
    requires Waiting(s, e) && Enabled(s, step) && OfCall(step)
    ensures SameEvent(s, Apply(s, step), e)
  {
  }

  lemma SettersPass(s: State, e: nat, step: Step)
    requires Waiting(s, e) && Enabled(s, step) && !OfCall(step)
    ensures SameEvent(s, Apply(s, step), e)
  {
  }

  // ---------------------------------------------------------------------------------------
  // Which lists can do this
  // ---------------------------------------------------------------------------------------

  ghost predicate IsCall(s: State, w: nat, list: seq<nat>, all: bool) {
    w in s.waits && s.waits[w].events == list && s.waits[w].waitAll == all
  }

  /** One call alone: it waits for an event that is being set for it. */
  ghost predicate SelfLocked(s: State, w: nat) {
    Knot(s, {w})
  }

  ghost predicate CanLockItself(kinds: seq<bool>, list: seq<nat>, all: bool) {
    exists s, w: nat :: Reachable(s) && OfKinds(s, kinds) && IsCall(s, w, list, all) && SelfLocked(s, w)
  }

  predicate Repeats(list: seq<nat>) {
    exists i, j :: 0 <= i < j < |list| && list[i] == list[j]
  }

  /** Two calls: each waits for an event that is being set for the other. */
  ghost predicate LockedUp(s: State, v: nat, w: nat) {
    v != w && Stuck(s, v, {w}) && Stuck(s, w, {v})
  }

  ghost predicate CanLockUp(kinds: seq<bool>, list1: seq<nat>, all1: bool, list2: seq<nat>, all2: bool) {
    exists s, v: nat, w: nat ::
      Reachable(s) && OfKinds(s, kinds) && IsCall(s, v, list1, all1) && IsCall(s, w, list2, all2) && LockedUp(s, v, w)
  }

  /** `list1` comes from one event to another, and `list2` comes from the second to the first. */
  predicate Crosses(list1: seq<nat>, list2: seq<nat>, i: nat, p: nat, j: nat, q: nat) {
    i < p < |list1| && j < q < |list2| && list1[i] == list2[q] && list1[p] == list2[j] && list1[i] != list1[p]
  }

  ghost predicate Opposed(list1: seq<nat>, list2: seq<nat>) {
    exists i: nat, p: nat, j: nat, q: nat :: Crosses(list1, list2, i, p, j, q)
  }

  lemma LockedUpIsKnot(s: State, v: nat, w: nat)
    requires LockedUp(s, v, w)
    ensures Knot(s, {v, w})
  {
  }

  /** The entry that the `SetEvent` call is locking was left at an earlier position of its call. */
  lemma LeftEarlier(s: State, w: nat, v: nat) returns (i: nat)
    requires Reachable(s) && Stuck(s, w, {v})
    ensures v in s.waits && i < s.waits[v].next <= |s.waits[v].events| && s.waits[v].events[i] == Visited(s, w)
  {
    ReachableInv(s);
    var e := Visited(s, w);
    assert EventOk(s.waits, e, s.events[e]);
    assert EntryOk(s.waits, e, EntryAt(s, e));
    assert WaitOk(s.events, v, s.waits[v]);
    i := EntryAt(s, e).index;
  }

  lemma NeedsRepetition(s: State, w: nat)
    requires Reachable(s) && w in s.waits && SelfLocked(s, w)
    ensures Repeats(s.waits[w].events)
  {
    assert Stuck(s, w, {w});
    var i := LeftEarlier(s, w, w);
    assert s.waits[w].events[i] == s.waits[w].events[s.waits[w].next];
  }

  lemma NeedsOpposition(s: State, v: nat, w: nat)
    requires Reachable(s) && v in s.waits && w in s.waits && LockedUp(s, v, w)
    ensures Opposed(s.waits[v].events, s.waits[w].events)
  {
    var j := LeftEarlier(s, v, w);
    var i := LeftEarlier(s, w, v);
    assert Crosses(s.waits[v].events, s.waits[w].events, i, s.waits[v].next, j, s.waits[w].next);
  }

  // How a run gets there

  lemma CallLooks(s: State, w: nat)
    requires Reachable(s) && Visiting(s, w) && s.waits[w].stage.Entering? && !s.events[Visited(s, w)].state
    ensures Reachable(PutWait(s, w, s.waits[w].(stage := Blocked)))
  {
    ReachableStep(s, Look(w));
  }

  /** A `SetEvent` call locks a free event and sees its first registered call waiting. */
  function SetterAtFirst(s: State, e: nat): State
    requires e < |s.events|
  {
    PutEvent(s, e, Called(s.events[e]).(holder := Setter(Locking, 0)))
  }

  lemma SetterComes(s: State, e: nat)
    requires Reachable(s) && e < |s.events| && s.events[e].holder.Free? && s.events[e].registered != []
    requires var v := s.events[e].registered[0].wait; v in s.waits && s.waits[v].stillWaiting
    ensures Reachable(SetterAtFirst(s, e))
  {
    ReachableStep(s, SetCall(e));
    var s' := PutEvent(s, e, Called(s.events[e]));
    ReachableStep(s', SetLook(e));
    assert Apply(s', SetLook(e)) == SetterAtFirst(s, e);
  }

  lemma StartReady(kinds: seq<bool>, c: Call)
    requires Names(kinds, c.list)
    ensures Ready(Start(kinds), c)
  {
  }

  /** The call has come back to an event it is registered on. */
  lemma ComesBack(kinds: seq<bool>, c: Call, j: nat, i: nat)
    requires Names(kinds, c.list) && i < j < |c.list| && c.list[i] == c.list[j]
    ensures var s := BlockedAt(Start(kinds), c, j);
      OfKinds(s, kinds) && IsCall(s, c.wait, c.list, c.all) && Visiting(s, c.wait) &&
      s.waits[c.wait].stage.Blocked? && s.waits[c.wait].stillWaiting && Visited(s, c.wait) == c.list[j] &&
      var ev := s.events[c.list[j]]; ev.holder.Free? && ev.registered != [] && ev.registered[0].wait == c.wait
  {
    StartQueues(kinds, c, j);
    var k := FirstNamed(c.list, i);
    QueuedFirst(c, j, c.list[j], k);
  }

  /** That event is being set for its earlier registration. */
  lemma LocksItself(kinds: seq<bool>, list: seq<nat>, all: bool, i: nat, j: nat)
    requires Names(kinds, list) && i < j < |list| && list[i] == list[j]
    ensures CanLockItself(kinds, list, all)
  {
    hide Enabled, Apply, Reachable, Ready, BlockedAt;
    var c := Call(0, list, all);
    StartReachable(kinds);
    StartReady(kinds, c);
    UptoReachable(Start(kinds), c, j);
    Looks(Start(kinds), c, j);
    ComesBack(kinds, c, j, i);
    var s := BlockedAt(Start(kinds), c, j);
    SetterComes(s, list[j]);
    var s' := SetterAtFirst(s, list[j]);
    assert Stuck(s', 0, {0}) && IsCall(s', 0, list, all) && OfKinds(s', kinds);
  }

  /** A call can lock itself up for ever if and only if its list names an event twice. */
  lemma LocksItselfExactly(kinds: seq<bool>, list: seq<nat>, all: bool)
    requires Names(kinds, list)
    ensures CanLockItself(kinds, list, all) <==> Repeats(list)
  {
    if CanLockItself(kinds, list, all) {
      var s, w: nat :| Reachable(s) && OfKinds(s, kinds) && IsCall(s, w, list, all) && SelfLocked(s, w);
      NeedsRepetition(s, w);
    }
    if Repeats(list) {
      var i: nat, j: nat :| i < j < |list| && list[i] == list[j];
      LocksItself(kinds, list, all, i, j);
    }
  }

  /** Both calls have registered up to the positions at which they meet. */
  function Met(kinds: seq<bool>, c: Call, p: nat, d: Call, q: nat): State
    requires p <= |c.list| && q <= |d.list|
  {
    Upto(Upto(Start(kinds), c, p), d, q)
  }

  lemma Meet(kinds: seq<bool>, c: Call, p: nat, d: Call, q: nat)
    requires Names(kinds, c.list) && Names(kinds, d.list) && c.wait != d.wait && p <= |c.list| && q <= |d.list|
    ensures Reachable(Met(kinds, c, p, d, q)) && Calm(Met(kinds, c, p, d, q))
    ensures var s := Met(kinds, c, p, d, q);
      s.waits == map[c.wait := Wanting(c, p), d.wait := Wanting(d, q)] && |s.events| == |kinds| &&
      forall e :: 0 <= e < |kinds| ==> s.events[e] == Clear(kinds[e], Queued(c, p, e) + Queued(d, q, e))
  {
    hide Reachable;
    StartReachable(kinds);
    StartReady(kinds, c);
    UptoReachable(Start(kinds), c, p);
    UptoCalm(Start(kinds), c, p);
    UptoReachable(Upto(Start(kinds), c, p), d, q);
    UptoCalm(Upto(Start(kinds), c, p), d, q);
    StartQueues(kinds, c, p);
  }

  /** Both are waiting for their next events. */
  function BothBlocked(kinds: seq<bool>, c: Call, p: nat, d: Call, q: nat): State
    requires p <= |c.list| && q <= |d.list|
  {
    var s := PutWait(Met(kinds, c, p, d, q), c.wait, Wanting(c, p).(stage := Blocked));
    PutWait(s, d.wait, Wanting(d, q).(stage := Blocked))
  }

  lemma BothLook(kinds: seq<bool>, c: Call, p: nat, d: Call, q: nat)
    requires Names(kinds, c.list) && Names(kinds, d.list) && c.wait != d.wait && p < |c.list| && q < |d.list|
    ensures Reachable(BothBlocked(kinds, c, p, d, q))
  {
    hide Reachable, Met;
    Meet(kinds, c, p, d, q);
    var s := Met(kinds, c, p, d, q);
    CallLooks(s, c.wait);
    CallLooks(PutWait(s, c.wait, Wanting(c, p).(stage := Blocked)), d.wait);
  }

  /** If `c` has not met its next event before, the `SetEvent` calls on both events find the other
      call first. */
  lemma Crossing(kinds: seq<bool>, c: Call, d: Call, i: nat, p: nat, j: nat, q: nat) returns (s: State)
    requires Names(kinds, c.list) && Names(kinds, d.list) && c.wait != d.wait && Crosses(c.list, d.list, i, p, j, q)
    requires forall k :: 0 <= k < p ==> c.list[k] != c.list[p]
    ensures Reachable(s) && OfKinds(s, kinds) && LockedUp(s, c.wait, d.wait)
    ensures IsCall(s, c.wait, c.list, c.all) && IsCall(s, d.wait, d.list, d.all)
  {
    hide Enabled, Apply, Reachable, Met;
    var e, f := c.list[p], d.list[q];
    QueuedNone(c, p, e);
    var k := FirstNamed(d.list, j);
    QueuedFirst(d, q, e, k);
    var l := FirstNamed(c.list, i);
    QueuedFirst(c, p, f, l);
    Meet(kinds, c, p, d, q);
    BothLook(kinds, c, p, d, q);
    var s4 := BothBlocked(kinds, c, p, d, q);
    SetterComes(s4, e);
    SetterComes(SetterAtFirst(s4, e), f);
    s := SetterAtFirst(SetterAtFirst(s4, e), f);
  }

  /** Two calls can lock each other up for ever if and only if their lists come to two different
      events in opposite orders. */
  lemma LockUpExactly(kinds: seq<bool>, list1: seq<nat>, all1: bool, list2: seq<nat>, all2: bool)
    requires Names(kinds, list1) && Names(kinds, list2)
    ensures CanLockUp(kinds, list1, all1, list2, all2) <==> Opposed(list1, list2)
  {
    if CanLockUp(kinds, list1, all1, list2, all2) {
      var s, v: nat, w: nat :|
        Reachable(s) && OfKinds(s, kinds) && IsCall(s, v, list1, all1) && IsCall(s, w, list2, all2) && LockedUp(s, v, w);
      NeedsOpposition(s, v, w);
    }
    if Opposed(list1, list2) {
      LocksUp(kinds, list1, all1, list2, all2);
    }
  }

  /** Which of the calls registers first, and on which event each stops, depends on where the two
      events come first in the lists. */
  lemma LocksUp(kinds: seq<bool>, list1: seq<nat>, all1: bool, list2: seq<nat>, all2: bool)
    requires Names(kinds, list1) && Names(kinds, list2) && Opposed(list1, list2)
    ensures CanLockUp(kinds, list1, all1, list2, all2)
  {
    hide Reachable, LockedUp;
    var i: nat, p: nat, j: nat, q: nat :| Crosses(list1, list2, i, p, j, q);
    var c, d := Call(0, list1, all1), Call(1, list2, all2);
    var i0 := FirstNamed(list1, i);
    var p0 := FirstNamed(list1, p);
    var j0 := FirstNamed(list2, j);
    var q0 := FirstNamed(list2, q);
    if i0 < p0 {
      var s := Crossing(kinds, c, d, i0, p0, j, q);
    } else if j0 < q0 {
      var s := Crossing(kinds, d, c, j0, q0, i, p);
      LockedUpBoth(s, 1, 0);
    } else {
      var s := Crossing(kinds, c, d, p0, i0, q0, j0);
    }
  }

  lemma LockedUpBoth(s: State, v: nat, w: nat)
    requires LockedUp(s, v, w)
    ensures LockedUp(s, w, v)
  {
  }
}
