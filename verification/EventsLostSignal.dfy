/** A signal that disappears into a successful wait for any.

    With a manual-reset event in the list the index may hide a spent signal: a manual-reset
    `SetEvent` does not look at `StillWaiting` again under the record's lock, and overwrites
    the index that an auto-reset `SetEvent` has just written. */
module EventsLostSignal {
  import opened Events
  import opened EventsRuns
  import opened EventsTheorems
  import opened EventsListing

  /** The wait for any has succeeded with another index than `i`, although the auto-reset event
      at position `i` has spent a signal on it. */
  ghost predicate Lost(s: State, w: nat, i: nat) {
    w in s.waits &&
    var wt := s.waits[w];
    !wt.waitAll && wt.stage.Returned? && wt.stage.ok && i < |wt.events| && wt.events[i] < |s.events| &&
    s.events[wt.events[i]].autoReset && Registration(w, i) in s.events[wt.events[i]].served && wt.stage.result != i
  }

  /** The two events of the run, at their first positions in the list. */
  datatype Places = Places(kinds: seq<bool>, list: seq<nat>, auto: nat, manual: nat) {
    predicate Valid() {
      Names(kinds, list) && auto < |list| && manual < |list| && kinds[list[auto]] && !kinds[list[manual]] &&
      (forall k :: 0 <= k < auto ==> list[k] != list[auto]) &&
      (forall k :: 0 <= k < manual ==> list[k] != list[manual])
    }

    function AutoEvent(): nat
      requires Valid()
    {
      list[auto]
    }

    function ManualEvent(): nat
      requires Valid()
    {
      list[manual]
    }
  }

  function TheCall(p: Places): Call {
    Call(0, p.list, false)
  }

  // The auto-reset event with the wait registered, and through its `SetEvent` call.

  function A1(p: Places): Event
    requires p.Valid()
  {
    Clear(true, Queued(TheCall(p), |p.list|, p.AutoEvent()))
  }

  function A2(p: Places): Event
    requires p.Valid()
  {
    A1(p).(holder := Setter(Looking, 0), setCalls := 1)
  }

  function A3(p: Places): Event
    requires p.Valid()
  {
    A1(p).(holder := Setter(Locking, 0), setCalls := 1)
  }

  function A4(p: Places): Event
    requires p.Valid()
  {
    A1(p).(holder := Setter(Fired, 0), setCalls := 1, served := [Registration(0, p.auto)])
  }

  // The same for the manual-reset event.

  function M1(p: Places): Event
    requires p.Valid()
  {
    Clear(false, Queued(TheCall(p), |p.list|, p.ManualEvent()))
  }

  function M2(p: Places): Event
    requires p.Valid()
  {
    M1(p).(holder := Setter(Looking, 0), setCalls := 1, state := true)
  }

  function M3(p: Places): Event
    requires p.Valid()
  {
    M1(p).(holder := Setter(Locking, 0), setCalls := 1, state := true)
  }

  function M4(p: Places): Event
    requires p.Valid()
  {
    M1(p).(holder := Setter(Fired, 0), setCalls := 1, state := true, served := [Registration(0, p.manual)])
  }

  // The wait: registered on all, claimed by the auto-reset event, and with its index overwritten.

  function OnAll(p: Places): Wait {
    Wanting(TheCall(p), |p.list|)
  }

  function Asleep(p: Places): Wait {
    OnAll(p).(stage := Sleeping)
  }

  function Claimed(p: Places): Wait {
    Asleep(p).(satisfied := {p.auto}, status := p.auto, stillWaiting := false)
  }

  function Hidden(p: Places): Wait {
    Asleep(p).(satisfied := {p.auto} + {p.manual}, status := p.manual, stillWaiting := false)
  }

  /** All events as registration leaves them, but for these two. */
  function With(p: Places, a: Event, m: Event, wt: Wait): State
    requires p.Valid()
  {
    State(Queues(Start(p.kinds).events, TheCall(p), |p.list|)[p.AutoEvent() := a][p.ManualEvent() := m], map[0 := wt])
  }

  lemma AutoMoves(p: Places, a: Event, m: Event, wt: Wait, a': Event, wt': Wait)
    requires p.Valid()
    ensures Put(With(p, a, m, wt), p.AutoEvent(), a', 0, wt') == With(p, a', m, wt')
    ensures PutEvent(With(p, a, m, wt), p.AutoEvent(), a') == With(p, a', m, wt)
  {
  }

  lemma ManualMoves(p: Places, a: Event, m: Event, wt: Wait, m': Event, wt': Wait)
    requires p.Valid()
    ensures Put(With(p, a, m, wt), p.ManualEvent(), m', 0, wt') == With(p, a, m', wt')
    ensures PutEvent(With(p, a, m, wt), p.ManualEvent(), m') == With(p, a, m', wt)
  {
  }

  lemma WaitMoves(p: Places, a: Event, m: Event, wt: Wait, wt': Wait)
    requires p.Valid()
    ensures PutWait(With(p, a, m, wt), 0, wt') == With(p, a, m, wt')
  {
  }

  lemma WithAll(p: Places)
    requires p.Valid()
    ensures Upto(Start(p.kinds), TheCall(p), |p.list|) == With(p, A1(p), M1(p), OnAll(p))
  {
    StartQueues(p.kinds, TheCall(p), |p.list|);
    var all := Queues(Start(p.kinds).events, TheCall(p), |p.list|);
    assert all[p.AutoEvent()] == A1(p) && all[p.ManualEvent()] == M1(p);
    assert all[p.AutoEvent() := A1(p)][p.ManualEvent() := M1(p)] == all;
  }

  lemma AllListed(p: Places)
    requires p.Valid()
    ensures Reachable(With(p, A1(p), M1(p), OnAll(p)))
  {
    hide Reachable, With;
    StartReachable(p.kinds);
    UptoReachable(Start(p.kinds), TheCall(p), |p.list|);
    WithAll(p);
  }

  lemma FallsAsleep(p: Places)
    requires p.Valid()
    ensures Reachable(With(p, A1(p), M1(p), Asleep(p)))
  {
    AllListed(p);
    var s, wt := With(p, A1(p), M1(p), OnAll(p)), OnAll(p).(stage := Checking);
    ReachableStep(s, LoopEnd(0));
    WaitMoves(p, A1(p), M1(p), OnAll(p), wt);
    var s' := With(p, A1(p), M1(p), wt);
    ReachableStep(s', Check(0));
    WaitMoves(p, A1(p), M1(p), wt, Asleep(p));
  }

  /** Both `SetEvent` calls have seen the call waiting and are about to lock its record. */
  lemma ManualAboutToFire(p: Places)
    requires p.Valid()
    ensures Reachable(With(p, A1(p), M3(p), Asleep(p)))
  {
    FallsAsleep(p);
    QueuedFirst(TheCall(p), |p.list|, p.ManualEvent(), p.manual);
    var s := With(p, A1(p), M1(p), Asleep(p));
    ReachableStep(s, SetCall(p.ManualEvent()));
    ManualMoves(p, A1(p), M1(p), Asleep(p), M2(p), Asleep(p));
    var s' := With(p, A1(p), M2(p), Asleep(p));
    ReachableStep(s', SetLook(p.ManualEvent()));
    ManualMoves(p, A1(p), M2(p), Asleep(p), M3(p), Asleep(p));
  }

  lemma BothAboutToFire(p: Places)
    requires p.Valid()
    ensures Reachable(With(p, A3(p), M3(p), Asleep(p)))
  {
    ManualAboutToFire(p);
    QueuedFirst(TheCall(p), |p.list|, p.AutoEvent(), p.auto);
    var s := With(p, A1(p), M3(p), Asleep(p));
    ReachableStep(s, SetCall(p.AutoEvent()));
    AutoMoves(p, A1(p), M3(p), Asleep(p), A2(p), Asleep(p));
    var s' := With(p, A2(p), M3(p), Asleep(p));
    ReachableStep(s', SetLook(p.AutoEvent()));
    AutoMoves(p, A2(p), M3(p), Asleep(p), A3(p), Asleep(p));
  }

  lemma Fires(p: Places)
    requires p.Valid()
    ensures A3(p).registered != [] && FiredEvent(A3(p)) == A4(p)
    ensures M3(p).registered != [] && FiredEvent(M3(p)) == M4(p)
    ensures Fire(Asleep(p), p.auto) == Claimed(p) && Fire(Claimed(p), p.manual) == Hidden(p)
  {
    QueuedFirst(TheCall(p), |p.list|, p.AutoEvent(), p.auto);
    QueuedFirst(TheCall(p), |p.list|, p.ManualEvent(), p.manual);
    assert {} + {p.auto} == {p.auto};
  }

  /** The auto-reset event spends its signal. */
  lemma SignalSpent(p: Places)
    requires p.Valid()
    ensures Reachable(With(p, A4(p), M3(p), Claimed(p)))
  {
    BothAboutToFire(p);
    QueuedFirst(TheCall(p), |p.list|, p.AutoEvent(), p.auto);
    Fires(p);
    var s := With(p, A3(p), M3(p), Asleep(p));
    ReachableStep(s, SetLock(p.AutoEvent()));
    AutoMoves(p, A3(p), M3(p), Asleep(p), A4(p), Claimed(p));
  }

  /** The manual-reset event claims the call all the same. */
  lemma IndexOverwritten(p: Places)
    requires p.Valid()
    ensures Reachable(With(p, A4(p), M4(p), Hidden(p)))
  {
    SignalSpent(p);
    QueuedFirst(TheCall(p), |p.list|, p.ManualEvent(), p.manual);
    Fires(p);
    var s := With(p, A4(p), M3(p), Claimed(p));
    ReachableStep(s, SetLock(p.ManualEvent()));
    ManualMoves(p, A4(p), M3(p), Claimed(p), M4(p), Hidden(p));
  }

  lemma WaitOver(p: Places)
    requires p.Valid()
    ensures Reachable(With(p, A4(p), M4(p), Hidden(p).(stage := Finishing(true))))
  {
    IndexOverwritten(p);
    var s, wt := With(p, A4(p), M4(p), Hidden(p)), Hidden(p).(stage := Checking);
    ReachableStep(s, Wake(0, false));
    WaitMoves(p, A4(p), M4(p), Hidden(p), wt);
    var s' := With(p, A4(p), M4(p), wt);
    ReachableStep(s', Check(0));
    WaitMoves(p, A4(p), M4(p), wt, Hidden(p).(stage := Finishing(true)));
  }

  function Gone(p: Places): Wait {
    Hidden(p).(stage := Returned(true, p.manual), refCount := |p.list|)
  }

  function Ending(p: Places): Wait {
    Hidden(p).(stage := Leaving(true, p.manual))
  }

  lemma CallEnds(p: Places)
    requires p.Valid()
    ensures Reachable(With(p, A4(p), M4(p), Ending(p)))
  {
    WaitOver(p);
    var over := Hidden(p).(stage := Finishing(true));
    ReachableStep(With(p, A4(p), M4(p), over), Finish(0));
    WaitMoves(p, A4(p), M4(p), over, Ending(p));
  }

  lemma CallReturns(p: Places)
    requires p.Valid()
    ensures Reachable(With(p, A4(p), M4(p), Gone(p)))
  {
    CallEnds(p);
    ReachableStep(With(p, A4(p), M4(p), Ending(p)), Leave(0));
    WaitMoves(p, A4(p), M4(p), Ending(p), Gone(p));
  }

  /** Whatever the list, if it holds both kinds a run loses the signal: the call has reported a
      manual-reset event and the auto-reset event is left clear. */
  lemma SignalCanDisappear(kinds: seq<bool>, list: seq<nat>, a: nat, m: nat)
    requires Names(kinds, list) && a < |list| && m < |list| && kinds[list[a]] && !kinds[list[m]]
    ensures exists s, i: nat ::
      Reachable(s) && OfKinds(s, kinds) && 0 in s.waits && s.waits[0].events == list &&
      Lost(s, 0, i) && list[i] == list[a] && !s.events[list[i]].state && s.events[list[i]].setCalls == 1
  {
    var i := FirstNamed(list, a);
    var j := FirstNamed(list, m);
    var p := Places(kinds, list, i, j);
    CallReturns(p);
    var s := With(p, A4(p), M4(p), Gone(p));
    assert s.events[list[i]] == A4(p) && Lost(s, 0, i);
  }

  predicate SomeOfKind(kinds: seq<bool>, list: seq<nat>, kind: bool)
    requires Names(kinds, list)
  {
    exists k :: 0 <= k < |list| && kinds[list[k]] == kind
  }

  /** Some run over events of these kinds loses a signal in a wait for any on this list. */
  ghost predicate CanLose(kinds: seq<bool>, list: seq<nat>) {
    exists s, w: nat, i: nat ::
      Reachable(s) && OfKinds(s, kinds) && w in s.waits && s.waits[w].events == list && Lost(s, w, i)
  }

  /** Signals can disappear into waits on a list if and only if it holds an auto-reset and a
      manual-reset event. */
  lemma LostExactly(kinds: seq<bool>, list: seq<nat>)
    requires Names(kinds, list)
    ensures CanLose(kinds, list) <==> SomeOfKind(kinds, list, true) && SomeOfKind(kinds, list, false)
  {
    if CanLose(kinds, list) {
      var s, w: nat, i: nat :|
        Reachable(s) && OfKinds(s, kinds) && w in s.waits && s.waits[w].events == list && Lost(s, w, i);
      assert kinds[list[i]];
      if !SomeOfKind(kinds, list, false) {
        AutoIndexExact(s, w, i);
      }
    }
    if SomeOfKind(kinds, list, true) && SomeOfKind(kinds, list, false) {
      var a: nat :| a < |list| && kinds[list[a]];
      var m: nat :| m < |list| && !kinds[list[m]];
      SignalCanDisappear(kinds, list, a, m);
    }
  }
}
