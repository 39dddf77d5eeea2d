/** Only a lock or the condition variable stops a thread: which steps can be taken in every reachable
    state, that they lead to an end, and how a call ends. */
module EventsProgress {
  import opened Events
  import opened EventsInvariant
  import opened EventsRuns
  import opened EventsTheorems
  import opened EventsSignals
  import opened Basics

  // ---------------------------------------------------------------------------------------
  // Who can go on
  // ---------------------------------------------------------------------------------------

  predicate CallMoves(s: State, w: nat) {
    Enabled(s, Look(w)) || Enabled(s, Acquire(w)) || Enabled(s, Clean(w)) || Enabled(s, Try(w)) ||
    Enabled(s, Store(w)) || Enabled(s, LoopEnd(w)) || Enabled(s, Check(w)) || Enabled(s, Wake(w, false)) ||
    Enabled(s, Finish(w)) || Enabled(s, Leave(w))
  }

  /** A call that has not returned can go on, unless another thread holds the event mutex it is about
      to take. */
  lemma CallStopsForMutex(s: State, w: nat)
    requires Reachable(s) && w in s.waits
    ensures var wt := s.waits[w];
      CallMoves(s, w) <==>
        !wt.stage.Returned? &&
        (wt.stage.Blocked? ==>
          wt.next < |wt.events| && wt.events[wt.next] < |s.events| && s.events[wt.events[wt.next]].holder.Free?)
  {
    hide CallMoves, HolderOk, StageOk, EntryAlive, Reachable;
    ReachableInv(s);
    assert WaitOk(s.events, w, s.waits[w]);
    if HoldsEvent(s.waits[w].stage) {
      StageHolds(s.events, w, s.waits[w]);
      CursorEntry(s, s.waits[w].events[s.waits[w].next]);
    }
    CallStops(s, w);
  }

  lemma StageHolds(evs: seq<Event>, w: nat, wt: Wait)
    requires Listed(evs, wt) && StageOk(evs, w, wt) && HoldsEvent(wt.stage)
    ensures wt.next < |wt.events|
  {
  }

  /** If there is an entry under the cursor of the thread that holds an event, its record exists. */
  predicate EntryAlive(waits: map<nat, Wait>, ev: Event) {
    (ev.holder.Registrar? || ev.holder.Setter?) && ev.holder.cursor < |ev.registered| ==>
      ev.registered[ev.holder.cursor].wait in waits
  }

  lemma CursorEntry(s: State, e: nat)
    requires Inv(s) && e < |s.events|
    ensures HolderOk(s.waits, e, s.events[e]) && EntryAlive(s.waits, s.events[e])
  {
    hide HolderOk, NoLostSignal, Conserved, ServedOk;
    var ev := s.events[e];
    assert EventOk(s.waits, e, ev);
    if (ev.holder.Registrar? || ev.holder.Setter?) && ev.holder.cursor < |ev.registered| {
      assert EntryOk(s.waits, e, ev.registered[ev.holder.cursor]);
    }
  }

  lemma CallStops(s: State, w: nat)
    requires w in s.waits && Listed(s.events, s.waits[w]) && StageOk(s.events, w, s.waits[w])
    requires HoldsEvent(s.waits[w].stage) ==>
      s.waits[w].next < |s.waits[w].events| &&
      var e := s.waits[w].events[s.waits[w].next];
      HolderOk(s.waits, e, s.events[e]) && EntryAlive(s.waits, s.events[e])
    ensures var wt := s.waits[w];
      CallMoves(s, w) <==>
        !wt.stage.Returned? &&
        (wt.stage.Blocked? ==>
          wt.next < |wt.events| && wt.events[wt.next] < |s.events| && s.events[wt.events[wt.next]].holder.Free?)
  {
  }

  predicate SetterMoves(s: State, e: nat) {
    Enabled(s, SetLook(e)) || Enabled(s, SetLock(e)) || Enabled(s, SetRelease(e)) || Enabled(s, SetEnd(e))
  }

  /** A `SetEvent` call in progress can go on, unless it needs the record of a call that holds it. */
  lemma SetterStopsForRecord(s: State, e: nat)
    requires Reachable(s) && e < |s.events| && s.events[e].holder.Setter?
    ensures SetterMoves(s, e) <==>
      !(SetterAtEntry(s, e) && s.events[e].holder.phase.Locking? && HoldsOwnMutex(s.waits[EntryAt(s, e).wait].stage))
  {
    hide SetterMoves, HolderOk, EntryAlive, Inv, Reachable;
    ReachableInv(s);
    CursorEntry(s, e);
    SetterStops(s, e);
  }

  lemma SetterStops(s: State, e: nat)
    requires e < |s.events| && s.events[e].holder.Setter?
    requires HolderOk(s.waits, e, s.events[e]) && EntryAlive(s.waits, s.events[e])
    ensures SetterMoves(s, e) <==>
      !(SetterAtEntry(s, e) && s.events[e].holder.phase.Locking? && HoldsOwnMutex(s.waits[EntryAt(s, e).wait].stage))
  {
  }

  /** Whoever holds the mutex of an event otherwise can go on, and a free mutex can be taken. */
  lemma OthersDoNotStop(s: State, e: nat)
    requires Reachable(s) && e < |s.events|
    ensures s.events[e].holder.Free? <==> Enabled(s, SetCall(e))
    ensures s.events[e].holder.Free? <==> Enabled(s, SingleLock(e))
    ensures s.events[e].holder.SingleWaiter? <==> Enabled(s, SingleCheck(e)) || Enabled(s, SingleStore(e))
    ensures s.events[e].holder.Registrar? ==> CallMoves(s, s.events[e].holder.wait)
    ensures Enabled(s, Reset(e))
  {
    hide CallMoves, Inv, Reachable;
    ReachableInv(s);
    CursorEntry(s, e);
    if s.events[e].holder.Registrar? {
      CallStopsForMutex(s, s.events[e].holder.wait);
    }
  }

  // ---------------------------------------------------------------------------------------
  // That they get somewhere
  // ---------------------------------------------------------------------------------------

  function Rank(st: Stage): nat {
    match st
    case Entering => 9
    case Peeked => 8
    case Blocked => 7
    case Cleaning => 6
    case Taking => 5
    case Checking => 4
    case Sleeping => 3
    case Finishing(_) => 2
    case Leaving(_, _) => 1
    case Returned(_, _) => 0
  }

  /** Entries of the queue that the cleaning call has not come to. */
  function QueueLeft(s: State, w: nat): nat {
    if Registering(s, w) && s.waits[w].stage.Cleaning? then
      |s.events[Visited(s, w)].registered| - s.events[Visited(s, w)].holder.cursor
    else 0
  }

  /** The call is nearer its end: fewer events to visit, a later stage, or fewer entries to clean. */
  predicate Nearer(s: State, s': State, w: nat) {
    w in s.waits && w in s'.waits &&
    var wt, wt' := s.waits[w], s'.waits[w];
    wt'.events == wt.events &&
    (wt.next < wt'.next <= |wt.events| ||
     (wt'.next == wt.next && Rank(wt'.stage) < Rank(wt.stage)) ||
     (wt'.next == wt.next && wt'.stage == wt.stage && QueueLeft(s', w) < QueueLeft(s, w)))
  }

  predicate StepOfCall(step: Step, w: nat) {
    step == Look(w) || step == Acquire(w) || step == Clean(w) || step == Try(w) || step == Store(w) ||
    step == LoopEnd(w) || step == Check(w) || step == Wake(w, true) || step == Finish(w) || step == Leave(w)
  }

  /** Every step of a call but waking up to look again brings it nearer its end. */
  lemma CallGetsNearer(s: State, step: Step, w: nat)
    requires Enabled(s, step) && StepOfCall(step, w)
    ensures Nearer(s, Apply(s, step), w)
  {
    hide Apply, Enabled, Nearer;
    if step == Clean(w) {
      CleaningGetsNearer(s, w);
    } else if step == Try(w) || step == Store(w) || step == Look(w) {
      VisitGetsNearer(s, step, w);
    } else {
      RestGetsNearer(s, step, w);
    }
  }

  lemma CleaningGetsNearer(s: State, w: nat)
    requires Enabled(s, Clean(w))
    ensures Nearer(s, Apply(s, Clean(w)), w)
  {
  }

  lemma VisitGetsNearer(s: State, step: Step, w: nat)
    requires Enabled(s, step) && (step == Try(w) || step == Store(w) || step == Look(w))
    ensures Nearer(s, Apply(s, step), w)
  {
    hide QueueLeft;
  }

  lemma RestGetsNearer(s: State, step: Step, w: nat)
    requires Enabled(s, step) && StepOfCall(step, w)
    requires step.Acquire? || step.LoopEnd? || step.Check? || step.Wake? || step.Finish? || step.Leave?
    ensures Nearer(s, Apply(s, step), w)
  {
    hide QueueLeft;
  }

  /** And nobody takes it back. */
  lemma CallKeepsPlace(s: State, step: Step, w: nat)
    requires Reachable(s) && Enabled(s, step) && w in s.waits && !StepOfCall(step, w) && step != Wake(w, false)
    ensures var s' := Apply(s, step);
      w in s'.waits && s'.waits[w].stage == s.waits[w].stage && s'.waits[w].next == s.waits[w].next &&
      s'.waits[w].events == s.waits[w].events && QueueLeft(s', w) == QueueLeft(s, w)
  {
    hide Apply, Enabled, Inv, Reachable, QueueLeft;
    ReachableInv(s);
    RecordKeepsPlace(s, step, w);
    if s.waits[w].stage.Cleaning? {
      CleaningRegisters(s, w);
      QueueKept(s, step, w);
    }
    SameQueueLeft(s, Apply(s, step), w);
  }

  lemma CleaningRegisters(s: State, w: nat)
    requires Inv(s) && w in s.waits && s.waits[w].stage.Cleaning?
    ensures Registering(s, w)
  {
    hide StageOk, CountsOk, SatisfiedOk, AllAccounting, AnyAccounting, AutoOnce, WakeupOk;
    assert WaitOk(s.events, w, s.waits[w]);
    StageHolds(s.events, w, s.waits[w]);
    CursorEntry(s, s.waits[w].events[s.waits[w].next]);
    CleaningHolds(s.events, w, s.waits[w]);
  }

  lemma CleaningHolds(evs: seq<Event>, w: nat, wt: Wait)
    requires Listed(evs, wt) && StageOk(evs, w, wt) && HoldsEvent(wt.stage)
    ensures wt.next < |wt.events| && evs[wt.events[wt.next]].holder.Registrar? && evs[wt.events[wt.next]].holder.wait == w
  {
  }

  lemma QueueKept(s: State, step: Step, w: nat)
    requires Enabled(s, step) && Registering(s, w) && !StepOfCall(step, w)
    ensures var e := Visited(s, w);
      var ev, ev' := s.events[e], Apply(s, step).events[e];
      ev'.holder == ev.holder && ev'.registered == ev.registered
  {
    hide Apply, Enabled;
    var e := Visited(s, w);
    if Touched(s, step) == Some(e) {
      HeldByCall(s, step, e, w);
    } else {
      OthersStay(s, step, e);
    }
  }

  lemma HeldByCall(s: State, step: Step, e: nat, w: nat)
    requires Enabled(s, step) && Touched(s, step) == Some(e) && e < |s.events| && !StepOfCall(step, w)
    requires s.events[e].holder.Registrar? && s.events[e].holder.wait == w
    ensures var ev, ev' := s.events[e], Apply(s, step).events[e];
      ev'.holder == ev.holder && ev'.registered == ev.registered
  {
  }

  lemma SameQueueLeft(s: State, s': State, w: nat)
    requires w in s.waits && w in s'.waits && |s'.events| == |s.events| && s'.waits[w].stage == s.waits[w].stage
    requires s'.waits[w].next == s.waits[w].next && s'.waits[w].events == s.waits[w].events
    requires s.waits[w].stage.Cleaning? ==>
      Registering(s, w) &&
      var e := Visited(s, w);
      s'.events[e].holder == s.events[e].holder && s'.events[e].registered == s.events[e].registered
    ensures QueueLeft(s', w) == QueueLeft(s, w)
  {
  }

  lemma RecordKeepsPlace(s: State, step: Step, w: nat)
    requires Enabled(s, step) && w in s.waits && !StepOfCall(step, w) && step != Wake(w, false)
    ensures var s' := Apply(s, step);
      w in s'.waits && s'.waits[w].stage == s.waits[w].stage && s'.waits[w].next == s.waits[w].next &&
      s'.waits[w].events == s.waits[w].events && s'.waits[w].patience == s.waits[w].patience
  {
  }

  /** What is left of a `SetEvent` call, in steps. */
  function SetLeft(ev: Event): int {
    if !ev.holder.Setter? then 0
    else
      3 * (|ev.registered| - ev.holder.cursor) +
      match ev.holder.phase
      case Looking => 1
      case Locking => 0
      case Stale => -1
      case Fired => -1
  }

  predicate StepOfSetter(step: Step, e: nat) {
    step == SetLook(e) || step == SetLock(e) || step == SetRelease(e) || step == SetEnd(e)
  }

  /** A `SetEvent` call that found n registrations is done after at most 3 n + 1 steps of its own, and
      nobody can prolong it. */
  lemma SetterGetsNearer(s: State, step: Step, e: nat)
    requires Reachable(s) && Enabled(s, step) && e < |s.events| && s.events[e].holder.Setter?
    ensures var ev, ev' := s.events[e], Apply(s, step).events[e];
      if StepOfSetter(step, e) then
        SetLeft(ev') < SetLeft(ev) && (ev'.holder.Setter? ==> SetLeft(ev') > 0)
      else
        ev'.holder == ev.holder && ev'.registered == ev.registered
  {
    hide Apply, Enabled, Inv, Reachable, SetLeft;
    ReachableInv(s);
    CursorEntry(s, e);
    if StepOfSetter(step, e) {
      SetterShortens(s, step, e);
    } else if Touched(s, step) == Some(e) {
      SetterUndisturbed(s, step, e);
    } else {
      OthersStay(s, step, e);
    }
  }

  lemma SetterShortens(s: State, step: Step, e: nat)
    requires Enabled(s, step) && StepOfSetter(step, e) && e < |s.events| && HolderOk(s.waits, e, s.events[e])
    ensures var ev, ev' := s.events[e], Apply(s, step).events[e];
      SetLeft(ev') < SetLeft(ev) && (ev'.holder.Setter? ==> SetLeft(ev') > 0)
  {
  }

  lemma SetterUndisturbed(s: State, step: Step, e: nat)
    requires Enabled(s, step) && !StepOfSetter(step, e) && e < |s.events| && s.events[e].holder.Setter?
    requires Touched(s, step) == Some(e)
    ensures var ev, ev' := s.events[e], Apply(s, step).events[e];
      ev'.holder == ev.holder && ev'.registered == ev.registered
  {
  }

  lemma SetterBegins(s: State, e: nat)
    requires Enabled(s, SetCall(e))
    ensures SetLeft(Apply(s, SetCall(e)).events[e]) == 3 * |s.events[e].registered| + 1
  {
  }

  // ---------------------------------------------------------------------------------------
  // How they end
  // ---------------------------------------------------------------------------------------

  /** A call gives up only if its time has run out, and sleeps only if it has any. */
  predicate InTime(wt: Wait) {
    (wt.stage == Finishing(false) ==> !wt.patience.Infinite?) &&
    ((wt.stage.Leaving? || wt.stage.Returned?) && !wt.stage.ok ==> !wt.patience.Infinite?) &&
    (wt.stage.Sleeping? ==> !wt.patience.Zero?)
  }

  lemma InTimeKept(s: State, step: Step, w: nat)
    requires Enabled(s, step) && w in Apply(s, step).waits && (w in s.waits ==> InTime(s.waits[w]))
    ensures InTime(Apply(s, step).waits[w])
  {
    hide Apply, Enabled, InTime;
    if step == Check(w) || step == Wake(w, true) || step == Wake(w, false) || step == Finish(w) || step == Leave(w) {
      InTimeAtEnd(s, step, w);
    } else if StepOfCall(step, w) {
      InTimeByCall(s, step, w);
    } else {
      InTimeByOthers(s, step, w);
    }
  }

  lemma InTimeAtEnd(s: State, step: Step, w: nat)
    requires Enabled(s, step) && (w in s.waits ==> InTime(s.waits[w]))
    requires step == Check(w) || step == Wake(w, true) || step == Wake(w, false) || step == Finish(w) || step == Leave(w)
    ensures w in Apply(s, step).waits ==> InTime(Apply(s, step).waits[w])
  {
  }

  lemma InTimeByCall(s: State, step: Step, w: nat)
    requires Enabled(s, step) && StepOfCall(step, w) && (w in s.waits ==> InTime(s.waits[w]))
    requires step.Look? || step.Acquire? || step.Clean? || step.Try? || step.Store? || step.LoopEnd?
    ensures w in Apply(s, step).waits ==> InTime(Apply(s, step).waits[w])
  {
  }

  lemma InTimeByOthers(s: State, step: Step, w: nat)
    requires Enabled(s, step) && !StepOfCall(step, w) && step != Wake(w, false) && (w in s.waits ==> InTime(s.waits[w]))
    ensures w in Apply(s, step).waits ==> InTime(Apply(s, step).waits[w])
  {
    hide Apply, Enabled;
    if w in s.waits {
      RecordKeepsPlace(s, step, w);
    } else {
      InTimeAtFirst(s, step, w);
    }
  }

  lemma InTimeAtFirst(s: State, step: Step, w: nat)
    requires Enabled(s, step) && w !in s.waits
    ensures w in Apply(s, step).waits ==> Apply(s, step).waits[w].stage.Entering?
  {
  }

  lemma {:induction false} RunInTime(run: seq<State>, steps: seq<Step>, n: nat, w: nat)
    requires IsRun(run, steps) && n <= |steps| && w in run[n].waits
    ensures InTime(run[n].waits[w])
  {
    hide Apply, Enabled, InTime;
    if n > 0 {
      if w in run[n - 1].waits {
        RunInTime(run, steps, n - 1, w);
      }
      InTimeKept(run[n - 1], steps[n - 1], w);
    }
  }

  /** A call without a time limit returns only if its wait is over, and one that may not wait never
      sleeps. */
  lemma GivesUpInTime(s: State, w: nat)
    requires Reachable(s) && w in s.waits
    ensures var wt := s.waits[w];
      (wt.stage.Returned? && !wt.stage.ok ==> !wt.patience.Infinite?) && (wt.stage.Sleeping? ==> !wt.patience.Zero?)
  {
    hide Apply, Enabled;
    var run, steps :| IsRun(run, steps) && run[|steps|] == s;
    RunInTime(run, steps, |steps|, w);
  }

  /** A single wait on a free event: it obtains the event exactly if it is set, clears it then if it is
      auto-reset, and changes nothing else. */
  lemma SingleWaitTakes(s: State, e: nat)
    requires e < |s.events| && s.events[e].holder.Free?
    ensures Enabled(s, SingleLock(e)) && Enabled(Apply(s, SingleLock(e)), SingleCheck(e))
    ensures
      var s' := Apply(Apply(s, SingleLock(e)), SingleCheck(e));
      if s.events[e].state && s.events[e].autoReset then
        Enabled(s', SingleStore(e)) &&
        Apply(s', SingleStore(e)) ==
          s.(events := s.events[e := s.events[e].(state := false, singles := s.events[e].singles + 1)])
      else s' == s
  {
    var s1 := Apply(s, SingleLock(e));
    var s2 := Apply(s1, SingleCheck(e));
    if s.events[e].state && s.events[e].autoReset {
      assert Apply(s2, SingleStore(e)).events ==
        s.events[e := s.events[e].(state := false, singles := s.events[e].singles + 1)];
    } else {
      assert s2.events == s.events;
    }
  }

  /** A call that comes to a set manual-reset event takes it with two looks and no lock; an event that
      is auto-reset or clear it goes on to lock. */
  lemma LookTakes(s: State, w: nat)
    requires Enabled(s, Look(w)) && s.waits[w].stage.Entering?
    ensures
      var ev, wt, s' := s.events[Visited(s, w)], s.waits[w], Apply(s, Look(w));
      if !ev.autoReset && ev.state then
        Enabled(s', Look(w)) &&
        var s'' := Apply(s', Look(w));
        s''.waits[w].satisfied == wt.satisfied + {wt.next} && !s''.waits[w].stage.Peeked? &&
        s''.events[Visited(s, w)] == ev.(served := ev.served + [Registration(w, wt.next)])
      else s'.waits[w].stage.Blocked? && s'.events == s.events
  {
  }

  /** Timing out is final, whatever has been signalled meanwhile. */
  lemma TimeoutIsFinal(s: State, w: nat)
    requires Enabled(s, Wake(w, true))
    ensures var s1 := Apply(s, Wake(w, true));
      Enabled(s1, Finish(w)) && Enabled(Apply(s1, Finish(w)), Leave(w)) &&
      var wt := Apply(Apply(s1, Finish(w)), Leave(w)).waits[w];
      wt.stage == Returned(false, s.waits[w].status) && !wt.stillWaiting && wt.satisfied == s.waits[w].satisfied
  {
  }

  /** A sleeping call whose wait is over returns success when it wakes up, with the index in its record. */
  lemma SleeperSucceeds(s: State, w: nat)
    requires Enabled(s, Wake(w, false)) && Done(s.waits[w])
    ensures
      var s1 := Apply(s, Wake(w, false));
      Enabled(s1, Check(w)) &&
      var s2 := Apply(s1, Check(w));
      Enabled(s2, Finish(w)) &&
      var s3 := Apply(s2, Finish(w));
      Enabled(s3, Leave(w)) && Apply(s3, Leave(w)).waits[w].stage == Returned(true, s.waits[w].status)
  {
  }

  // ---------------------------------------------------------------------------------------
  // Waits that are over
  // ---------------------------------------------------------------------------------------

  /** `SetEvent` passes over the registration of a wait that is over: it does not lock the record, spends
      nothing on it, and gives the reference back. */
  lemma OverIsPassedOver(s: State, e: nat)
    requires Enabled(s, SetLook(e)) && !s.waits[EntryAt(s, e).wait].stillWaiting
    ensures
      var v, s1 := EntryAt(s, e).wait, Apply(s, SetLook(e));
      Enabled(s1, SetRelease(e)) &&
      var s2 := Apply(s1, SetRelease(e));
      s2.events[e].served == s.events[e].served && s2.events[e].holder.Setter? &&
      s2.waits == s.waits[v := Release(s.waits[v], 1)]
  {
    var v := EntryAt(s, e).wait;
    assert Release(s.waits[v].(signalled := s.waits[v].signalled || false), 1) == Release(s.waits[v], 1);
  }

  /** The call that cleans the queue of `e` has removed what it has seen of the wait `v`, which is over. */
  predicate Purged(s: State, e: nat, w: nat, v: nat) {
    e < |s.events| && v in s.waits && !s.waits[v].stillWaiting &&
    var ev := s.events[e];
    ev.holder.Registrar? && ev.holder.wait == w && ev.holder.cursor <= |ev.registered| &&
    forall k :: 0 <= k < ev.holder.cursor ==> ev.registered[k].wait != v
  }

  lemma PurgeBegins(s: State, w: nat, v: nat)
    requires Enabled(s, Acquire(w)) && v in s.waits && !s.waits[v].stillWaiting && v != w
    ensures Purged(Apply(s, Acquire(w)), Visited(s, w), w, v)
  {
  }

  lemma PurgeGoesOn(s: State, step: Step, e: nat, w: nat, v: nat)
    requires Enabled(s, step) && Purged(s, e, w, v) && Apply(s, step).events[e].holder.Registrar?
    ensures Purged(Apply(s, step), e, w, v)
  {
    hide Apply, Enabled, Purged;
    OverStaysOver(s, step, e, w, v);
    if Touched(s, step) == Some(e) {
      PurgeTouched(s, step, e, w, v);
    } else {
      OthersStay(s, step, e);
      SameEventPurged(s, Apply(s, step), e, w, v);
    }
  }

  lemma OverStaysOver(s: State, step: Step, e: nat, w: nat, v: nat)
    requires Enabled(s, step) && Purged(s, e, w, v)
    ensures e < |s.events| && v in Apply(s, step).waits && !Apply(s, step).waits[v].stillWaiting
  {
  }

  lemma SameEventPurged(s: State, s': State, e: nat, w: nat, v: nat)
    requires Purged(s, e, w, v) && e < |s'.events| && s'.events[e] == s.events[e]
    requires v in s'.waits && !s'.waits[v].stillWaiting
    ensures Purged(s', e, w, v)
  {
  }

  lemma PurgeTouched(s: State, step: Step, e: nat, w: nat, v: nat)
    requires Enabled(s, step) && Touched(s, step) == Some(e) && Purged(s, e, w, v)
    requires v in Apply(s, step).waits && !Apply(s, step).waits[v].stillWaiting
    requires Apply(s, step).events[e].holder.Registrar?
    ensures Purged(Apply(s, step), e, w, v)
  {
  }

  /** From the step in which a call locks an event to the one in which it tries it, it removes every
      registration of a wait that was over at the first. */
  lemma RunPurges(run: seq<State>, steps: seq<Step>, i: nat, j: nat, e: nat, w: nat, v: nat)
    requires IsRun(run, steps) && i < j < |steps| && steps[i] == Acquire(w) && steps[j] == Try(w)
    requires Visiting(run[i], w) && Visited(run[i], w) == e && Visiting(run[j], w) && Visited(run[j], w) == e
    requires v in run[i].waits && v != w && !run[i].waits[v].stillWaiting
    requires forall k :: i < k <= j ==> e < |run[k].events| && run[k].events[e].holder.Registrar?
    ensures forall r :: r in run[j].events[e].registered ==> r.wait != v
  {
    hide Apply, Enabled, Purged, Visited, Visiting;
    PurgedUpTo(run, steps, i, j, e, w, v);
    assert Enabled(run[j], steps[j]);
    PurgedWhenTried(run[j], e, w, v);
  }

  lemma {:induction false} PurgedUpTo(run: seq<State>, steps: seq<Step>, i: nat, j: nat, e: nat, w: nat, v: nat)
    requires IsRun(run, steps) && i < j <= |steps| && steps[i] == Acquire(w)
    requires Visiting(run[i], w) && Visited(run[i], w) == e
    requires v in run[i].waits && v != w && !run[i].waits[v].stillWaiting
    requires forall k :: i < k <= j ==> e < |run[k].events| && run[k].events[e].holder.Registrar?
    ensures Purged(run[j], e, w, v)
  {
    hide Apply, Enabled, Purged, Visited, Visiting;
    if j == i + 1 {
      PurgeBegins(run[i], w, v);
    } else {
      PurgedUpTo(run, steps, i, j - 1, e, w, v);
      assert run[j - 1 + 1] == Apply(run[j - 1], steps[j - 1]);
      PurgeGoesOn(run[j - 1], steps[j - 1], e, w, v);
    }
  }

  lemma PurgedWhenTried(s: State, e: nat, w: nat, v: nat)
    requires Enabled(s, Try(w)) && Visited(s, w) == e && Purged(s, e, w, v)
    ensures forall r :: r in s.events[e].registered ==> r.wait != v
  {
  }
}
