/** Every step of the event machine keeps the invariant. */
module EventsSteps {
  import opened Events
  import opened EventsInvariant

  // ---------------------------------------------------------------------------------------
  // Steps of a single record
  // ---------------------------------------------------------------------------------------

  lemma NoEntriesFor(s: State, w: nat)
    requires Inv(s) && w !in s.waits
    ensures Registrations(s.events, w) == 0 && Outstanding(s.events, w) == 0
  {
    forall e | 0 <= e < |s.events|
      ensures Count(Live(s.events[e]), w) == 0 && Count(Unfired(s.events[e]), w) == 0
    {
      CountZero(Live(s.events[e]), w);
      CountZero(Unfired(s.events[e]), w);
    }
    TotalsZero(s.events, w);
  }

  lemma NewWaitOk(evs: seq<Event>, w: nat, list: seq<nat>, all: bool, patience: Patience)
    requires Registrations(evs, w) == 0 && Outstanding(evs, w) == 0
    requires Listed(evs, NewWait(list, all, patience))
    ensures WaitOk(evs, w, NewWait(list, all, patience))
  {
  }

  lemma NewWaitUnseen(waits: map<nat, Wait>, e: nat, ev: Event, w: nat, wt: Wait)
    requires w !in waits && EventOk(waits, e, ev)
    ensures EventOk(waits[w := wt], e, ev)
  {
  }

  lemma BeginKeeps(s: State, w: nat, list: seq<nat>, all: bool, patience: Patience)
    requires Inv(s) && Enabled(s, Begin(w, list, all, patience))
    ensures Inv(PutWait(s, w, NewWait(list, all, patience)))
  {
    NoEntriesFor(s, w);
    NewWaitOk(s.events, w, list, all, patience);
    forall e | 0 <= e < |s.events|
      ensures EventOk(s.waits[w := NewWait(list, all, patience)], e, s.events[e])
    {
      NewWaitUnseen(s.waits, e, s.events[e], w, NewWait(list, all, patience));
    }
  }

  /** A call that holds no event moves to another stage. */
  lemma RestageKeeps(s: State, w: nat, wt': Wait)
    requires Inv(s) && w in s.waits
    requires wt' == s.waits[w].(stage := wt'.stage, stillWaiting := wt'.stillWaiting, signalled := wt'.signalled,
                                refCount := wt'.refCount, frees := wt'.frees)
    requires !HoldsEvent(s.waits[w].stage) && (!s.waits[w].stillWaiting ==> !wt'.stillWaiting)
    requires WaitOk(s.events, w, wt')
    ensures Inv(PutWait(s, w, wt'))
  {
    FrameWait(s, w, wt');
  }

  lemma BlockOk(evs: seq<Event>, w: nat, wt: Wait)
    requires WaitOk(evs, w, wt) && (wt.stage.Entering? || wt.stage.Peeked?) && wt.next < |wt.events|
    ensures WaitOk(evs, w, wt.(stage := Blocked))
  {
  }

  lemma PeekOk(evs: seq<Event>, w: nat, wt: Wait)
    requires WaitOk(evs, w, wt) && wt.stage.Entering? && wt.next < |wt.events| && !evs[wt.events[wt.next]].autoReset
    ensures WaitOk(evs, w, wt.(stage := Peeked))
  {
  }

  lemma LoopEndOk(evs: seq<Event>, w: nat, wt: Wait)
    requires WaitOk(evs, w, wt) && wt.stage.Entering? && wt.next == |wt.events|
    ensures WaitOk(evs, w, wt.(stage := Checking))
  {
  }

  lemma CheckDoneOk(evs: seq<Event>, w: nat, wt: Wait)
    requires WaitOk(evs, w, wt) && wt.stage.Checking? && Done(wt)
    ensures WaitOk(evs, w, wt.(stage := Finishing(true)))
  {
  }

  lemma GiveUpOk(evs: seq<Event>, w: nat, wt: Wait)
    requires WaitOk(evs, w, wt) && (wt.stage.Checking? || wt.stage.Sleeping?)
    ensures WaitOk(evs, w, wt.(stage := Finishing(false)))
  {
  }

  lemma SleepOk(evs: seq<Event>, w: nat, wt: Wait)
    requires WaitOk(evs, w, wt) && wt.stage.Checking? && !Done(wt)
    ensures WaitOk(evs, w, wt.(stage := Sleeping, signalled := false))
  {
  }

  lemma AwakeOk(evs: seq<Event>, w: nat, wt: Wait)
    requires WaitOk(evs, w, wt) && wt.stage.Sleeping?
    ensures WaitOk(evs, w, wt.(stage := Checking))
  {
  }

  lemma FinishOk(evs: seq<Event>, w: nat, wt: Wait)
    requires WaitOk(evs, w, wt) && wt.stage.Finishing?
    ensures WaitOk(evs, w, Finished(wt))
  {
  }

  lemma LeaveOk(evs: seq<Event>, w: nat, wt: Wait)
    requires WaitOk(evs, w, wt) && wt.stage.Leaving?
    ensures WaitOk(evs, w, Left(wt))
  {
  }

  lemma CheckKeeps(s: State, w: nat)
    requires Inv(s) && Enabled(s, Check(w))
    ensures Inv(PutWait(s, w, DoCheck(s.waits[w])))
  {
    var wt := s.waits[w];
    if Done(wt) {
      CheckDoneOk(s.events, w, wt);
    } else if wt.patience.Zero? {
      GiveUpOk(s.events, w, wt);
    } else {
      SleepOk(s.events, w, wt);
    }
    RestageKeeps(s, w, DoCheck(wt));
  }

  lemma WakeKeeps(s: State, w: nat, timedOut: bool)
    requires Inv(s) && Enabled(s, Wake(w, timedOut))
    ensures Inv(PutWait(s, w, Woken(s.waits[w], timedOut)))
  {
    if timedOut {
      GiveUpOk(s.events, w, s.waits[w]);
    } else {
      AwakeOk(s.events, w, s.waits[w]);
    }
    RestageKeeps(s, w, Woken(s.waits[w], timedOut));
  }

  lemma LoopEndKeeps(s: State, w: nat)
    requires Inv(s) && Enabled(s, LoopEnd(w))
    ensures Inv(PutWait(s, w, s.waits[w].(stage := Checking)))
  {
    LoopEndOk(s.events, w, s.waits[w]);
    RestageKeeps(s, w, s.waits[w].(stage := Checking));
  }

  lemma FinishKeeps(s: State, w: nat)
    requires w in s.waits && s.waits[w].stage.Finishing? && Inv(s)
    ensures Inv(PutWait(s, w, Finished(s.waits[w])))
  {
    var wt := s.waits[w];
    FinishOk(s.events, w, wt);
    RestageKeeps(s, w, Finished(wt));
  }

  lemma LeaveKeeps(s: State, w: nat)
    requires w in s.waits && s.waits[w].stage.Leaving? && Inv(s)
    ensures Inv(PutWait(s, w, Left(s.waits[w])))
  {
    var wt := s.waits[w];
    LeaveOk(s.events, w, wt);
    RestageKeeps(s, w, Left(wt));
  }

  // ---------------------------------------------------------------------------------------
  // Registration
  // ---------------------------------------------------------------------------------------

  lemma AcquireWaitOk(evs: seq<Event>, e: nat, w: nat, wt: Wait)
    requires WaitOk(evs, w, wt) && wt.stage.Blocked? && wt.next < |wt.events| && wt.events[wt.next] == e
    requires evs[e].holder.Free?
    ensures WaitOk(evs[e := evs[e].(holder := Registrar(w, 0))], w, wt.(stage := Cleaning))
  {
    TotalsUpdate(evs, e, evs[e].(holder := Registrar(w, 0)), w);
  }

  lemma AcquireEventOk(waits: map<nat, Wait>, e: nat, ev: Event, w: nat)
    requires EventOk(waits, e, ev) && ev.holder.Free? && w in waits
    requires waits[w].next < |waits[w].events| && waits[w].events[waits[w].next] == e
    ensures EventOk(waits[w := waits[w].(stage := Cleaning)], e, ev.(holder := Registrar(w, 0)))
  {
  }

  lemma AcquireKeeps(s: State, w: nat)
    requires Inv(s) && Enabled(s, Acquire(w))
    ensures Inv(Put(s, Visited(s, w), s.events[Visited(s, w)].(holder := Registrar(w, 0)),
                    w, s.waits[w].(stage := Cleaning)))
  {
    var e := Visited(s, w);
    AcquireWaitOk(s.events, e, w, s.waits[w]);
    AcquireEventOk(s.waits, e, s.events[e], w);
    Frame(s, e, s.events[e].(holder := Registrar(w, 0)), w, s.waits[w].(stage := Cleaning));
  }

  /** The event a call found set, as the call leaves it. */
  ghost predicate LeftSet(ev: Event, ev': Event, w: nat, wt: Wait) {
    ev' == ev.(state := ev'.state, holder := if HoldsEvent(wt.stage) then Free else ev.holder,
               served := ev.served + [Registration(w, wt.next)]) &&
    (if ev.autoReset then wt.stage.Taking? && !ev'.state else ev.state && ev'.state)
  }

  lemma SeenServedOk(waits: map<nat, Wait>, e: nat, ev: Event, w: nat)
    requires w in waits && waits[w].next < |waits[w].events| && waits[w].events[waits[w].next] == e
    requires waits[w].next !in waits[w].satisfied && ServedOk(waits, e, ev)
    ensures ServedOk(waits[w := Seen(waits[w])], e, ev.(served := ev.served + [Registration(w, waits[w].next)]))
  {
    var r := Registration(w, waits[w].next);
    var served := ev.served + [r];
    forall k | 0 <= k < |served| ensures EntryServed(waits[w := Seen(waits[w])], e, served[k]) {
      if k < |ev.served| {
        assert EntryServed(waits, e, ev.served[k]);
      }
    }
    forall j, k | 0 <= j < k < |served| ensures served[j] != served[k] {
      assert EntryServed(waits, e, ev.served[j]);
    }
  }

  lemma SeenQueueOk(waits: map<nat, Wait>, e: nat, ev: Event, w: nat)
    requires w in waits && QueueOk(waits, e, ev) && waits[w].next < |waits[w].events|
    ensures QueueOk(waits[w := Seen(waits[w])], e, ev)
  {
    forall k | LiveStart(ev) <= k < |ev.registered| ensures EntryOk(waits[w := Seen(waits[w])], e, ev.registered[k]) {
      assert EntryOk(waits, e, ev.registered[k]);
    }
    forall k | UnfiredStart(ev) <= k < |ev.registered|
      ensures NotYetSatisfied(waits[w := Seen(waits[w])], ev.registered[k])
    {
      assert EntryOk(waits, e, ev.registered[k]) && NotYetSatisfied(waits, ev.registered[k]);
    }
  }

  lemma SeenEventOk(waits: map<nat, Wait>, e: nat, ev: Event, ev': Event, w: nat)
    requires w in waits && waits[w].next < |waits[w].events| && waits[w].events[waits[w].next] == e
    requires InLoop(waits[w].stage) && LeftSet(ev, ev', w, waits[w])
    requires forall i :: i in waits[w].satisfied ==> i < waits[w].next
    requires HoldsEvent(waits[w].stage) ==> ev.holder.Registrar? && ev.holder.wait == w
    requires EventOk(waits, e, ev)
    ensures EventOk(waits[w := Seen(waits[w])], e, ev')
  {
    SeenServedOk(waits, e, ev, w);
    SeenQueueOk(waits, e, ev, w);
  }

  lemma SeenSatisfied(evs: seq<Event>, e: nat, ev': Event, w: nat, wt: Wait)
    requires WaitOk(evs, w, wt) && InLoop(wt.stage) && wt.next < |wt.events| && wt.events[wt.next] == e
    requires wt.waitAll && LeftSet(evs[e], ev', w, wt)
    ensures SatisfiedOk(evs[e := ev'], w, Seen(wt)) && wt.next !in wt.satisfied
  {
  }

  lemma SeenStage(evs: seq<Event>, e: nat, ev': Event, w: nat, wt: Wait)
    requires WaitOk(evs, w, wt) && InLoop(wt.stage) && wt.next < |wt.events| && wt.events[wt.next] == e
    requires wt.waitAll && LeftSet(evs[e], ev', w, wt)
    ensures StageOk(evs[e := ev'], w, Seen(wt)) && AnyAccounting(Seen(wt)) && WakeupOk(evs[e := ev'], w, Seen(wt))
  {
  }

  lemma SeenAllCounts(evs: seq<Event>, e: nat, ev': Event, w: nat, wt: Wait)
    requires CountsOk(evs, w, wt) && AllAccounting(evs, w, wt) && e < |evs| && wt.next !in wt.satisfied
    requires InLoop(wt.stage) && wt.stillWaiting && wt.waitAll && wt.next < |wt.events|
    requires Live(ev') == Live(evs[e]) && Unfired(ev') == Unfired(evs[e])
    ensures CountsOk(evs[e := ev'], w, Seen(wt)) && AllAccounting(evs[e := ev'], w, Seen(wt))
  {
    TotalsUpdate(evs, e, ev', w);
  }

  lemma SeenAllOk(evs: seq<Event>, e: nat, ev': Event, w: nat, wt: Wait)
    requires WaitOk(evs, w, wt) && InLoop(wt.stage) && wt.next < |wt.events| && wt.events[wt.next] == e
    requires wt.waitAll && LeftSet(evs[e], ev', w, wt)
    ensures WaitOk(evs[e := ev'], w, Seen(wt))
  {
    SeenSatisfied(evs, e, ev', w, wt);
    SeenStage(evs, e, ev', w, wt);
    SeenAllCounts(evs, e, ev', w, wt);
  }

  lemma SeenAnyOk(evs: seq<Event>, e: nat, ev': Event, w: nat, wt: Wait)
    requires WaitOk(evs, w, wt) && InLoop(wt.stage) && wt.next < |wt.events| && wt.events[wt.next] == e
    requires !wt.waitAll && LeftSet(evs[e], ev', w, wt)
    ensures WaitOk(evs[e := ev'], w, Seen(wt))
  {
    TotalsUpdate(evs, e, ev', w);
    assert wt.satisfied == {};
  }

  lemma SeenWaitOk(evs: seq<Event>, e: nat, ev': Event, w: nat, wt: Wait)
    requires WaitOk(evs, w, wt) && InLoop(wt.stage) && wt.next < |wt.events| && wt.events[wt.next] == e
    requires LeftSet(evs[e], ev', w, wt)
    ensures WaitOk(evs[e := ev'], w, Seen(wt)) && Extends(e, wt, Seen(wt)) && Respects(evs[e], ev', {w})
    ensures forall i :: i in wt.satisfied ==> i < wt.next
    ensures HoldsEvent(wt.stage) ==> evs[e].holder.Registrar? && evs[e].holder.wait == w
  {
    hide Extends, Respects, Seen;
    if wt.waitAll {
      SeenAllOk(evs, e, ev', w, wt);
    } else {
      SeenAnyOk(evs, e, ev', w, wt);
    }
    SeenUnseen(evs[e], ev', e, w, wt);
  }

  /** What others may notice of an event found set, and of its record. */
  lemma SeenUnseen(ev: Event, ev': Event, e: nat, w: nat, wt: Wait)
    requires InLoop(wt.stage) && wt.next < |wt.events| && wt.events[wt.next] == e && LeftSet(ev, ev', w, wt)
    requires HoldsEvent(wt.stage) ==> ev.holder.Registrar? && ev.holder.wait == w
    ensures Extends(e, wt, Seen(wt)) && Respects(ev, ev', {w})
  {
  }

  lemma SeenKeeps(s: State, w: nat, ev': Event)
    requires Inv(s) && Visiting(s, w) && LeftSet(s.events[Visited(s, w)], ev', w, s.waits[w])
    ensures Inv(Put(s, Visited(s, w), ev', w, Seen(s.waits[w])))
  {
    var e := Visited(s, w);
    SeenWaitOk(s.events, e, ev', w, s.waits[w]);
    SeenEventOk(s.waits, e, s.events[e], ev', w);
    Frame(s, e, ev', w, Seen(s.waits[w]));
  }

  lemma LookKeeps(s: State, w: nat)
    requires Inv(s) && Enabled(s, Look(w))
    ensures Inv(DoLook(s, w))
  {
    var e := Visited(s, w);
    var ev, wt := s.events[e], s.waits[w];
    if ev.autoReset || !ev.state {
      BlockOk(s.events, w, wt);
      RestageKeeps(s, w, wt.(stage := Blocked));
    } else if wt.stage.Entering? {
      PeekOk(s.events, w, wt);
      RestageKeeps(s, w, wt.(stage := Peeked));
    } else {
      SeenKeeps(s, w, ev.(served := ev.served + [Registration(w, wt.next)]));
    }
  }

  lemma StoreKeeps(s: State, w: nat)
    requires Inv(s) && Enabled(s, Store(w))
    ensures Inv(DoStore(s, w))
  {
    var ev := s.events[Visited(s, w)];
    SeenKeeps(s, w, ev.(state := false, holder := Free, served := ev.served + [Registration(w, s.waits[w].next)]));
  }

  lemma TakingKeeps(s: State, w: nat)
    requires Inv(s) && Enabled(s, Try(w)) && s.events[Visited(s, w)].state && s.events[Visited(s, w)].autoReset
    ensures Inv(PutWait(s, w, s.waits[w].(stage := Taking)))
  {
    var e := Visited(s, w);
    var wt' := s.waits[w].(stage := Taking);
    TakingWaitOk(s.events, w, s.waits[w]);
    TakingEventOk(s.waits, e, s.events[e], w);
    assert s.events[e := s.events[e]] == s.events;
    Frame(s, e, s.events[e], w, wt');
  }

  lemma TakingWaitOk(evs: seq<Event>, w: nat, wt: Wait)
    requires WaitOk(evs, w, wt) && wt.stage.Cleaning?
    ensures WaitOk(evs, w, wt.(stage := Taking))
  {
  }

  lemma TakingEventOk(waits: map<nat, Wait>, e: nat, ev: Event, w: nat)
    requires EventOk(waits, e, ev) && w in waits && waits[w].stage.Cleaning? && ev.holder == Registrar(w, |ev.registered|)
    requires ev.state && ev.autoReset
    ensures EventOk(waits[w := waits[w].(stage := Taking)], e, ev)
  {
  }

  // An event found clear: the call registers and moves on.

  lemma PushEventOk(waits: map<nat, Wait>, e: nat, ev: Event, w: nat)
    requires EventOk(waits, e, ev) && w in waits && waits[w].stage.Cleaning? && !ev.state
    requires ev.holder == Registrar(w, |ev.registered|)
    requires waits[w].next !in waits[w].satisfied
    ensures EventOk(waits[w := Enlisted(waits[w])], e,
              Joined(ev, Registration(w, waits[w].next)))
  {
  }

  lemma PushCounts(evs: seq<Event>, e: nat, w: nat, wt: Wait)
    requires CountsOk(evs, w, wt) && AllAccounting(evs, w, wt)
    requires e < |evs| && wt.stage.Cleaning? && wt.next < |wt.events| && evs[e].holder.Registrar?
    ensures var evs' := evs[e := Joined(evs[e], Registration(w, wt.next))];
      var wt' := Enlisted(wt);
      CountsOk(evs', w, wt') && AllAccounting(evs', w, wt')
  {
    var ev := evs[e];
    var r := [Registration(w, wt.next)];
    TotalsUpdate(evs, e, Joined(ev, Registration(w, wt.next)), w);
    CountAppend(ev.registered, r, w);
  }

  lemma PushWaitOk(evs: seq<Event>, e: nat, w: nat, wt: Wait)
    requires WaitOk(evs, w, wt) && wt.stage.Cleaning? && wt.events[wt.next] == e
    ensures WaitOk(evs[e := Joined(evs[e], Registration(w, wt.next))],
              w, Enlisted(wt))
    ensures Extends(e, wt, Enlisted(wt)) && wt.next !in wt.satisfied
  {
    PushCounts(evs, e, w, wt);
  }

  lemma PushRespects(ev: Event, r: Registration)
    requires ev.holder.Registrar? && ev.holder.wait == r.wait
    ensures Respects(ev, Joined(ev, r), {r.wait})
  {
    forall u: nat | u != r.wait ensures Count(ev.registered + [r], u) == Count(ev.registered, u) {
      CountAppend(ev.registered, [r], u);
    }
  }

  /** All that the frame asks of a new entry. */
  lemma PushLocal(evs: seq<Event>, waits: map<nat, Wait>, e: nat, w: nat, wt: Wait)
    requires e < |evs| && EventOk(waits, e, evs[e]) && w in waits && wt == waits[w] && WaitOk(evs, w, wt)
    requires wt.stage.Cleaning? && wt.events[wt.next] == e && !evs[e].state
    requires evs[e].holder == Registrar(w, |evs[e].registered|)
    ensures var ev' := Joined(evs[e], Registration(w, wt.next));
      var wt' := Enlisted(wt);
      Respects(evs[e], ev', {w}) && EventOk(waits[w := wt'], e, ev') && WaitOk(evs[e := ev'], w, wt') && Extends(e, wt, wt')
  {
    PushWaitOk(evs, e, w, wt);
    PushEventOk(waits, e, evs[e], w);
    PushRespects(evs[e], Registration(w, wt.next));
  }

  lemma PushKeeps(s: State, w: nat)
    requires Inv(s) && Enabled(s, Try(w)) && !s.events[Visited(s, w)].state
    ensures Inv(Put(s, Visited(s, w), Joined(s.events[Visited(s, w)], Registration(w, s.waits[w].next)),
                    w, Enlisted(s.waits[w])))
  {
    var e := Visited(s, w);
    PushLocal(s.events, s.waits, e, w, s.waits[w]);
    Frame(s, e, Joined(s.events[e], Registration(w, s.waits[w].next)), w, Enlisted(s.waits[w]));
  }

  lemma TryKeeps(s: State, w: nat)
    requires Inv(s) && Enabled(s, Try(w))
    ensures Inv(DoTry(s, w))
  {
    var ev := s.events[Visited(s, w)];
    if !ev.state {
      PushKeeps(s, w);
    } else if ev.autoReset {
      TakingKeeps(s, w);
    } else {
      SeenKeeps(s, w, ev.(holder := Free, served := ev.served + [Registration(w, s.waits[w].next)]));
    }
  }

  // ---------------------------------------------------------------------------------------
  // Giving references back
  // ---------------------------------------------------------------------------------------

  lemma ReleaseCounts(evs: seq<Event>, e: nat, ev': Event, v: nat, wt: Wait, signalled: bool)
    requires CountsOk(evs, v, wt) && AllAccounting(evs, v, wt) && e < |evs| && wt.next <= |wt.events|
    requires Count(Live(ev'), v) == Count(Live(evs[e]), v) - 1
    requires Count(Unfired(ev'), v) <= Count(Unfired(evs[e]), v)
    requires wt.stillWaiting ==> Count(Unfired(ev'), v) == Count(Unfired(evs[e]), v)
    ensures var wt' := Release(wt.(signalled := signalled), 1);
      CountsOk(evs[e := ev'], v, wt') && AllAccounting(evs[e := ev'], v, wt') && wt.refCount > 0
  {
    TotalsUpdate(evs, e, ev', v);
    TotalsBound(evs, e, v);
  }

  lemma ReleaseOk(evs: seq<Event>, e: nat, ev': Event, v: nat, wt: Wait, signalled: bool)
    requires WaitOk(evs, v, wt) && e < |evs|
    requires ev'.autoReset == evs[e].autoReset && evs[e].served <= ev'.served
    requires Count(Live(ev'), v) == Count(Live(evs[e]), v) - 1
    requires Count(Unfired(ev'), v) <= Count(Unfired(evs[e]), v)
    requires wt.stillWaiting ==> Count(Unfired(ev'), v) == Count(Unfired(evs[e]), v)
    requires evs[e].holder.Registrar? ==> ev'.holder == evs[e].holder
    requires wt.stage.Sleeping? && Done(wt) && !signalled ==> SignalComing(evs[e := ev'], v)
    ensures WaitOk(evs[e := ev'], v, Release(wt.(signalled := signalled), 1))
  {
    hide SatisfiedOk, AutoOnce, CountsOk, AllAccounting, StageOk, AnyAccounting, WakeupOk;
    ReleaseFits(evs, v, wt);
    ReleaseCounts(evs, e, ev', v, wt, signalled);
    ReleaseStage(evs, e, ev', v, wt, signalled);
    SatisfiedStays(evs, e, ev', v, wt, Release(wt.(signalled := signalled), 1));
  }

  lemma ReleaseFits(evs: seq<Event>, v: nat, wt: Wait)
    requires Listed(evs, wt) && StageOk(evs, v, wt)
    ensures wt.next <= |wt.events|
  {
  }

  lemma ReleaseStage(evs: seq<Event>, e: nat, ev': Event, v: nat, wt: Wait, signalled: bool)
    requires Listed(evs, wt) && StageOk(evs, v, wt) && AnyAccounting(wt) && e < |evs|
    requires ev'.autoReset == evs[e].autoReset
    requires evs[e].holder.Registrar? ==> ev'.holder == evs[e].holder
    requires wt.stage.Sleeping? && Done(wt) && !signalled ==> SignalComing(evs[e := ev'], v)
    ensures var wt' := Release(wt.(signalled := signalled), 1);
      Listed(evs[e := ev'], wt') && StageOk(evs[e := ev'], v, wt') && AnyAccounting(wt') && WakeupOk(evs[e := ev'], v, wt')
  {
  }

  /** What a record knows of the events that served it does not change. */
  lemma SatisfiedStays(evs: seq<Event>, e: nat, ev': Event, w: nat, wt: Wait, wt': Wait)
    requires Listed(evs, wt) && SatisfiedOk(evs, w, wt) && (!wt.waitAll ==> AutoOnce(evs, wt)) && e < |evs|
    requires ev'.autoReset == evs[e].autoReset && evs[e].served <= ev'.served
    requires wt' == wt.(refCount := wt'.refCount, frees := wt'.frees, signalled := wt'.signalled)
    ensures SatisfiedOk(evs[e := ev'], w, wt') && (!wt.waitAll ==> AutoOnce(evs[e := ev'], wt'))
  {
  }

  /** Nothing an event knows of a record changes when a reference is given back. */
  lemma ReleaseUnseen(waits: map<nat, Wait>, d: nat, ev: Event, v: nat, signalled: bool)
    requires EventOk(waits, d, ev) && v in waits
    ensures EventOk(waits[v := Release(waits[v].(signalled := signalled), 1)], d, ev)
  {
    OtherEvent(waits, d + 1, v, Release(waits[v].(signalled := signalled), 1), d, ev);
  }

  // `remove_if`: an entry whose record no longer waits is dropped.

  lemma DropEventOk(waits: map<nat, Wait>, e: nat, ev: Event, c: nat)
    requires EventOk(waits, e, ev) && ev.holder.Registrar? && ev.holder.cursor == c < |ev.registered|
    ensures EventOk(waits, e, Dropped(ev, c))
  {
    var q, q' := ev.registered, Dropped(ev, c).registered;
    assert forall k :: 0 <= k < |q'| ==> q'[k] == if k < c then q[k] else q[k + 1];
    assert forall k :: 0 <= k < |q'| ==> EntryOk(waits, e, q'[k]) && NotYetSatisfied(waits, q'[k]);
  }

  lemma DropCounts(ev: Event, c: nat)
    requires ev.holder.Registrar? && c < |ev.registered|
    ensures Respects(ev, Dropped(ev, c), {ev.registered[c].wait})
    ensures var v := ev.registered[c].wait; Count(Live(Dropped(ev, c)), v) == Count(Live(ev), v) - 1
  {
    forall u: nat
      ensures Count(ev.registered, u) == Count(Dropped(ev, c).registered, u) + if ev.registered[c].wait == u then 1 else 0
    {
      CountRemove(ev.registered, c, u);
    }
  }

  lemma DropWakeup(evs: seq<Event>, e: nat, ev': Event, v: nat)
    requires e < |evs| && SignalComing(evs, v) && !AboutToSignal(evs[e], v)
    ensures SignalComing(evs[e := ev'], v)
  {
    var d :| 0 <= d < |evs| && AboutToSignal(evs[d], v);
    assert AboutToSignal(evs[e := ev'][d], v);
  }

  /** All that the frame asks of a dropped entry. */
  lemma DropLocal(evs: seq<Event>, waits: map<nat, Wait>, e: nat, v: nat, wt: Wait)
    requires e < |evs| && EventOk(waits, e, evs[e]) && v in waits && wt == waits[v] && WaitOk(evs, v, wt)
    requires evs[e].holder.Registrar? && evs[e].holder.cursor < |evs[e].registered|
    requires evs[e].registered[evs[e].holder.cursor].wait == v && !wt.stillWaiting
    ensures var ev' := Dropped(evs[e], evs[e].holder.cursor);
      Respects(evs[e], ev', {v}) && EventOk(waits[v := Release(wt, 1)], e, ev') &&
      WaitOk(evs[e := ev'], v, Release(wt, 1)) && Extends(e, wt, Release(wt, 1))
  {
    var c := evs[e].holder.cursor;
    DropCounts(evs[e], c);
    DropEventOk(waits, e, evs[e], c);
    assert wt.(signalled := wt.signalled) == wt;
    ReleaseUnseen(waits, e, Dropped(evs[e], c), v, wt.signalled);
    if SignalComing(evs, v) {
      DropWakeup(evs, e, Dropped(evs[e], c), v);
    }
    ReleaseOk(evs, e, Dropped(evs[e], c), v, wt, wt.signalled);
  }

  lemma DropKeeps(s: State, w: nat)
    requires Inv(s) && Enabled(s, Clean(w))
    requires var ev := s.events[Visited(s, w)]; !s.waits[ev.registered[ev.holder.cursor].wait].stillWaiting
    ensures Inv(DoClean(s, w))
  {
    var e := Visited(s, w);
    var c := s.events[e].holder.cursor;
    var v := s.events[e].registered[c].wait;
    DropLocal(s.events, s.waits, e, v, s.waits[v]);
    Frame(s, e, Dropped(s.events[e], c), v, Release(s.waits[v], 1));
  }

  lemma KeepEventOk(waits: map<nat, Wait>, e: nat, ev: Event, w: nat, c: nat)
    requires EventOk(waits, e, ev) && ev.holder == Registrar(w, c) && c < |ev.registered| && w in waits
    requires waits[w].stage.Cleaning?
    ensures EventOk(waits, e, Kept(ev))
    ensures Respects(ev, Kept(ev), {})
  {
  }

  lemma CleanKeeps(s: State, w: nat)
    requires Inv(s) && Enabled(s, Clean(w))
    ensures Inv(DoClean(s, w))
  {
    var e := Visited(s, w);
    var ev := s.events[e];
    var c := ev.holder.cursor;
    if s.waits[ev.registered[c].wait].stillWaiting {
      KeepEventOk(s.waits, e, ev, w, c);
      FrameEvent(s, e, Kept(ev));
    } else {
      DropKeeps(s, w);
    }
  }

  // ---------------------------------------------------------------------------------------
  // SetEvent
  // ---------------------------------------------------------------------------------------

  lemma SetCallKeeps(s: State, e: nat)
    requires Inv(s) && Enabled(s, SetCall(e))
    ensures Inv(PutEvent(s, e, Called(s.events[e])))
  {
    var ev := s.events[e];
    var ev' := Called(ev);
    SetCallEventOk(s.waits, e, ev);
    FrameEvent(s, e, ev');
  }

  lemma SetCallEventOk(waits: map<nat, Wait>, e: nat, ev: Event)
    requires EventOk(waits, e, ev) && ev.holder.Free?
    ensures EventOk(waits, e, Called(ev))
  {
  }

  /** The cursor stays where it is and nothing has been fired. */
  lemma RephaseEventOk(waits: map<nat, Wait>, e: nat, ev: Event, phase: SetPhase)
    requires EventOk(waits, e, ev) && ev.holder.Setter? && !ev.holder.phase.Fired? && !phase.Fired?
    requires ev.holder.cursor < |ev.registered|
    requires phase.Stale? ==>
      var v := ev.registered[ev.holder.cursor].wait; v in waits && !waits[v].stillWaiting
    ensures EventOk(waits, e, ev.(holder := Setter(phase, ev.holder.cursor)))
    ensures Respects(ev, ev.(holder := Setter(phase, ev.holder.cursor)), {})
  {
  }

  lemma SetLookKeeps(s: State, e: nat)
    requires Inv(s) && Enabled(s, SetLook(e))
    ensures Inv(DoSetLook(s, e))
  {
    var ev := s.events[e];
    var phase := if s.waits[EntryAt(s, e).wait].stillWaiting then Locking else Stale;
    RephaseEventOk(s.waits, e, ev, phase);
    FrameEvent(s, e, ev.(holder := Setter(phase, ev.holder.cursor)));
  }

  lemma FiredCounts(ev: Event)
    requires ev.holder.Setter? && !ev.holder.phase.Fired? && ev.holder.cursor < |ev.registered|
    ensures Respects(ev, FiredEvent(ev), {ev.registered[ev.holder.cursor].wait})
    ensures var v := ev.registered[ev.holder.cursor].wait;
      Count(Live(FiredEvent(ev)), v) == Count(Live(ev), v) && Count(Unfired(FiredEvent(ev)), v) == Count(Unfired(ev), v) - 1
  {
    var q := ev.registered[ev.holder.cursor..];
    assert q[1..] == ev.registered[ev.holder.cursor + 1..];
  }

  lemma FireQueueOk(waits: map<nat, Wait>, e: nat, ev: Event)
    requires EventOk(waits, e, ev) && ev.holder.Setter? && !ev.holder.phase.Fired? && ev.holder.cursor < |ev.registered|
    ensures var r := ev.registered[ev.holder.cursor];
      r.wait in waits && QueueOk(waits[r.wait := Fire(waits[r.wait], r.index)], e, FiredEvent(ev))
  {
    var c := ev.holder.cursor;
    var r := ev.registered[c];
    assert EntryOk(waits, e, r);
    var waits' := waits[r.wait := Fire(waits[r.wait], r.index)];
    forall k | c <= k < |ev.registered| ensures EntryOk(waits', e, ev.registered[k]) {
      assert EntryOk(waits, e, ev.registered[k]);
    }
    forall k | c + 1 <= k < |ev.registered| ensures NotYetSatisfied(waits', ev.registered[k]) {
      assert NotYetSatisfied(waits, ev.registered[k]) && ev.registered[c] != ev.registered[k];
    }
  }

  lemma FireServedOk(waits: map<nat, Wait>, e: nat, ev: Event, r: Registration)
    requires ServedOk(waits, e, ev) && EntryOk(waits, e, r) && NotYetSatisfied(waits, r)
    ensures ServedOk(waits[r.wait := Fire(waits[r.wait], r.index)], e, ev.(served := ev.served + [r]))
  {
    var served := ev.served + [r];
    forall k | 0 <= k < |served|
      ensures EntryServed(waits[r.wait := Fire(waits[r.wait], r.index)], e, served[k])
    {
      if k < |ev.served| {
        assert EntryServed(waits, e, ev.served[k]);
      }
    }
    forall j, k | 0 <= j < k < |served| ensures served[j] != served[k] {
      assert EntryServed(waits, e, ev.served[j]);
    }
  }

  lemma FireEventOk(waits: map<nat, Wait>, e: nat, ev: Event)
    requires EventOk(waits, e, ev) && ev.holder.Setter? && ev.holder.phase.Locking?
    ensures var r := ev.registered[ev.holder.cursor];
      r.wait in waits && EventOk(waits[r.wait := Fire(waits[r.wait], r.index)], e, FiredEvent(ev))
  {
    var r := ev.registered[ev.holder.cursor];
    assert EntryOk(waits, e, r) && NotYetSatisfied(waits, r);
    FireQueueOk(waits, e, ev);
    FireServedOk(waits, e, ev, r);
  }

  lemma FireCounts(evs: seq<Event>, e: nat, w: nat, wt: Wait, index: nat)
    requires CountsOk(evs, w, wt) && AllAccounting(evs, w, wt) && e < |evs|
    requires wt.next <= |wt.events| && index !in wt.satisfied && wt.stage != Finishing(true)
    requires evs[e].holder.Setter? && !evs[e].holder.phase.Fired? && evs[e].holder.cursor < |evs[e].registered|
    requires evs[e].registered[evs[e].holder.cursor].wait == w
    ensures var evs', wt' := evs[e := FiredEvent(evs[e])], Fire(wt, index);
      CountsOk(evs', w, wt') && AllAccounting(evs', w, wt') && (wt.waitAll ==> wt.status > 0)
  {
    FiredCounts(evs[e]);
    TotalsUpdate(evs, e, FiredEvent(evs[e]), w);
    TotalsBound(evs, e, w);
  }

  lemma FireWaitOk(evs: seq<Event>, e: nat, w: nat, wt: Wait, index: nat)
    requires WaitOk(evs, w, wt) && e < |evs| && !HoldsOwnMutex(wt.stage)
    requires evs[e].holder.Setter? && !evs[e].holder.phase.Fired? && evs[e].holder.cursor < |evs[e].registered|
    requires evs[e].registered[evs[e].holder.cursor] == Registration(w, index)
    requires index < |wt.events| && wt.events[index] == e && index !in wt.satisfied
    requires evs[e].autoReset ==> wt.stillWaiting
    ensures WaitOk(evs[e := FiredEvent(evs[e])], w, Fire(wt, index))
  {
    var evs', wt' := evs[e := FiredEvent(evs[e])], Fire(wt, index);
    FireCounts(evs, e, w, wt, index);
    assert AboutToSignal(evs'[e], w);
    FireAnyOk(evs, e, w, wt, index);
    FireSatisfied(evs, e, w, wt, index);
  }

  lemma FireSatisfied(evs: seq<Event>, e: nat, w: nat, wt: Wait, index: nat)
    requires Listed(evs, wt) && SatisfiedOk(evs, w, wt) && e < |evs| && !InLoop(wt.stage)
    requires evs[e].holder.Setter? && evs[e].holder.cursor < |evs[e].registered|
    requires evs[e].registered[evs[e].holder.cursor] == Registration(w, index)
    requires index < |wt.events| && wt.events[index] == e
    ensures SatisfiedOk(evs[e := FiredEvent(evs[e])], w, Fire(wt, index))
  {
  }

  lemma FireAnyOk(evs: seq<Event>, e: nat, w: nat, wt: Wait, index: nat)
    requires WaitOk(evs, w, wt) && e < |evs| && !HoldsOwnMutex(wt.stage)
    requires evs[e].holder.Setter? && evs[e].holder.cursor < |evs[e].registered|
    requires index < |wt.events| && wt.events[index] == e
    requires evs[e].autoReset ==> wt.stillWaiting
    ensures AnyAccounting(Fire(wt, index))
    ensures !wt.waitAll ==> AutoOnce(evs[e := FiredEvent(evs[e])], Fire(wt, index))
  {
  }

  /** All that the frame asks of a fired entry. */
  lemma FireLocal(evs: seq<Event>, waits: map<nat, Wait>, e: nat, r: Registration)
    requires e < |evs| && EventOk(waits, e, evs[e]) && r.wait in waits && WaitOk(evs, r.wait, waits[r.wait])
    requires evs[e].holder.Setter? && evs[e].holder.phase.Locking? && evs[e].registered[evs[e].holder.cursor] == r
    requires !HoldsOwnMutex(waits[r.wait].stage) && (evs[e].autoReset ==> waits[r.wait].stillWaiting)
    ensures var ev', wt' := FiredEvent(evs[e]), Fire(waits[r.wait], r.index);
      Respects(evs[e], ev', {r.wait}) && EventOk(waits[r.wait := wt'], e, ev') &&
      WaitOk(evs[e := ev'], r.wait, wt') && Extends(e, waits[r.wait], wt')
  {
    assert EntryOk(waits, e, r) && NotYetSatisfied(waits, r);
    FiredCounts(evs[e]);
    FireEventOk(waits, e, evs[e]);
    FireWaitOk(evs, e, r.wait, waits[r.wait], r.index);
  }

  lemma FireKeeps(s: State, e: nat)
    requires Inv(s) && Enabled(s, SetLock(e))
    requires s.events[e].autoReset ==> s.waits[EntryAt(s, e).wait].stillWaiting
    ensures var r := EntryAt(s, e);
      Inv(Put(s, e, FiredEvent(s.events[e]), r.wait, Fire(s.waits[r.wait], r.index)))
  {
    var r := EntryAt(s, e);
    FireLocal(s.events, s.waits, e, r);
    Frame(s, e, FiredEvent(s.events[e]), r.wait, Fire(s.waits[r.wait], r.index));
  }

  lemma SetLockKeeps(s: State, e: nat)
    requires Inv(s) && Enabled(s, SetLock(e))
    ensures Inv(DoSetLock(s, e))
  {
    var ev := s.events[e];
    if ev.autoReset && !s.waits[EntryAt(s, e).wait].stillWaiting {
      RephaseEventOk(s.waits, e, ev, Stale);
      FrameEvent(s, e, ev.(holder := Setter(Stale, ev.holder.cursor)));
    } else {
      FireKeeps(s, e);
    }
  }

  lemma AdvancedQueues(ev: Event)
    requires ev.holder.Setter? && ev.holder.cursor < |ev.registered| && (ev.autoReset ==> ev.holder.cursor == 0)
    ensures var q := ev.registered[ev.holder.cursor..];
      Live(ev) == q && Live(Advanced(ev)) == q[1..] && Unfired(Advanced(ev)) == q[1..] &&
      Unfired(ev) == if ev.holder.phase.Fired? then q[1..] else q
  {
    assert ev.registered[ev.holder.cursor..][1..] == ev.registered[ev.holder.cursor + 1..];
  }

  lemma AdvancedCounts(ev: Event)
    requires ev.holder.Setter? && ev.holder.cursor < |ev.registered| && (ev.autoReset ==> ev.holder.cursor == 0)
    ensures var v := ev.registered[ev.holder.cursor].wait;
      Respects(ev, Advanced(ev), {v}) &&
      Count(Live(Advanced(ev)), v) == Count(Live(ev), v) - 1 &&
      Count(Unfired(Advanced(ev)), v) == Count(Unfired(ev), v) - (if ev.holder.phase.Fired? then 0 else 1)
  {
    hide Live, Unfired;
    AdvancedQueues(ev);
  }

  lemma AdvancedEventOk(waits: map<nat, Wait>, e: nat, ev: Event)
    requires EventOk(waits, e, ev) && ev.holder.Setter? && (ev.holder.phase.Stale? || ev.holder.phase.Fired?)
    ensures EventOk(waits, e, Advanced(ev))
  {
    var ev' := Advanced(ev);
    if ev.autoReset {
      forall k | 0 <= k < |ev'.registered|
        ensures EntryOk(waits, e, ev'.registered[k]) && NotYetSatisfied(waits, ev'.registered[k])
      {
        assert ev'.registered[k] == ev.registered[k + 1];
      }
    }
    assert QueueOk(waits, e, ev');
  }

  /** All that the frame asks of an entry dealt with. */
  lemma AdvancedLocal(evs: seq<Event>, waits: map<nat, Wait>, e: nat, v: nat, wt: Wait, signalled: bool)
    requires e < |evs| && EventOk(waits, e, evs[e]) && v in waits && wt == waits[v] && WaitOk(evs, v, wt)
    requires evs[e].holder.Setter? && (evs[e].holder.phase.Stale? || evs[e].holder.phase.Fired?)
    requires evs[e].registered[evs[e].holder.cursor].wait == v
    requires signalled == (wt.signalled || evs[e].holder.phase.Fired?)
    ensures var ev', wt' := Advanced(evs[e]), Release(wt.(signalled := signalled), 1);
      Respects(evs[e], ev', {v}) && EventOk(waits[v := wt'], e, ev') &&
      WaitOk(evs[e := ev'], v, wt') && Extends(e, wt, wt')
  {
    AdvancedCounts(evs[e]);
    AdvancedEventOk(waits, e, evs[e]);
    ReleaseUnseen(waits, e, Advanced(evs[e]), v, signalled);
    if SignalComing(evs, v) && !evs[e].holder.phase.Fired? {
      DropWakeup(evs, e, Advanced(evs[e]), v);
    }
    ReleaseOk(evs, e, Advanced(evs[e]), v, wt, signalled);
  }

  lemma SetReleaseKeeps(s: State, e: nat)
    requires Inv(s) && Enabled(s, SetRelease(e))
    ensures Inv(DoSetRelease(s, e))
  {
    var v := EntryAt(s, e).wait;
    var signalled := s.waits[v].signalled || s.events[e].holder.phase.Fired?;
    AdvancedLocal(s.events, s.waits, e, v, s.waits[v], signalled);
    Frame(s, e, Advanced(s.events[e]), v, Release(s.waits[v].(signalled := signalled), 1));
  }

  lemma SetEndEventOk(waits: map<nat, Wait>, e: nat, ev: Event)
    requires EventOk(waits, e, ev) && ev.holder.Setter? && ev.holder.phase.Looking? && ev.holder.cursor == |ev.registered|
    ensures EventOk(waits, e, Ended(ev))
  {
  }

  lemma SetEndKeeps(s: State, e: nat)
    requires Inv(s) && Enabled(s, SetEnd(e))
    ensures Inv(PutEvent(s, e, Ended(s.events[e])))
  {
    var ev := s.events[e];
    SetEndEventOk(s.waits, e, ev);
    FrameEvent(s, e, Ended(ev));
  }

  // ---------------------------------------------------------------------------------------
  // ResetEvent and single waits
  // ---------------------------------------------------------------------------------------

  /** Clearing the state of an event, as `ResetEvent` does without a lock. */
  lemma ClearEventOk(waits: map<nat, Wait>, e: nat, ev: Event)
    requires EventOk(waits, e, ev)
    ensures EventOk(waits, e, ev.(state := false)) && Respects(ev, ev.(state := false), {})
  {
    hide HolderOk, QueueOk, ServedOk, NoLostSignal, Conserved, Respects;
    ClearParts(waits, e, ev);
    ClearCounts(waits, ev);
  }

  lemma ClearParts(waits: map<nat, Wait>, e: nat, ev: Event)
    requires HolderOk(waits, e, ev) && QueueOk(waits, e, ev) && ServedOk(waits, e, ev)
    ensures var ev' := ev.(state := false); HolderOk(waits, e, ev') && QueueOk(waits, e, ev') && ServedOk(waits, e, ev')
  {
    var ev' := ev.(state := false);
    assert ev'.holder == ev.holder && ev'.registered == ev.registered && ev'.served == ev.served;
  }

  lemma ClearCounts(waits: map<nat, Wait>, ev: Event)
    requires NoLostSignal(ev) && Conserved(waits, ev)
    ensures var ev' := ev.(state := false); NoLostSignal(ev') && Conserved(waits, ev') && Respects(ev, ev', {})
  {
  }

  lemma ResetKeeps(s: State, e: nat)
    requires Inv(s) && Enabled(s, Reset(e))
    ensures Inv(PutEvent(s, e, s.events[e].(state := false)))
  {
    ClearEventOk(s.waits, e, s.events[e]);
    FrameEvent(s, e, s.events[e].(state := false));
  }

  lemma SingleLockKeeps(s: State, e: nat)
    requires Inv(s) && Enabled(s, SingleLock(e))
    ensures Inv(PutEvent(s, e, s.events[e].(holder := SingleWaiter(false))))
  {
    FrameEvent(s, e, s.events[e].(holder := SingleWaiter(false)));
  }

  lemma SingleCheckKeeps(s: State, e: nat)
    requires Inv(s) && Enabled(s, SingleCheck(e))
    ensures Inv(PutEvent(s, e, Looked(s.events[e])))
  {
    var ev := s.events[e];
    FrameEvent(s, e, Looked(ev));
  }

  lemma SingleStoreEventOk(waits: map<nat, Wait>, e: nat, ev: Event)
    requires EventOk(waits, e, ev) && ev.holder == SingleWaiter(true)
    ensures var ev' := Taken(ev);
      EventOk(waits, e, ev') && Respects(ev, ev', {})
  {
  }

  lemma SingleStoreKeeps(s: State, e: nat)
    requires Inv(s) && Enabled(s, SingleStore(e))
    ensures Inv(PutEvent(s, e, Taken(s.events[e])))
  {
    var ev := s.events[e];
    SingleStoreEventOk(s.waits, e, ev);
    FrameEvent(s, e, Taken(ev));
  }

  predicate Registers(step: Step) {
    step.Begin? || step.Look? || step.Acquire? || step.Clean? || step.Try? || step.Store?
  }

  predicate Waits(step: Step) {
    step.LoopEnd? || step.Check? || step.Wake? || step.Finish? || step.Leave?
  }

  lemma RegisterStepKeeps(s: State, step: Step)
    requires Inv(s) && Registers(step) && Enabled(s, step)
    ensures Inv(Apply(s, step))
  {
    match step {
      case Begin(w, list, all, patience) => BeginKeeps(s, w, list, all, patience);
      case Look(w) => LookKeeps(s, w);
      case Acquire(w) => AcquireKeeps(s, w);
      case Clean(w) => CleanKeeps(s, w);
      case Try(w) => TryKeeps(s, w);
      case Store(w) => StoreKeeps(s, w);
      case _ => assert false;
    }
  }

  lemma WaitStepKeeps(s: State, step: Step)
    requires Inv(s) && Waits(step) && Enabled(s, step)
    ensures Inv(Apply(s, step))
  {
    match step {
      case LoopEnd(w) => LoopEndKeeps(s, w);
      case Check(w) => CheckKeeps(s, w);
      case Wake(w, timedOut) => WakeKeeps(s, w, timedOut);
      case Finish(w) => FinishKeeps(s, w);
      case Leave(w) => LeaveKeeps(s, w);
      case _ => assert false;
    }
  }

  lemma EventStepKeeps(s: State, step: Step)
    requires Inv(s) && !Registers(step) && !Waits(step) && Enabled(s, step)
    ensures Inv(Apply(s, step))
  {
    match step {
      case SetCall(e) => SetCallKeeps(s, e);
      case SetLook(e) => SetLookKeeps(s, e);
      case SetLock(e) => SetLockKeeps(s, e);
      case SetRelease(e) => SetReleaseKeeps(s, e);
      case SetEnd(e) => SetEndKeeps(s, e);
      case Reset(e) => ResetKeeps(s, e);
      case SingleLock(e) => SingleLockKeeps(s, e);
      case SingleCheck(e) => SingleCheckKeeps(s, e);
      case SingleStore(e) => SingleStoreKeeps(s, e);
      case _ => assert false;
    }
  }

  /** The invariant survives every step. */
  lemma StepKeeps(s: State, step: Step)
    requires Inv(s) && Enabled(s, step)
    ensures Inv(Apply(s, step))
  {
    if Registers(step) {
      RegisterStepKeeps(s, step);
    } else if Waits(step) {
      WaitStepKeeps(s, step);
    } else {
      EventStepKeeps(s, step);
    }
  }
}
