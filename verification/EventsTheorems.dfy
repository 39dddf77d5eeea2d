/** What holds in every state of every run of the event machine. */
module EventsTheorems {
  import opened Events
  import opened EventsInvariant
  import opened EventsRuns
  import opened EventsSteps

  lemma InitialInv(s: State)
    requires Initial(s)
    ensures Inv(s)
  {
  }

  lemma {:induction false} RunKeeps(run: seq<State>, steps: seq<Step>, i: nat)
    requires IsRun(run, steps) && i <= |steps|
    ensures Inv(run[i])
  {
    if i == 0 {
      InitialInv(run[0]);
    } else {
      RunKeeps(run, steps, i - 1);
      StepKeeps(run[i - 1], steps[i - 1]);
    }
  }

  lemma ReachableInv(s: State)
    requires Reachable(s)
    ensures Inv(s)
  {
    var run, steps :| IsRun(run, steps) && run[|steps|] == s;
    RunKeeps(run, steps, |steps|);
  }

  // ---------------------------------------------------------------------------------------
  // Reference counting
  // ---------------------------------------------------------------------------------------

  /** The count is exactly what the waiting call still holds plus one for every registration
      that names the record in any queue; the record is deleted at zero and never again. */
  lemma ReferencesExact(s: State, w: nat)
    requires Reachable(s) && w in s.waits
    ensures var wt := s.waits[w];
      wt.refCount == WaiterShare(wt) + Registrations(s.events, w) &&
      wt.frees == (if WaiterShare(wt) == 0 && Registrations(s.events, w) == 0 then 1 else 0)
  {
    ReachableInv(s);
    assert WaitOk(s.events, w, s.waits[w]);
  }

  /** Nobody can still reach a deleted record: its call has returned and no queue names it. */
  lemma NoDanglingRegistration(s: State, e: nat, k: nat)
    requires Reachable(s) && e < |s.events| && LiveStart(s.events[e]) <= k < |s.events[e].registered|
    ensures var w := s.events[e].registered[k].wait; w in s.waits && s.waits[w].frees == 0
  {
    EntryNamed(s, e, k);
    ReferencesExact(s, s.events[e].registered[k].wait);
  }

  lemma EntryNamed(s: State, e: nat, k: nat)
    requires Reachable(s) && e < |s.events| && LiveStart(s.events[e]) <= k < |s.events[e].registered|
    ensures var w := s.events[e].registered[k].wait; w in s.waits && Registrations(s.events, w) > 0
  {
    hide Reachable;
    ReachableInv(s);
    assert EventOk(s.waits, e, s.events[e]);
    LiveCounted(s.waits, e, s.events[e], k);
    TotalsBound(s.events, e, s.events[e].registered[k].wait);
  }

  lemma LiveCounted(waits: map<nat, Wait>, e: nat, ev: Event, k: nat)
    requires EventOk(waits, e, ev) && LiveStart(ev) <= k < |ev.registered|
    ensures ev.registered[k].wait in waits && Count(Live(ev), ev.registered[k].wait) > 0
  {
    assert EntryOk(waits, e, ev.registered[k]);
    assert Live(ev)[k - LiveStart(ev)] == ev.registered[k];
    CountPositive(Live(ev), k - LiveStart(ev));
  }

  /** The record a step works on. */
  function Target(s: State, step: Step): (w: nat)
    requires Enabled(s, step) && (step.Clean? || step.SetLook? || step.SetLock? || step.SetRelease? || step.Leave?)
  {
    match step
    case Clean(v) => var ev := s.events[Visited(s, v)]; ev.registered[ev.holder.cursor].wait
    case Leave(w) => w
    case SetLook(e) => EntryAt(s, e).wait
    case SetLock(e) => EntryAt(s, e).wait
    case SetRelease(e) => EntryAt(s, e).wait
  }

  lemma TargetAlive(s: State, step: Step)
    requires Reachable(s) && Enabled(s, step)
    requires step.Clean? || step.SetLook? || step.SetLock? || step.SetRelease? || step.Leave?
    ensures var w := Target(s, step); w in s.waits && s.waits[w].frees == 0 && s.waits[w].refCount > 0
  {
    ReachableInv(s);
    match step {
      case Clean(v) =>
        NoDanglingRegistration(s, Visited(s, v), s.events[Visited(s, v)].holder.cursor);
      case Leave(w) =>
      case SetLook(e) => NoDanglingRegistration(s, e, s.events[e].holder.cursor);
      case SetLock(e) => NoDanglingRegistration(s, e, s.events[e].holder.cursor);
      case SetRelease(e) => NoDanglingRegistration(s, e, s.events[e].holder.cursor);
    }
    assert WaitOk(s.events, Target(s, step), s.waits[Target(s, step)]);
  }

  // ---------------------------------------------------------------------------------------
  // Signals
  // ---------------------------------------------------------------------------------------

  /** An auto-reset event never satisfies more waits than it was given signals. */
  lemma SignalsNotDuplicated(s: State, e: nat)
    requires Reachable(s) && e < |s.events| && s.events[e].autoReset
    ensures var ev := s.events[e];
      ev.singles + |ev.served| + (if ev.state then 1 else 0) <= (if ev.initial then 1 else 0) + ev.setCalls
  {
    ReachableInv(s);
    assert EventOk(s.waits, e, s.events[e]);
  }

  /** Nobody is left registered on an event that is set. */
  lemma NoLostWakeup(s: State, e: nat)
    requires Reachable(s) && e < |s.events| && s.events[e].holder.Free? && s.events[e].state
    ensures s.events[e].registered == []
  {
    ReachableInv(s);
    assert EventOk(s.waits, e, s.events[e]);
  }

  /** A call asleep although its wait is over has been signalled, or a `SetEvent` call that
      has already fired it is about to do so. */
  lemma SleeperIsSignalled(s: State, w: nat)
    requires Reachable(s) && w in s.waits && s.waits[w].stage.Sleeping? && Done(s.waits[w])
    ensures s.waits[w].signalled || exists e :: 0 <= e < |s.events| && AboutToSignal(s.events[e], w)
  {
    ReachableInv(s);
    assert WaitOk(s.events, w, s.waits[w]);
  }

  /** `step` adds `r` to the record of event `e` because the event was found set, or by firing. */
  ghost predicate ServedStep(s: State, step: Step, e: nat, r: Registration)
    requires Enabled(s, step) && e < |s.events|
  {
    Apply(s, step).events[e].served == s.events[e].served + [r] &&
    (step == SetLock(e) ||
     ((step == Look(r.wait) || step == Try(r.wait) || step == Store(r.wait)) && Visited(s, r.wait) == e &&
      (s.events[e].state || s.waits[r.wait].stage.Taking?)))
  }

  /** `served` is a true record: an entry is added only by a call that found the event set,
      or by a `SetEvent` call on that event. */
  lemma ServedMeansSignalled(s: State, step: Step, e: nat)
    requires Enabled(s, step) && e < |s.events|
    ensures Apply(s, step).events[e].served == s.events[e].served || exists r :: ServedStep(s, step, e, r)
  {
    hide Apply, Enabled, ServedStep;
    match step {
      case Look(w) => LookServes(s, w, e);
      case Try(w) => TryServes(s, w, e);
      case Store(w) => StoreServes(s, w, e);
      case SetLock(d) => SetLockServes(s, d, e);
      case _ => OthersServeNot(s, step, e);
    }
  }

  lemma LookServes(s: State, w: nat, e: nat)
    requires Enabled(s, Look(w)) && e < |s.events|
    ensures Apply(s, Look(w)).events[e].served == s.events[e].served || exists r :: ServedStep(s, Look(w), e, r)
  {
    assert Apply(s, Look(w)).events[e].served == s.events[e].served ||
      ServedStep(s, Look(w), e, Registration(w, s.waits[w].next));
  }

  lemma TryServes(s: State, w: nat, e: nat)
    requires Enabled(s, Try(w)) && e < |s.events|
    ensures Apply(s, Try(w)).events[e].served == s.events[e].served || exists r :: ServedStep(s, Try(w), e, r)
  {
    assert Apply(s, Try(w)).events[e].served == s.events[e].served ||
      ServedStep(s, Try(w), e, Registration(w, s.waits[w].next));
  }

  lemma StoreServes(s: State, w: nat, e: nat)
    requires Enabled(s, Store(w)) && e < |s.events|
    ensures Apply(s, Store(w)).events[e].served == s.events[e].served || exists r :: ServedStep(s, Store(w), e, r)
  {
    assert Apply(s, Store(w)).events[e].served == s.events[e].served ||
      ServedStep(s, Store(w), e, Registration(w, s.waits[w].next));
  }

  lemma SetLockServes(s: State, d: nat, e: nat)
    requires Enabled(s, SetLock(d)) && e < |s.events|
    ensures Apply(s, SetLock(d)).events[e].served == s.events[e].served || exists r :: ServedStep(s, SetLock(d), e, r)
  {
    assert Apply(s, SetLock(d)).events[e].served == s.events[e].served || ServedStep(s, SetLock(d), e, EntryAt(s, d));
  }

  lemma OthersServeNot(s: State, step: Step, e: nat)
    requires Enabled(s, step) && e < |s.events|
    requires !step.Look? && !step.Try? && !step.Store? && !step.SetLock?
    ensures Apply(s, step).events[e].served == s.events[e].served
  {
  }

  // ---------------------------------------------------------------------------------------
  // Waiting for all
  // ---------------------------------------------------------------------------------------

  /** While the wait lasts, `EventsLeft` is exactly the registrations not fired yet plus the
      events not visited yet; it is never negative, not even when stale entries are fired. */
  lemma EventsLeftExact(s: State, w: nat)
    requires Reachable(s) && w in s.waits && s.waits[w].waitAll
    ensures var wt := s.waits[w];
      wt.status >= 0 && wt.status == |wt.events| - |wt.satisfied| &&
      (wt.stillWaiting ==> wt.status == Outstanding(s.events, w) + Unvisited(wt))
  {
    ReachableInv(s);
    assert WaitOk(s.events, w, s.waits[w]);
  }

  function Range(n: nat): (r: set<nat>)
    ensures |r| == n && forall i: nat :: i in r <==> i < n
  {
    if n == 0 then {} else Range(n - 1) + {n - 1}
  }

  lemma Missing(n: nat, some: set<nat>, k: nat)
    requires (forall i :: i in some ==> i < n) && k < n && k !in some
    ensures |some| < n
  {
    assert k in Range(n) - some;
    assert |Range(n)| == |some| + |Range(n) - some|;
  }

  lemma FullSubset(n: nat, some: set<nat>)
    requires forall i :: i in some ==> i < n
    requires |some| == n
    ensures forall i: nat :: i < n ==> i in some
  {
    forall k: nat | k < n ensures k in some {
      if k !in some {
        Missing(n, some, k);
      }
    }
  }

  /** Success of a wait for all: every listed event was seen set or signalled to this wait. */
  lemma WaitAllSucceeds(s: State, w: nat, i: nat)
    requires Reachable(s) && w in s.waits && s.waits[w].waitAll && i < |s.waits[w].events|
    requires s.waits[w].stage.Returned? && s.waits[w].stage.ok
    ensures s.waits[w].events[i] < |s.events| && Registration(w, i) in s.events[s.waits[w].events[i]].served
    ensures s.waits[w].stage.result == 0
  {
    ReachableInv(s);
    var wt := s.waits[w];
    assert WaitOk(s.events, w, wt);
    FullSubset(|wt.events|, wt.satisfied);
  }

  // ---------------------------------------------------------------------------------------
  // Waiting for any
  // ---------------------------------------------------------------------------------------

  /** Success of a wait for any: the index names an event that was set for this wait, and at
      most one auto-reset event has spent a signal on it. */
  lemma WaitAnySucceeds(s: State, w: nat)
    requires Reachable(s) && w in s.waits && !s.waits[w].waitAll
    requires s.waits[w].stage.Returned? && s.waits[w].stage.ok
    ensures var wt := s.waits[w];
      0 <= wt.stage.result < |wt.events| && wt.events[wt.stage.result] < |s.events| &&
      Registration(w, wt.stage.result) in s.events[wt.events[wt.stage.result]].served
  {
    ReachableInv(s);
    assert WaitOk(s.events, w, s.waits[w]);
  }

  lemma AutoClaimOnce(s: State, w: nat, i: nat, j: nat)
    requires Reachable(s) && w in s.waits && !s.waits[w].waitAll
    requires i < |s.waits[w].events| && j < |s.waits[w].events|
    requires var d, e := s.waits[w].events[i], s.waits[w].events[j];
      d < |s.events| && e < |s.events| && s.events[d].autoReset && s.events[e].autoReset &&
      Registration(w, i) in s.events[d].served && Registration(w, j) in s.events[e].served
    ensures i == j
  {
    ReachableInv(s);
    var wt := s.waits[w];
    assert WaitOk(s.events, w, wt);
    assert EventOk(s.waits, wt.events[i], s.events[wt.events[i]]);
    assert EventOk(s.waits, wt.events[j], s.events[wt.events[j]]);
    assert EntryServed(s.waits, wt.events[i], Registration(w, i));
    assert EntryServed(s.waits, wt.events[j], Registration(w, j));
  }

  /** If every listed event is auto-reset, the index reported is that of the one event that
      spent its signal on the wait: no signal disappears into a successful wait. */
  lemma AutoIndexExact(s: State, w: nat, i: nat)
    requires Reachable(s) && w in s.waits && !s.waits[w].waitAll
    requires s.waits[w].stage.Returned? && s.waits[w].stage.ok && i < |s.waits[w].events|
    requires forall k :: 0 <= k < |s.waits[w].events| ==>
      s.waits[w].events[k] < |s.events| && s.events[s.waits[w].events[k]].autoReset
    ensures Registration(w, i) in s.events[s.waits[w].events[i]].served <==> s.waits[w].stage.result == i
  {
    WaitAnySucceeds(s, w);
    if Registration(w, i) in s.events[s.waits[w].events[i]].served {
      AutoClaimOnce(s, w, i, s.waits[w].stage.result);
    }
  }
}
