/** What becomes of every signal, and what single steps do to an event. */
module EventsSignals {
  import opened Basics
  import opened Events
  import opened EventsInvariant
  import opened EventsRuns
  import opened EventsTheorems

  // ---------------------------------------------------------------------------------------
  // Setting and resetting
  // ---------------------------------------------------------------------------------------

  /** After `SetEvent` the event is free and nobody is queued; an auto-reset event whose signal
      nobody took is set. */
  lemma SetEventEnds(s: State, e: nat)
    requires Enabled(s, SetEnd(e))
    ensures var ev, ev' := s.events[e], Apply(s, SetEnd(e)).events[e];
      ev'.holder.Free? && ev'.registered == [] && (ev.autoReset ==> ev'.state) && (!ev.autoReset ==> ev'.state == ev.state)
  {
  }

  /** `SetEvent` sets a manual-reset event at once and an auto-reset event not yet. */
  lemma SetEventBegins(s: State, e: nat)
    requires Enabled(s, SetCall(e))
    ensures var ev, ev' := s.events[e], Apply(s, SetCall(e)).events[e];
      (!ev.autoReset ==> ev'.state) && (ev.autoReset ==> ev'.state == ev.state) && ev'.setCalls == ev.setCalls + 1
  {
  }

  /** `ResetEvent` clears the event and does nothing else. */
  lemma ResetClears(s: State, e: nat)
    requires Enabled(s, Reset(e))
    ensures var s' := Apply(s, Reset(e));
      !s'.events[e].state && s'.waits == s.waits && s'.events == s.events[e := s.events[e].(state := false)]
  {
  }

  /** The event that a step works on. */
  function Touched(s: State, step: Step): Option<nat>
    requires Enabled(s, step)
  {
    match step
    case Look(w) => Some(Visited(s, w))
    case Acquire(w) => Some(Visited(s, w))
    case Clean(w) => Some(Visited(s, w))
    case Try(w) => Some(Visited(s, w))
    case Store(w) => Some(Visited(s, w))
    case SetCall(e) => Some(e)
    case SetLook(e) => Some(e)
    case SetLock(e) => Some(e)
    case SetRelease(e) => Some(e)
    case SetEnd(e) => Some(e)
    case Reset(e) => Some(e)
    case SingleLock(e) => Some(e)
    case SingleCheck(e) => Some(e)
    case SingleStore(e) => Some(e)
    case _ => None
  }

  /** The other events stay as they are. */
  lemma OthersStay(s: State, step: Step, e: nat)
    requires Enabled(s, step) && e < |s.events| && Touched(s, step) != Some(e)
    ensures Apply(s, step).events[e] == s.events[e]
  {
  }

  /** A manual-reset event becomes set only by `SetEvent`, and clear only by `ResetEvent`. */
  lemma ManualChanges(s: State, step: Step, e: nat)
    requires Reachable(s) && Enabled(s, step) && e < |s.events| && !s.events[e].autoReset
    ensures var state, state' := s.events[e].state, Apply(s, step).events[e].state;
      if step == SetCall(e) then state' else if step == Reset(e) then !state' else state' == state
  {
    hide Inv, Apply, Enabled;
    ReachableInv(s);
    if Touched(s, step) == Some(e) {
      ManualTouched(s, step, e);
    } else {
      OthersStay(s, step, e);
    }
  }

  lemma ManualTouched(s: State, step: Step, e: nat)
    requires Inv(s) && Enabled(s, step) && Touched(s, step) == Some(e) && e < |s.events| && !s.events[e].autoReset
    ensures var state, state' := s.events[e].state, Apply(s, step).events[e].state;
      if step == SetCall(e) then state' else if step == Reset(e) then !state' else state' == state
  {
    assert EventOk(s.waits, e, s.events[e]);
  }

  // ---------------------------------------------------------------------------------------
  // The balance of signals
  // ---------------------------------------------------------------------------------------

  /** A thread has seen the event set and is about to clear it. */
  predicate InHand(waits: map<nat, Wait>, ev: Event) {
    ev.holder == SingleWaiter(true) ||
    (ev.holder.Registrar? && ev.holder.wait in waits && waits[ev.holder.wait].stage.Taking?)
  }

  /** Signals given to an event that have satisfied no wait, are not present, and are not on
      their way. */
  function Missing(waits: map<nat, Wait>, ev: Event): int {
    (if ev.initial then 1 else 0) + ev.setCalls - ev.singles - |ev.served| - Token(waits, ev) - Undelivered(ev)
  }

  /** A step throws a signal away: `ResetEvent` clears a set event, or `SetEvent` ends with the
      event set before. */
  predicate Loses(s: State, step: Step, e: nat)
    requires e < |s.events|
  {
    s.events[e].state && (step == SetEnd(e) || (step == Reset(e) && !InHand(s.waits, s.events[e])))
  }

  function Loss(s: State, step: Step, e: nat): nat
    requires e < |s.events|
  {
    if Loses(s, step, e) then 1 else 0
  }

  /** What a step does to the balance of event `e`. */
  ghost predicate Balances(s: State, step: Step, e: nat)
    requires Enabled(s, step) && e < |s.events|
  {
    var s' := Apply(s, step);
    s'.events[e].autoReset && Missing(s'.waits, s'.events[e]) == Missing(s.waits, s.events[e]) + Loss(s, step, e)
  }

  lemma BalancesByCall(s: State, step: Step, e: nat)
    requires Enabled(s, step) && Touched(s, step) == Some(e) && e < |s.events| && s.events[e].autoReset
    requires EventOk(s.waits, e, s.events[e])
    requires step.Look? || step.Acquire? || step.Clean? || step.Try? || step.Store?
    ensures Balances(s, step, e)
  {
  }

  lemma BalancesBySetter(s: State, step: Step, e: nat)
    requires Enabled(s, step) && Touched(s, step) == Some(e) && e < |s.events| && s.events[e].autoReset
    requires EventOk(s.waits, e, s.events[e])
    requires step.SetCall? || step.SetLook? || step.SetLock? || step.SetRelease? || step.SetEnd?
    ensures Balances(s, step, e)
  {
  }

  lemma BalancesByOther(s: State, step: Step, e: nat)
    requires Enabled(s, step) && Touched(s, step) == Some(e) && e < |s.events| && s.events[e].autoReset
    requires EventOk(s.waits, e, s.events[e])
    requires step.Reset? || step.SingleLock? || step.SingleCheck? || step.SingleStore?
    ensures Balances(s, step, e)
  {
  }

  /** A call that holds an event does not move while another one is worked on. */
  lemma HolderStays(s: State, step: Step, e: nat)
    requires Enabled(s, step) && e < |s.events| && Touched(s, step) != Some(e)
    requires HolderOk(s.waits, e, s.events[e]) && s.events[e].holder.Registrar?
    ensures var w := s.events[e].holder.wait; w in Apply(s, step).waits && Apply(s, step).waits[w].stage == s.waits[w].stage
  {
  }

  lemma BalancesElsewhere(s: State, step: Step, e: nat)
    requires Enabled(s, step) && Touched(s, step) != Some(e) && e < |s.events| && s.events[e].autoReset
    requires EventOk(s.waits, e, s.events[e])
    ensures Balances(s, step, e)
  {
    hide Apply, Enabled;
    OthersStay(s, step, e);
    if s.events[e].holder.Registrar? {
      HolderStays(s, step, e);
    }
  }

  /** No step of any thread loses a signal, but for these two. */
  lemma MissingMore(s: State, step: Step, e: nat)
    requires Reachable(s) && Enabled(s, step) && e < |s.events| && s.events[e].autoReset
    ensures var s' := Apply(s, step);
      s'.events[e].autoReset && Missing(s'.waits, s'.events[e]) == Missing(s.waits, s.events[e]) + Loss(s, step, e)
  {
    hide Apply, Enabled, Missing, Loss, EventOk;
    ReachableInv(s);
    assert EventOk(s.waits, e, s.events[e]);
    if Touched(s, step) != Some(e) {
      BalancesElsewhere(s, step, e);
    } else if step.Look? || step.Acquire? || step.Clean? || step.Try? || step.Store? {
      BalancesByCall(s, step, e);
    } else if step.SetCall? || step.SetLook? || step.SetLock? || step.SetRelease? || step.SetEnd? {
      BalancesBySetter(s, step, e);
    } else {
      BalancesByOther(s, step, e);
    }
  }

  /** How many signals of event `e` the first `n` steps of a run throw away. */
  ghost function Lost(run: seq<State>, steps: seq<Step>, e: nat, n: nat): nat
    requires IsRun(run, steps) && n <= |steps| && e < |run[0].events|
  {
    if n == 0 then 0
    else
      SameEvents(run, steps, n - 1);
      Lost(run, steps, e, n - 1) + Loss(run[n - 1], steps[n - 1], e)
  }

  lemma {:induction false} SameEvents(run: seq<State>, steps: seq<Step>, n: nat)
    requires IsRun(run, steps) && n <= |steps|
    ensures |run[n].events| == |run[0].events|
  {
    hide Apply, Enabled;
    if n > 0 {
      SameEvents(run, steps, n - 1);
    }
  }

  lemma RunReaches(run: seq<State>, steps: seq<Step>, n: nat)
    requires IsRun(run, steps) && n <= |steps|
    ensures Reachable(run[n])
  {
    hide Apply, Enabled;
    assert IsRun(run[..n + 1], steps[..n]);
    assert run[..n + 1][|steps[..n]|] == run[n];
  }

  /** Every signal given to an auto-reset event has satisfied one wait, is still there, is on its
      way, or was thrown away by `ResetEvent` or by a `SetEvent` on a set event. */
  lemma {:induction false} SignalsBalance(run: seq<State>, steps: seq<Step>, e: nat, n: nat)
    requires IsRun(run, steps) && n <= |steps| && e < |run[0].events| && run[0].events[e].autoReset
    ensures |run[n].events| == |run[0].events| && run[n].events[e].autoReset
    ensures var ev := run[n].events[e];
      (if ev.initial then 1 else 0) + ev.setCalls ==
        ev.singles + |ev.served| + Token(run[n].waits, ev) + Undelivered(ev) + Lost(run, steps, e, n)
  {
    hide Apply, Enabled, Loss;
    SameEvents(run, steps, n);
    if n > 0 {
      SignalsBalance(run, steps, e, n - 1);
      RunReaches(run, steps, n - 1);
      MissingMore(run[n - 1], steps[n - 1], e);
    }
  }

  /** `ResetEvent` is not called on the event, nor `SetEvent` while it is set. */
  ghost predicate Spares(run: seq<State>, steps: seq<Step>, e: nat)
    requires IsRun(run, steps) && e < |run[0].events|
  {
    forall n :: 0 <= n < |steps| ==>
      steps[n] != Reset(e) && (steps[n] == SetCall(e) ==> e < |run[n].events| && !run[n].events[e].state)
  }

  /** The event is not set while `SetEvent` works on it. */
  predicate Unset(ev: Event) {
    ev.holder.Setter? ==> !ev.state
  }

  lemma UnsetStays(s: State, step: Step, e: nat)
    requires Enabled(s, step) && e < |s.events| && s.events[e].autoReset && Unset(s.events[e])
    requires step == SetCall(e) ==> !s.events[e].state
    ensures Unset(Apply(s, step).events[e])
  {
    hide Apply, Enabled;
    if Touched(s, step) == Some(e) {
      UnsetTouched(s, step, e);
    } else {
      OthersStay(s, step, e);
    }
  }

  lemma UnsetTouched(s: State, step: Step, e: nat)
    requires Enabled(s, step) && Touched(s, step) == Some(e) && e < |s.events| && s.events[e].autoReset
    requires Unset(s.events[e]) && (step == SetCall(e) ==> !s.events[e].state)
    ensures Unset(Apply(s, step).events[e])
  {
  }

  lemma {:induction false} NothingLost(run: seq<State>, steps: seq<Step>, e: nat, n: nat)
    requires IsRun(run, steps) && n <= |steps| && e < |run[0].events| && run[0].events[e].autoReset
    requires Spares(run, steps, e)
    ensures Lost(run, steps, e, n) == 0 && e < |run[n].events| && Unset(run[n].events[e])
  {
    hide Apply, Enabled;
    SameEvents(run, steps, n);
    if n > 0 {
      NothingLost(run, steps, e, n - 1);
      RunReaches(run, steps, n - 1);
      SignalsBalance(run, steps, e, n - 1);
      UnsetStays(run[n - 1], steps[n - 1], e);
      if steps[n - 1] == SetEnd(e) {
        EndsSetter(run[n - 1], e);
      }
    }
  }

  lemma EndsSetter(s: State, e: nat)
    requires Enabled(s, SetEnd(e))
    ensures s.events[e].holder.Setter?
  {
  }

  /** With those two left alone a signal that no wait took is still there: if the event is free and
      has had more signals than it has satisfied waits, it is set. */
  lemma UntakenSignalStays(run: seq<State>, steps: seq<Step>, e: nat, n: nat)
    requires IsRun(run, steps) && n <= |steps| && e < |run[0].events| && run[0].events[e].autoReset
    requires Spares(run, steps, e)
    ensures e < |run[n].events|
    ensures var ev := run[n].events[e];
      (if ev.initial then 1 else 0) + ev.setCalls == ev.singles + |ev.served| + Token(run[n].waits, ev) + Undelivered(ev)
    ensures var ev := run[n].events[e];
      ev.holder.Free? ==> (ev.state <==> (if ev.initial then 1 else 0) + ev.setCalls == ev.singles + |ev.served| + 1)
  {
    hide Apply, Enabled, IsRun;
    NothingLost(run, steps, e, n);
    SignalsBalance(run, steps, e, n);
  }

  // ---------------------------------------------------------------------------------------
  // Deciding
  // ---------------------------------------------------------------------------------------

  /** What a call does when it looks at its record: it succeeds if and only if every position has been
      satisfied, or for any one; if not, it gives up at once exactly if it has no time to wait. */
  lemma CheckDecides(s: State, w: nat)
    requires Reachable(s) && Enabled(s, Check(w))
    ensures var wt, stage' := s.waits[w], Apply(s, Check(w)).waits[w].stage;
      var over := if wt.waitAll then forall i :: 0 <= i < |wt.events| ==> i in wt.satisfied else wt.satisfied != {};
      (stage' == Finishing(true) <==> over) &&
      (stage' == Finishing(false) <==> !over && wt.patience.Zero?) &&
      (stage'.Sleeping? <==> !over && !wt.patience.Zero?)
  {
    hide Reachable, EventOk, CountsOk, WakeupOk, AutoOnce;
    ReachableInv(s);
    var wt := s.waits[w];
    assert WaitOk(s.events, w, wt);
    if wt.waitAll && wt.status == 0 {
      FullSubset(|wt.events|, wt.satisfied);
    }
    if wt.waitAll && forall i :: 0 <= i < |wt.events| ==> i in wt.satisfied {
      FullSize(|wt.events|, wt.satisfied);
    }
  }

  lemma FullSize(n: nat, some: set<nat>)
    requires (forall i :: i in some ==> i < n) && forall i: nat :: i < n ==> i in some
    ensures |some| == n
  {
    assert some == Range(n);
  }
}
