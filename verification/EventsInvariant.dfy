/** The inductive invariant of the event machine and its preservation by every step. */
module EventsInvariant {
  import opened Events

  // ---------------------------------------------------------------------------------------
  // Counting registrations
  // ---------------------------------------------------------------------------------------

  /** How many entries of `q` name the record `w`. */
  function Count(q: seq<Registration>, w: nat): nat {
    if q == [] then 0 else (if q[0].wait == w then 1 else 0) + Count(q[1..], w)
  }

  /** Index of the first entry that still owns a reference.  A manual-reset `SetEvent` leaves
      the entries it has dealt with in the queue until it clears it. */
  function LiveStart(ev: Event): nat {
    if ev.holder.Setter? then ev.holder.cursor else 0
  }

  /** Index of the first entry that has not been fired. */
  function UnfiredStart(ev: Event): nat {
    if ev.holder.Setter? then ev.holder.cursor + if ev.holder.phase.Fired? then 1 else 0 else 0
  }

  function From(q: seq<Registration>, k: nat): seq<Registration> {
    if k <= |q| then q[k..] else []
  }

  function Live(ev: Event): seq<Registration> { From(ev.registered, LiveStart(ev)) }

  function Unfired(ev: Event): seq<Registration> { From(ev.registered, UnfiredStart(ev)) }

  /** Registrations that name `w` and own a reference, over all event queues. */
  function Registrations(evs: seq<Event>, w: nat): nat {
    if evs == [] then 0 else Count(Live(evs[0]), w) + Registrations(evs[1..], w)
  }

  /** Registrations that name `w` and have not been fired, over all event queues. */
  function Outstanding(evs: seq<Event>, w: nat): nat {
    if evs == [] then 0 else Count(Unfired(evs[0]), w) + Outstanding(evs[1..], w)
  }

  lemma {:induction false} CountAppend(a: seq<Registration>, b: seq<Registration>, w: nat)
    ensures Count(a + b, w) == Count(a, w) + Count(b, w)
  {
    if a == [] {
      assert a + b == b;
    } else {
      assert (a + b)[1..] == a[1..] + b;
      CountAppend(a[1..], b, w);
    }
  }

  lemma CountRemove(q: seq<Registration>, c: nat, w: nat)
    requires c < |q|
    ensures Count(q, w) == Count(q[..c] + q[c + 1..], w) + if q[c].wait == w then 1 else 0
  {
    CountAppend(q[..c], q[c..], w);
    CountAppend(q[..c], q[c + 1..], w);
    assert q == q[..c] + q[c..];
    assert q[c..][1..] == q[c + 1..];
  }

  lemma {:induction false} CountZero(q: seq<Registration>, w: nat)
    requires forall k :: 0 <= k < |q| ==> q[k].wait != w
    ensures Count(q, w) == 0
  {
    if q != [] {
      CountZero(q[1..], w);
    }
  }

  lemma {:induction false} CountPositive(q: seq<Registration>, k: nat)
    requires k < |q|
    ensures Count(q, q[k].wait) > 0
  {
    if k > 0 {
      CountPositive(q[1..], k - 1);
    }
  }

  /** Replacing one event shifts both totals by that event's own difference. */
  lemma {:induction false} TotalsUpdate(evs: seq<Event>, e: nat, ev: Event, w: nat)
    requires e < |evs|
    ensures Registrations(evs[e := ev], w) == Registrations(evs, w) + Count(Live(ev), w) - Count(Live(evs[e]), w)
    ensures Outstanding(evs[e := ev], w) == Outstanding(evs, w) + Count(Unfired(ev), w) - Count(Unfired(evs[e]), w)
  {
    if e == 0 {
      assert evs[e := ev][1..] == evs[1..];
    } else {
      assert evs[e := ev][1..] == evs[1..][e - 1 := ev];
      TotalsUpdate(evs[1..], e - 1, ev, w);
    }
  }

  lemma {:induction false} TotalsBound(evs: seq<Event>, e: nat, w: nat)
    requires e < |evs|
    ensures Count(Live(evs[e]), w) <= Registrations(evs, w)
    ensures Count(Unfired(evs[e]), w) <= Outstanding(evs, w)
  {
    if e > 0 {
      TotalsBound(evs[1..], e - 1, w);
    }
  }

  lemma {:induction false} TotalsZero(evs: seq<Event>, w: nat)
    requires forall e :: 0 <= e < |evs| ==> Count(Live(evs[e]), w) == 0 && Count(Unfired(evs[e]), w) == 0
    ensures Registrations(evs, w) == 0 && Outstanding(evs, w) == 0
  {
    if evs != [] {
      assert forall e :: 0 <= e < |evs[1..]| ==> evs[1..][e] == evs[e + 1];
      TotalsZero(evs[1..], w);
    }
  }

  // ---------------------------------------------------------------------------------------
  // The invariant
  // ---------------------------------------------------------------------------------------

  /** Positions the call has not visited yet. */
  function Unvisited(wt: Wait): int {
    if InLoop(wt.stage) then |wt.events| - wt.next else 0
  }

  /** References still held by the waiting call itself. */
  function WaiterShare(wt: Wait): int {
    if wt.stage.Returned? then 0 else 1 + wt.skipped + Unvisited(wt)
  }

  /** An entry of the queue of event `e` that still owns a reference. */
  ghost predicate EntryOk(waits: map<nat, Wait>, e: nat, r: Registration) {
    r.wait in waits &&
    var wt := waits[r.wait];
    r.index < |wt.events| && wt.events[r.index] == e && r.index < wt.next
  }

  ghost predicate NotYetSatisfied(waits: map<nat, Wait>, r: Registration) {
    r.wait in waits && r.index !in waits[r.wait].satisfied
  }

  ghost predicate EntryServed(waits: map<nat, Wait>, e: nat, r: Registration) {
    r.wait in waits &&
    var wt := waits[r.wait];
    r.index < |wt.events| && wt.events[r.index] == e && r.index in wt.satisfied
  }

  ghost predicate QueueOk(waits: map<nat, Wait>, e: nat, ev: Event) {
    (forall k :: LiveStart(ev) <= k < |ev.registered| ==> EntryOk(waits, e, ev.registered[k])) &&
    (forall k :: UnfiredStart(ev) <= k < |ev.registered| ==> NotYetSatisfied(waits, ev.registered[k])) &&
    (forall j, k :: LiveStart(ev) <= j < k < |ev.registered| ==> ev.registered[j] != ev.registered[k])
  }

  ghost predicate HolderOk(waits: map<nat, Wait>, e: nat, ev: Event) {
    match ev.holder
    case Registrar(w, c) =>
      w in waits && HoldsEvent(waits[w].stage) && c <= |ev.registered| &&
      waits[w].next < |waits[w].events| && waits[w].events[waits[w].next] == e &&
      (waits[w].stage.Taking? ==> ev.autoReset && c == |ev.registered|)
    case Setter(phase, c) =>
      c <= |ev.registered| && (ev.autoReset ==> c == 0) &&
      (!phase.Looking? ==> c < |ev.registered|) &&
      (phase.Stale? ==> ev.registered[c].wait in waits && !waits[ev.registered[c].wait].stillWaiting) &&
      (phase.Fired? ==> ev.registered[c] in ev.served)
    case SingleWaiter(took) => took ==> ev.autoReset
    case Free => true
  }

  /** A set event has no registered waits, except while a manual-reset `SetEvent` is draining. */
  predicate NoLostSignal(ev: Event) {
    ev.state && (ev.holder.Setter? ==> ev.autoReset) ==> ev.registered == []
  }

  /** A signal present in the event: set, or taken by a thread that has not cleared it yet. */
  function Token(waits: map<nat, Wait>, ev: Event): nat {
    if ev.state || ev.holder == SingleWaiter(true) ||
       (ev.holder.Registrar? && ev.holder.wait in waits && waits[ev.holder.wait].stage.Taking?) then 1 else 0
  }

  /** A `SetEvent` call in progress that has not handed its signal over. */
  function Undelivered(ev: Event): nat {
    if ev.holder.Setter? && !ev.holder.phase.Fired? then 1 else 0
  }

  ghost predicate Conserved(waits: map<nat, Wait>, ev: Event) {
    ev.autoReset ==>
      ev.singles + |ev.served| + Token(waits, ev) + Undelivered(ev) <= (if ev.initial then 1 else 0) + ev.setCalls
  }

  ghost predicate ServedOk(waits: map<nat, Wait>, e: nat, ev: Event) {
    (forall k :: 0 <= k < |ev.served| ==> EntryServed(waits, e, ev.served[k])) &&
    (forall j, k :: 0 <= j < k < |ev.served| ==> ev.served[j] != ev.served[k])
  }

  ghost predicate EventOk(waits: map<nat, Wait>, e: nat, ev: Event) {
    HolderOk(waits, e, ev) && QueueOk(waits, e, ev) && NoLostSignal(ev) && Conserved(waits, ev) && ServedOk(waits, e, ev)
  }

  ghost predicate AllAccounting(evs: seq<Event>, w: nat, wt: Wait) {
    wt.waitAll ==>
      wt.status == |wt.events| - |wt.satisfied| &&
      Outstanding(evs, w) + Unvisited(wt) <= wt.status &&
      (wt.stillWaiting ==> wt.status == Outstanding(evs, w) + Unvisited(wt)) &&
      (!InLoop(wt.stage) ==> wt.next == |wt.events|) &&
      (wt.stage == Finishing(true) ==> wt.status == 0) &&
      ((wt.stage.Leaving? || wt.stage.Returned?) && wt.stage.ok ==> wt.status == 0 && wt.stage.result == 0)
  }

  /** At most one auto-reset event has spent a signal on this wait. */
  ghost predicate AutoOnce(evs: seq<Event>, wt: Wait)
    requires Listed(evs, wt)
  {
    forall i, j | 0 <= i < |wt.events| && 0 <= j < |wt.events| && i in wt.satisfied && j in wt.satisfied ::
      (evs[wt.events[i]].autoReset && evs[wt.events[j]].autoReset ==> i == j)
  }

  ghost predicate AnyAccounting(wt: Wait) {
    !wt.waitAll ==>
      (wt.status == -1 <==> wt.satisfied == {}) &&
      (wt.status != -1 ==> wt.status >= 0 && wt.status as nat in wt.satisfied) &&
      (wt.stillWaiting && wt.stage != Finishing(true) ==> wt.satisfied == {}) &&
      (wt.stage == Finishing(true) ==> wt.status != -1) &&
      ((wt.stage.Leaving? || wt.stage.Returned?) && wt.stage.ok ==>
         wt.stage.result >= 0 && wt.stage.result as nat in wt.satisfied)
  }

  ghost predicate StageOk(evs: seq<Event>, w: nat, wt: Wait)
    requires Listed(evs, wt)
  {
    wt.next <= |wt.events| &&
    (InLoop(wt.stage) && !wt.stage.Entering? ==> wt.next < |wt.events|) &&
    (HoldsEvent(wt.stage) ==>
       var h := evs[wt.events[wt.next]].holder; h.Registrar? && h.wait == w) &&
    (InLoop(wt.stage) ==> wt.stillWaiting) &&
    (wt.stage.Peeked? ==> !evs[wt.events[wt.next]].autoReset) &&
    (wt.stage.Leaving? || wt.stage.Returned? ==> !wt.stillWaiting)
  }

  ghost predicate SatisfiedOk(evs: seq<Event>, w: nat, wt: Wait)
    requires Listed(evs, wt)
  {
    forall i :: i in wt.satisfied ==>
      i < |wt.events| && (InLoop(wt.stage) ==> i < wt.next) &&
      Registration(w, i) in evs[wt.events[i]].served
  }

  /** The event's `SetEvent` call has fired `w` and is about to signal it. */
  predicate AboutToSignal(ev: Event, w: nat) {
    ev.holder.Setter? && ev.holder.phase.Fired? && ev.holder.cursor < |ev.registered| &&
    ev.registered[ev.holder.cursor].wait == w
  }

  ghost predicate SignalComing(evs: seq<Event>, w: nat) {
    exists e :: 0 <= e < |evs| && AboutToSignal(evs[e], w)
  }

  /** A sleeper whose wait is over has been signalled, or is about to be. */
  ghost predicate WakeupOk(evs: seq<Event>, w: nat, wt: Wait) {
    wt.stage.Sleeping? && Done(wt) ==> wt.signalled || SignalComing(evs, w)
  }

  ghost predicate CountsOk(evs: seq<Event>, w: nat, wt: Wait) {
    wt.refCount == WaiterShare(wt) + Registrations(evs, w) &&
    wt.frees == if wt.refCount == 0 then 1 else 0
  }

  ghost predicate WaitOk(evs: seq<Event>, w: nat, wt: Wait) {
    Listed(evs, wt) &&
    StageOk(evs, w, wt) && CountsOk(evs, w, wt) && SatisfiedOk(evs, w, wt) && AllAccounting(evs, w, wt) &&
    AnyAccounting(wt) && (!wt.waitAll ==> AutoOnce(evs, wt)) && WakeupOk(evs, w, wt)
  }

  ghost predicate Inv(s: State) {
    (forall e :: 0 <= e < |s.events| ==> EventOk(s.waits, e, s.events[e])) &&
    (forall w :: w in s.waits ==> WaitOk(s.events, w, s.waits[w]))
  }

  // ---------------------------------------------------------------------------------------
  // Preservation
  // ---------------------------------------------------------------------------------------

  /** What a step may do to a record while working under event `e`, so that no other event
      and no other record notices. */
  ghost predicate Extends(e: nat, wt: Wait, wt': Wait) {
    wt'.events == wt.events && wt'.waitAll == wt.waitAll && wt.next <= wt'.next &&
    (!wt.stillWaiting ==> !wt'.stillWaiting) &&
    wt.satisfied <= wt'.satisfied &&
    (forall i :: i in wt'.satisfied && i !in wt.satisfied ==> i < |wt.events| && wt.events[i] == e) &&
    ((wt'.stage == wt.stage && wt'.next == wt.next) || !HoldsEvent(wt.stage) ||
     (wt.next < |wt.events| && wt.events[wt.next] == e))
  }

  /** What a step may do to an event so that no record outside `changed` notices. */
  ghost predicate Respects(ev: Event, ev': Event, changed: set<nat>) {
    ev'.autoReset == ev.autoReset && ev.served <= ev'.served &&
    (forall u: nat :: u !in changed ==>
       Count(Live(ev'), u) == Count(Live(ev), u) && Count(Unfired(ev'), u) == Count(Unfired(ev), u)) &&
    (ev.holder.Registrar? && ev.holder.wait !in changed ==>
       ev'.holder.Registrar? && ev'.holder.wait == ev.holder.wait) &&
    (forall u: nat :: u !in changed && AboutToSignal(ev, u) ==> AboutToSignal(ev', u))
  }

  /** An event does not notice what happens to a record under another event. */
  lemma OtherEvent(waits: map<nat, Wait>, e: nat, v: nat, wt': Wait, d: nat, ev: Event)
    requires EventOk(waits, d, ev) && v in waits && d != e
    requires Extends(e, waits[v], wt')
    ensures EventOk(waits[v := wt'], d, ev)
  {
  }

  lemma OtherWaitCounts(evs: seq<Event>, e: nat, ev': Event, changed: set<nat>, u: nat, wt: Wait)
    requires WaitOk(evs, u, wt) && e < |evs| && u !in changed
    requires Respects(evs[e], ev', changed)
    ensures CountsOk(evs[e := ev'], u, wt) && AllAccounting(evs[e := ev'], u, wt)
  {
    TotalsUpdate(evs, e, ev', u);
  }

  lemma OtherWaitWakeup(evs: seq<Event>, e: nat, ev': Event, changed: set<nat>, u: nat, wt: Wait)
    requires WaitOk(evs, u, wt) && e < |evs| && u !in changed
    requires Respects(evs[e], ev', changed)
    ensures WakeupOk(evs[e := ev'], u, wt)
  {
    if SignalComing(evs, u) {
      var d :| 0 <= d < |evs| && AboutToSignal(evs[d], u);
      assert AboutToSignal(evs[e := ev'][d], u);
    }
  }

  /** A record does not notice what happens to an event on behalf of another one. */
  lemma OtherWait(evs: seq<Event>, e: nat, ev': Event, changed: set<nat>, u: nat, wt: Wait)
    requires WaitOk(evs, u, wt) && e < |evs| && u !in changed
    requires Respects(evs[e], ev', changed)
    ensures WaitOk(evs[e := ev'], u, wt)
  {
    OtherWaitCounts(evs, e, ev', changed, u, wt);
    OtherWaitWakeup(evs, e, ev', changed, u, wt);
  }

  /** A step on one event and one record keeps the invariant if both stay in order. */
  lemma Frame(s: State, e: nat, ev': Event, v: nat, wt': Wait)
    requires Inv(s) && e < |s.events| && v in s.waits
    requires Extends(e, s.waits[v], wt')
    requires Respects(s.events[e], ev', {v})
    requires EventOk(s.waits[v := wt'], e, ev')
    requires WaitOk(s.events[e := ev'], v, wt')
    ensures Inv(Put(s, e, ev', v, wt'))
  {
    var s' := Put(s, e, ev', v, wt');
    forall d | 0 <= d < |s'.events| ensures EventOk(s'.waits, d, s'.events[d]) {
      if d != e { OtherEvent(s.waits, e, v, wt', d, s.events[d]); }
    }
    forall u | u in s'.waits ensures WaitOk(s'.events, u, s'.waits[u]) {
      if u != v { OtherWait(s.events, e, ev', {v}, u, s.waits[u]); }
    }
  }

  /** A step on an event alone. */
  lemma FrameEvent(s: State, e: nat, ev': Event)
    requires Inv(s) && e < |s.events|
    requires Respects(s.events[e], ev', {})
    requires EventOk(s.waits, e, ev')
    ensures Inv(PutEvent(s, e, ev'))
  {
    var s' := PutEvent(s, e, ev');
    forall u | u in s'.waits ensures WaitOk(s'.events, u, s'.waits[u]) {
      OtherWait(s.events, e, ev', {}, u, s.waits[u]);
    }
  }

  /** A step on a record alone, by a call that holds no event. */
  lemma FrameWait(s: State, v: nat, wt': Wait)
    requires Inv(s) && v in s.waits
    requires Extends(|s.events|, s.waits[v], wt')
    requires WaitOk(s.events, v, wt')
    ensures Inv(PutWait(s, v, wt'))
  {
    forall d | 0 <= d < |s.events| ensures EventOk(s.waits[v := wt'], d, s.events[d]) {
      OtherEvent(s.waits, |s.events|, v, wt', d, s.events[d]);
    }
  }
}
