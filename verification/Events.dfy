/** The Win32-style events of base/event/pevents.cpp (POSIX half, WFMO on) as a step machine.

    A state holds every event and every wait record (one per call of
    `WaitForMultipleEvents`).  A step is one critical section, or one access to an
    atomic made outside a lock.  An event's queue changes only under the event's mutex
    and a record's status only under the record's mutex, so the code between two such
    accesses is local to its thread.  Atomics are sequentially consistent. */
module Events {

  /** `neosmart_wfmo_info_t_`: the record to notify and the position of the event in its list. */
  datatype Registration = Registration(wait: nat, index: nat)

  /** Where a `SetEvent` call is in its loop, with respect to the entry under its cursor. */
  datatype SetPhase = Looking | Locking | Stale | Fired

  /** Who holds an event's mutex, and how far that thread has got. */
  datatype Holder =
    | Free
    | Registrar(wait: nat, cursor: nat)
    | SingleWaiter(took: bool)
    | Setter(phase: SetPhase, cursor: nat)

  /** An event; the last four fields are history: the initial state, the `SetEvent` calls
      begun, the single waits satisfied, and the registrations served (seen set, or fired). */
  datatype Event = Event(
    autoReset: bool,
    state: bool,
    registered: seq<Registration>,
    holder: Holder,
    initial: bool,
    setCalls: nat,
    singles: nat,
    served: seq<Registration>)

  datatype Patience = Zero | Finite | Infinite

  /** Where a `WaitForMultipleEvents` call is.  It holds its record's mutex in every stage up
      to and including `Finishing`, except `Sleeping`. */
  datatype Stage =
    | Entering
    | Peeked
    | Blocked
    | Cleaning
    | Taking
    | Checking
    | Sleeping
    | Finishing(ok: bool)
    | Leaving(ok: bool, result: int)
    | Returned(ok: bool, result: int)

  /** A wait record together with the locals of the call that made it.  `status` is the union
      of `FiredEvent` and `EventsLeft`.  The last three fields are history: deletions of the
      record, positions seen set or signalled, and whether the condition variable was
      signalled since the call last went to sleep. */
  datatype Wait = Wait(
    events: seq<nat>,
    waitAll: bool,
    patience: Patience,
    refCount: int,
    status: int,
    stillWaiting: bool,
    stage: Stage,
    next: nat,
    skipped: nat,
    frees: nat,
    satisfied: set<nat>,
    signalled: bool)

  datatype State = State(events: seq<Event>, waits: map<nat, Wait>)

  datatype Step =
    | Begin(wait: nat, list: seq<nat>, all: bool, patience: Patience)
    | Look(wait: nat)
    | Acquire(wait: nat)
    | Clean(wait: nat)
    | Try(wait: nat)
    | Store(wait: nat)
    | LoopEnd(wait: nat)
    | Check(wait: nat)
    | Wake(wait: nat, timedOut: bool)
    | Finish(wait: nat)
    | Leave(wait: nat)
    | SetCall(event: nat)
    | SetLook(event: nat)
    | SetLock(event: nat)
    | SetRelease(event: nat)
    | SetEnd(event: nat)
    | Reset(event: nat)
    | SingleLock(event: nat)
    | SingleCheck(event: nat)
    | SingleStore(event: nat)

  // ---------------------------------------------------------------------------------------
  // The steps
  // ---------------------------------------------------------------------------------------

  predicate InLoop(st: Stage) {
    st.Entering? || st.Peeked? || st.Blocked? || st.Cleaning? || st.Taking?
  }

  predicate HoldsOwnMutex(st: Stage) {
    InLoop(st) || st.Checking? || st.Finishing?
  }

  predicate HoldsEvent(st: Stage) {
    st.Cleaning? || st.Taking?
  }

  predicate Done(wt: Wait) {
    if wt.waitAll then wt.status == 0 else wt.status != -1
  }

  /** One reference given back; the thread that takes the count to zero deletes the record. */
  function Release(wt: Wait, n: nat): Wait {
    wt.(refCount := wt.refCount - n, frees := wt.frees + if wt.refCount == n then 1 else 0)
  }

  /** The bookkeeping after an event was found set during registration. */
  function Seen(wt: Wait): Wait {
    var seen := wt.(satisfied := wt.satisfied + {wt.next});
    if wt.waitAll then
      seen.(skipped := wt.skipped + 1, status := wt.status - 1, next := wt.next + 1, stage := Entering)
    else
      seen.(skipped := wt.skipped + if wt.next <= |wt.events| then |wt.events| - wt.next else 0,
            status := wt.next, stage := Finishing(true))
  }

  /** What `SetEvent` does to a waiter it has locked. */
  function Fire(wt: Wait, index: nat): Wait {
    var fired := wt.(satisfied := wt.satisfied + {index});
    if wt.waitAll then fired.(status := wt.status - 1)
    else fired.(status := index, stillWaiting := false)
  }

  function NewWait(list: seq<nat>, all: bool, patience: Patience): Wait {
    Wait(list, all, patience, 1 + |list|, if all then |list| else -1, true, Entering, 0, 0, 0, {}, false)
  }

  predicate Listed(evs: seq<Event>, wt: Wait) {
    forall i :: 0 <= i < |wt.events| ==> wt.events[i] < |evs|
  }

  predicate ValidWait(s: State, w: nat) {
    w in s.waits && Listed(s.events, s.waits[w])
  }

  /** The event a call is visiting. */
  function Visited(s: State, w: nat): nat
    requires w in s.waits && s.waits[w].next < |s.waits[w].events|
  {
    s.waits[w].events[s.waits[w].next]
  }

  predicate Visiting(s: State, w: nat) {
    ValidWait(s, w) && InLoop(s.waits[w].stage) && s.waits[w].next < |s.waits[w].events|
  }

  /** The visiting call holds the mutex of the event it visits. */
  predicate Registering(s: State, w: nat) {
    Visiting(s, w) && HoldsEvent(s.waits[w].stage) &&
    var h := s.events[Visited(s, w)].holder; h.Registrar? && h.wait == w && h.cursor <= |s.events[Visited(s, w)].registered|
  }

  /** A `SetEvent` call holds the mutex of `e` and its cursor is on an entry. */
  predicate SetterAtEntry(s: State, e: nat) {
    e < |s.events| && s.events[e].holder.Setter? && s.events[e].holder.cursor < |s.events[e].registered| &&
    s.events[e].registered[s.events[e].holder.cursor].wait in s.waits
  }

  function EntryAt(s: State, e: nat): Registration
    requires SetterAtEntry(s, e)
  {
    s.events[e].registered[s.events[e].holder.cursor]
  }

  predicate Enabled(s: State, step: Step) {
    match step
    case Begin(w, list, all, patience) => w !in s.waits && forall i :: 0 <= i < |list| ==> list[i] < |s.events|
    case Look(w) => Visiting(s, w) && (s.waits[w].stage.Entering? || s.waits[w].stage.Peeked?)
    case Acquire(w) => Visiting(s, w) && s.waits[w].stage.Blocked? && s.events[Visited(s, w)].holder.Free?
    case Clean(w) =>
      Registering(s, w) && s.waits[w].stage.Cleaning? &&
      var ev := s.events[Visited(s, w)];
      ev.holder.cursor < |ev.registered| && ev.registered[ev.holder.cursor].wait in s.waits
    case Try(w) =>
      Registering(s, w) && s.waits[w].stage.Cleaning? &&
      var ev := s.events[Visited(s, w)]; ev.holder.cursor == |ev.registered|
    case Store(w) => Registering(s, w) && s.waits[w].stage.Taking?
    case LoopEnd(w) => w in s.waits && s.waits[w].stage.Entering? && s.waits[w].next == |s.waits[w].events|
    case Check(w) => w in s.waits && s.waits[w].stage.Checking?
    case Wake(w, timedOut) => w in s.waits && s.waits[w].stage.Sleeping? && (timedOut ==> s.waits[w].patience.Finite?)
    case Finish(w) => w in s.waits && s.waits[w].stage.Finishing?
    case Leave(w) => w in s.waits && s.waits[w].stage.Leaving?
    case SetCall(e) => e < |s.events| && s.events[e].holder.Free?
    case SetLook(e) => SetterAtEntry(s, e) && s.events[e].holder.phase.Looking?
    case SetLock(e) =>
      SetterAtEntry(s, e) && s.events[e].holder.phase.Locking? &&
      !HoldsOwnMutex(s.waits[EntryAt(s, e).wait].stage)
    case SetRelease(e) => SetterAtEntry(s, e) && (s.events[e].holder.phase.Stale? || s.events[e].holder.phase.Fired?)
    case SetEnd(e) =>
      e < |s.events| && s.events[e].holder.Setter? && s.events[e].holder.phase.Looking? &&
      s.events[e].holder.cursor == |s.events[e].registered|
    case Reset(e) => e < |s.events|
    case SingleLock(e) => e < |s.events| && s.events[e].holder.Free?
    case SingleCheck(e) => e < |s.events| && s.events[e].holder == SingleWaiter(false)
    case SingleStore(e) => e < |s.events| && s.events[e].holder == SingleWaiter(true)
  }

  function Put(s: State, e: nat, ev: Event, w: nat, wt: Wait): (s': State)
    requires e < |s.events|
    ensures |s'.events| == |s.events|
  {
    State(s.events[e := ev], s.waits[w := wt])
  }

  function PutEvent(s: State, e: nat, ev: Event): (s': State)
    requires e < |s.events|
    ensures |s'.events| == |s.events|
  {
    s.(events := s.events[e := ev])
  }

  function PutWait(s: State, w: nat, wt: Wait): State {
    s.(waits := s.waits[w := wt])
  }

  /** The queue of an event without its entry `c`. */
  function Dropped(ev: Event, c: nat): Event
    requires c < |ev.registered|
  {
    ev.(registered := ev.registered[..c] + ev.registered[c + 1..])
  }

  /** `remove_if` keeps the entry under its cursor. */
  function Kept(ev: Event): Event
    requires ev.holder.Registrar?
  {
    ev.(holder := Registrar(ev.holder.wait, ev.holder.cursor + 1))
  }

  /** One call of the `remove_if` predicate: an expired entry gives its reference back and goes. */
  function DoClean(s: State, w: nat): State
    requires Enabled(s, Clean(w))
  {
    var e := Visited(s, w);
    var ev := s.events[e];
    var c := ev.holder.cursor;
    var v := ev.registered[c].wait;
    if s.waits[v].stillWaiting then
      PutEvent(s, e, Kept(ev))
    else
      Put(s, e, Dropped(ev, c), v, Release(s.waits[v], 1))
  }

  /** The registration is queued and the event unlocked. */
  function Joined(ev: Event, r: Registration): Event {
    ev.(registered := ev.registered + [r], holder := Free)
  }

  function Enlisted(wt: Wait): Wait {
    wt.(next := wt.next + 1, stage := Entering)
  }

  /** `UnlockedWaitForEvent(event, 0)` and what follows it, up to the unlock. */
  function DoTry(s: State, w: nat): State
    requires Enabled(s, Try(w))
  {
    var e := Visited(s, w);
    var ev := s.events[e];
    var wt := s.waits[w];
    if !ev.state then
      Put(s, e, Joined(ev, Registration(w, wt.next)), w, Enlisted(wt))
    else if ev.autoReset then
      PutWait(s, w, wt.(stage := Taking))
    else
      Put(s, e, ev.(holder := Free, served := ev.served + [Registration(w, wt.next)]), w, Seen(wt))
  }

  function DoStore(s: State, w: nat): State
    requires Enabled(s, Store(w))
  {
    var e := Visited(s, w);
    var ev := s.events[e];
    var wt := s.waits[w];
    Put(s, e, ev.(state := false, holder := Free, served := ev.served + [Registration(w, wt.next)]), w, Seen(wt))
  }

  function DoLook(s: State, w: nat): State
    requires Enabled(s, Look(w))
  {
    var e := Visited(s, w);
    var ev := s.events[e];
    var wt := s.waits[w];
    if ev.autoReset || !ev.state then PutWait(s, w, wt.(stage := Blocked))
    else if wt.stage.Entering? then PutWait(s, w, wt.(stage := Peeked))
    else Put(s, e, ev.(served := ev.served + [Registration(w, wt.next)]), w, Seen(wt))
  }

  /** The condition of the wait loop, with the record's mutex held. */
  function DoCheck(wt: Wait): Wait {
    if Done(wt) then wt.(stage := Finishing(true))
    else if wt.patience.Zero? then wt.(stage := Finishing(false))
    else wt.(stage := Sleeping, signalled := false)
  }

  /** The condition wait returns: signalled, spuriously, or timed out. */
  function Woken(wt: Wait, timedOut: bool): Wait {
    wt.(stage := if timedOut then Finishing(false) else Checking)
  }

  /** `waitIndex` is read and the record stops waiting; then its mutex is released. */
  function Finished(wt: Wait): Wait
    requires wt.stage.Finishing?
  {
    wt.(stillWaiting := false, stage := Leaving(wt.stage.ok, wt.status))
  }

  /** The call gives back its own reference and those of the events it skipped. */
  function Left(wt: Wait): Wait
    requires wt.stage.Leaving?
  {
    Release(wt, 1 + wt.skipped).(stage := Returned(wt.stage.ok, wt.stage.result))
  }

  /** `SetEvent` locks the event; a manual-reset event is set at once. */
  function Called(ev: Event): Event {
    ev.(holder := Setter(Looking, 0), setCalls := ev.setCalls + 1, state := ev.state || !ev.autoReset)
  }

  /** The drained queue is left empty; an auto-reset event nobody took becomes set. */
  function Ended(ev: Event): Event {
    ev.(holder := Free, state := ev.state || ev.autoReset, registered := [])
  }

  /** A single wait reads the state under the lock. */
  function Looked(ev: Event): Event {
    ev.(holder := if ev.state && ev.autoReset then SingleWaiter(true) else Free)
  }

  /** A single wait clears the auto-reset event it obtained. */
  function Taken(ev: Event): Event {
    ev.(holder := Free, state := false, singles := ev.singles + 1)
  }

  function DoSetLook(s: State, e: nat): State
    requires Enabled(s, SetLook(e))
  {
    var ev := s.events[e];
    var phase := if s.waits[EntryAt(s, e).wait].stillWaiting then Locking else Stale;
    PutEvent(s, e, ev.(holder := Setter(phase, ev.holder.cursor)))
  }

  /** The event after its `SetEvent` call has fired the entry under its cursor. */
  function FiredEvent(ev: Event): Event
    requires ev.holder.Setter? && ev.holder.cursor < |ev.registered|
  {
    ev.(holder := Setter(Fired, ev.holder.cursor), served := ev.served + [ev.registered[ev.holder.cursor]])
  }

  /** The critical section on the waiter's mutex; only the auto-reset path looks at
      `StillWaiting` a second time. */
  function DoSetLock(s: State, e: nat): State
    requires Enabled(s, SetLock(e))
  {
    var ev := s.events[e];
    var r := EntryAt(s, e);
    var wt := s.waits[r.wait];
    if ev.autoReset && !wt.stillWaiting then
      PutEvent(s, e, ev.(holder := Setter(Stale, ev.holder.cursor)))
    else
      Put(s, e, FiredEvent(ev), r.wait, Fire(wt, r.index))
  }

  /** The event after the entry under the cursor has been dealt with: an auto-reset call pops
      it and, after firing, returns; a manual-reset call moves its cursor on. */
  function Advanced(ev: Event): Event
    requires ev.holder.Setter? && ev.holder.cursor < |ev.registered|
  {
    if !ev.autoReset then ev.(holder := Setter(Looking, ev.holder.cursor + 1))
    else ev.(registered := ev.registered[1..], holder := if ev.holder.phase.Fired? then Free else Setter(Looking, 0))
  }

  /** Signal the record if it was fired, give the entry's reference back, move on. */
  function DoSetRelease(s: State, e: nat): State
    requires Enabled(s, SetRelease(e))
  {
    var v := EntryAt(s, e).wait;
    var signalled := s.waits[v].signalled || s.events[e].holder.phase.Fired?;
    Put(s, e, Advanced(s.events[e]), v, Release(s.waits[v].(signalled := signalled), 1))
  }

  /** Take one enabled step. */
  function Apply(s: State, step: Step): (s': State)
    requires Enabled(s, step)
    ensures |s'.events| == |s.events|
  {
    match step
    case Begin(w, list, all, patience) => PutWait(s, w, NewWait(list, all, patience))
    case Look(w) => DoLook(s, w)
    case Acquire(w) =>
      var e := Visited(s, w);
      Put(s, e, s.events[e].(holder := Registrar(w, 0)), w, s.waits[w].(stage := Cleaning))
    case Clean(w) => DoClean(s, w)
    case Try(w) => DoTry(s, w)
    case Store(w) => DoStore(s, w)
    case LoopEnd(w) => PutWait(s, w, s.waits[w].(stage := Checking))
    case Check(w) => PutWait(s, w, DoCheck(s.waits[w]))
    case Wake(w, timedOut) => PutWait(s, w, Woken(s.waits[w], timedOut))
    case Finish(w) => PutWait(s, w, Finished(s.waits[w]))
    case Leave(w) => PutWait(s, w, Left(s.waits[w]))
    case SetCall(e) => PutEvent(s, e, Called(s.events[e]))
    case SetLook(e) => DoSetLook(s, e)
    case SetLock(e) => DoSetLock(s, e)
    case SetRelease(e) => DoSetRelease(s, e)
    case SetEnd(e) => PutEvent(s, e, Ended(s.events[e]))
    case Reset(e) => PutEvent(s, e, s.events[e].(state := false))
    case SingleLock(e) => PutEvent(s, e, s.events[e].(holder := SingleWaiter(false)))
    case SingleCheck(e) => PutEvent(s, e, Looked(s.events[e]))
    case SingleStore(e) => PutEvent(s, e, Taken(s.events[e]))
  }
}
