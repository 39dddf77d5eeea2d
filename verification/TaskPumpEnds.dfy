/** When the loops of the pump end.  Arrivals may go on for ever here: a turn for every iteration
    that a loop could make. */
module TaskPumpEnds {
  import opened Basics
  import opened TaskQueue
  import opened TaskPump
  import opened TaskPumpTheorems

  // ---------------------------------------------------------------------------------------
  // The loop over delayed tasks
  // ---------------------------------------------------------------------------------------

  /** The loop makes another iteration. */
  predicate Goes(q: Contents, now: int, turn: Turn) {
    q.tasks != [] && var seen := PushAll(q, turn.beforePeek).tasks; seen != [] && now > seen[0].tick
  }

  /** The queue after one iteration, up to the next look at its length. */
  function After(q: Contents, now: int, turn: Turn, next: Turn): Contents
    requires Goes(q, now, turn)
  {
    AtPopUrgent(q, turn);
    PushAll(AfterRun(q, now, turn), next.beforeLength)
  }

  /** The queue after `n` iterations from turn `k` on, if the loop gets that far. */
  function Iterations(q: Contents, now: int, turns: nat -> Turn, k: nat, n: nat): Option<Contents>
    decreases n
  {
    if n == 0 then Some(q)
    else if Goes(q, now, turns(k)) then Iterations(After(q, now, turns(k), turns(k + 1)), now, turns, k + 1, n - 1)
    else None
  }

  /** What a task can do to the loop: keep it busy for ever, or keep the queue from getting empty. */
  datatype Effect = KeepsBusy | KeepsFilled

  predicate Has(t: Task, now: int, effect: Effect) {
    match effect
    case KeepsBusy => Hopeless(t, now)
    case KeepsFilled => t.tick >= now || t.times == -1 || (t.interval >= 0 && t.times >= 2)
  }

  predicate Any(ts: seq<Task>, now: int, effect: Effect) {
    ts != [] && (Has(ts[0], now, effect) || Any(ts[1..], now, effect))
  }

  lemma {:induction false} WorkAppend(a: seq<Task>, b: seq<Task>, now: int)
    ensures Work(a + b, now) == Work(a, now) + Work(b, now)
  {
    if a == [] {
      assert a + b == b;
    } else {
      assert (a + b)[1..] == a[1..] + b;
      WorkAppend(a[1..], b, now);
    }
  }

  lemma {:induction false} AnyAppend(a: seq<Task>, b: seq<Task>, now: int, effect: Effect)
    ensures Any(a + b, now, effect) <==> Any(a, now, effect) || Any(b, now, effect)
  {
    if a == [] {
      assert a + b == b;
    } else {
      assert (a + b)[1..] == a[1..] + b;
      AnyAppend(a[1..], b, now, effect);
    }
  }

  lemma {:induction false} AnyInsert(ts: seq<Task>, t: Task, now: int, effect: Effect)
    ensures Any(Insert(ts, t), now, effect) <==> Has(t, now, effect) || Any(ts, now, effect)
  {
    if ts != [] && !Before(t, ts[0]) {
      AnyInsert(ts[1..], t, now, effect);
    }
  }

  lemma {:induction false} PushAllWork(q: Contents, ts: seq<Task>, now: int)
    ensures Work(PushAll(q, ts).tasks, now) == Work(q.tasks, now) + Work(ts, now)
    decreases |ts|
  {
    if ts != [] {
      InsertWork(q.tasks, ts[0].(sequence := q.next), now);
      PushAllWork(Push(q, ts[0]), ts[1..], now);
    }
  }

  lemma {:induction false} PushAllAny(q: Contents, ts: seq<Task>, now: int, effect: Effect)
    ensures Any(PushAll(q, ts).tasks, now, effect) <==> Any(q.tasks, now, effect) || Any(ts, now, effect)
    decreases |ts|
  {
    if ts != [] {
      AnyInsert(q.tasks, ts[0].(sequence := q.next), now, effect);
      PushAllAny(Push(q, ts[0]), ts[1..], now, effect);
    }
  }

  lemma {:induction false} NoneBusy(ts: seq<Task>, now: int)
    ensures AllTame(ts, now) <==> !Any(ts, now, KeepsBusy)
  {
    if ts != [] {
      NoneBusy(ts[1..], now);
    }
  }

  /** What arrives between two looks at the length. */
  function Came(turn: Turn, next: Turn): seq<Task> {
    turn.beforePeek + turn.beforePop + turn.duringRun + next.beforeLength
  }

  /** A task that is due runs and goes back, or not: one piece of work is done unless it is hopeless,
      and what it does to the loop is the same afterwards. */
  lemma RequeuedSame(t: Task, now: int, effect: Effect)
    requires t.tick < now
    ensures match Requeued(t, now)
      case None => RunsNow(t, now) == 1 && !Has(t, now, effect)
      case Some(t') =>
        (!Hopeless(t, now) ==> RunsNow(t', now) + 1 == RunsNow(t, now)) && (Has(t', now, effect) <==> Has(t, now, effect))
  {
  }

  lemma CameWork(turn: Turn, next: Turn, now: int)
    ensures Work(Came(turn, next), now) ==
      Work(turn.beforePeek, now) + Work(turn.beforePop, now) + Work(turn.duringRun, now) + Work(next.beforeLength, now)
  {
    WorkAppend(turn.beforePeek, turn.beforePop, now);
    WorkAppend(turn.beforePeek + turn.beforePop, turn.duringRun, now);
    WorkAppend(turn.beforePeek + turn.beforePop + turn.duringRun, next.beforeLength, now);
  }

  lemma CameAny(turn: Turn, next: Turn, now: int, effect: Effect)
    ensures Any(Came(turn, next), now, effect) <==>
      Any(turn.beforePeek, now, effect) || Any(turn.beforePop, now, effect) || Any(turn.duringRun, now, effect) ||
      Any(next.beforeLength, now, effect)
  {
    AnyAppend(turn.beforePeek, turn.beforePop, now, effect);
    AnyAppend(turn.beforePeek + turn.beforePop, turn.duringRun, now, effect);
    AnyAppend(turn.beforePeek + turn.beforePop + turn.duringRun, next.beforeLength, now, effect);
  }

  /** An iteration does one piece of work, if the task it runs is not hopeless. */
  lemma StepWork(q: Contents, now: int, turn: Turn, next: Turn)
    requires Goes(q, now, turn) && !Any(After(q, now, turn, next).tasks, now, KeepsBusy)
    ensures Work(After(q, now, turn, next).tasks, now) + 1 == Work(q.tasks, now) + Work(Came(turn, next), now)
  {
    StepAny(q, now, turn, next, KeepsBusy);
    AtPopUrgent(q, turn);
    CameWork(turn, next, now);
    CameAny(turn, next, now, KeepsBusy);
    var popped := AtPop(q, turn);
    PushAllAny(q, turn.beforePeek, now, KeepsBusy);
    PushAllAny(PushAll(q, turn.beforePeek), turn.beforePop, now, KeepsBusy);
    RequeuedSame(popped.tasks[0], now, KeepsBusy);
    PushAllWork(q, turn.beforePeek, now);
    PushAllWork(PushAll(q, turn.beforePeek), turn.beforePop, now);
    PushAllWork(Pop(popped), turn.duringRun, now);
    var q' := PushAll(Pop(popped), turn.duringRun);
    if Requeued(popped.tasks[0], now).Some? {
      InsertWork(q'.tasks, Requeued(popped.tasks[0], now).value.(sequence := q'.next), now);
    }
    PushAllWork(AfterRun(q, now, turn), next.beforeLength, now);
  }

  /** What is left has the effects of what was there and what came. */
  lemma StepAny(q: Contents, now: int, turn: Turn, next: Turn, effect: Effect)
    requires Goes(q, now, turn)
    ensures Any(After(q, now, turn, next).tasks, now, effect) <==>
      Any(q.tasks, now, effect) || Any(Came(turn, next), now, effect)
  {
    AtPopUrgent(q, turn);
    CameAny(turn, next, now, effect);
    var popped := AtPop(q, turn);
    PushAllAny(q, turn.beforePeek, now, effect);
    PushAllAny(PushAll(q, turn.beforePeek), turn.beforePop, now, effect);
    RequeuedSame(popped.tasks[0], now, effect);
    PushAllAny(Pop(popped), turn.duringRun, now, effect);
    var q' := PushAll(Pop(popped), turn.duringRun);
    if Requeued(popped.tasks[0], now).Some? {
      AnyInsert(q'.tasks, Requeued(popped.tasks[0], now).value.(sequence := q'.next), now, effect);
    }
    PushAllAny(AfterRun(q, now, turn), next.beforeLength, now, effect);
  }

  lemma StepOrdered(q: Contents, now: int, turn: Turn, next: Turn)
    requires Ordered(q) && Goes(q, now, turn)
    ensures Ordered(After(q, now, turn, next))
  {
    NextOrdered(q, now, [turn, next]);
  }

  /** Everything that has come from turn `k` on when the length is read `m` iterations later. */
  function Brought(turns: nat -> Turn, k: nat, m: nat): seq<Task>
    decreases m
  {
    if m == 0 then [] else Came(turns(k), turns(k + 1)) + Brought(turns, k + 1, m - 1)
  }

  /** `m` iterations are enough for these tasks, and none of them has the effect. */
  predicate Enough(ts: seq<Task>, now: int, m: nat, effect: Effect) {
    Work(ts, now) <= m && !Any(ts, now, effect)
  }

  /** The loop has done all it has to by its `m`-th iteration: it finds the queue empty, or no task
      due in it. */
  predicate EndsBy(q: Contents, now: int, turns: nat -> Turn, k: nat, m: nat) {
    var ts := q.tasks + Brought(turns, k, m);
    Enough(ts, now, m, KeepsFilled) || Enough(ts + turns(k + m).beforePeek, now, m, KeepsBusy)
  }

  lemma {:induction false} NothingDue(ts: seq<Task>, now: int)
    requires Sorted(ts) && (ts == [] || ts[0].tick >= now)
    ensures Work(ts, now) == 0 && !Any(ts, now, KeepsBusy)
  {
    if ts != [] {
      if ts[1..] != [] {
        SortedHead(ts, ts[1]);
      }
      NothingDue(ts[1..], now);
    }
  }

  /** At the first look. */
  lemma EndsAtOnce(q: Contents, now: int, turns: nat -> Turn, k: nat)
    requires Ordered(q)
    ensures EndsBy(q, now, turns, k, 0) <==> !Goes(q, now, turns(k))
  {
    var peek := turns(k).beforePeek;
    assert q.tasks + [] == q.tasks;
    WorkAppend(q.tasks, peek, now);
    AnyAppend(q.tasks, peek, now, KeepsBusy);
    PushAllOrdered(q, peek);
    PushAllWork(q, peek, now);
    PushAllAny(q, peek, now, KeepsBusy);
    if q.tasks != [] {
      TopOnlyMoreUrgent(q, peek);
      if !Goes(q, now, turns(k)) {
        NothingDue(PushAll(q, peek).tasks, now);
      }
    }
  }

  /** After one iteration one less is to come. */
  lemma EndsByLater(q: Contents, now: int, turns: nat -> Turn, k: nat, m: nat)
    requires Goes(q, now, turns(k)) && m > 0
    ensures EndsBy(q, now, turns, k, m) <==> EndsBy(After(q, now, turns(k), turns(k + 1)), now, turns, k + 1, m - 1)
  {
    var came, later := Came(turns(k), turns(k + 1)), Brought(turns, k + 1, m - 1);
    var q', peek := After(q, now, turns(k), turns(k + 1)), turns(k + m).beforePeek;
    EnoughLater(q, now, turns(k), turns(k + 1), later, m, KeepsFilled);
    EnoughLater(q, now, turns(k), turns(k + 1), later + peek, m, KeepsBusy);
    assert q.tasks + (came + later) == q.tasks + came + later;
    assert q.tasks + (came + later) + peek == q.tasks + came + (later + peek);
    assert q'.tasks + later + peek == q'.tasks + (later + peek);
  }

  lemma EnoughLater(q: Contents, now: int, turn: Turn, next: Turn, later: seq<Task>, m: nat, effect: Effect)
    requires Goes(q, now, turn) && m > 0
    ensures Enough(q.tasks + Came(turn, next) + later, now, m, effect) <==>
      Enough(After(q, now, turn, next).tasks + later, now, m - 1, effect)
  {
    var q', came := After(q, now, turn, next), Came(turn, next);
    AnyAppend(q.tasks, came, now, effect);
    AnyAppend(q.tasks + came, later, now, effect);
    AnyAppend(q'.tasks, later, now, effect);
    StepAny(q, now, turn, next, effect);
    WorkAppend(q.tasks, came, now);
    WorkAppend(q.tasks + came, later, now);
    WorkAppend(q'.tasks, later, now);
    if !Any(q'.tasks, now, effect) {
      BusyFills(q'.tasks, now);
      StepWork(q, now, turn, next);
    }
  }

  /** A task that keeps the loop busy keeps the queue filled. */
  lemma {:induction false} BusyFills(ts: seq<Task>, now: int)
    ensures Any(ts, now, KeepsBusy) ==> Any(ts, now, KeepsFilled)
  {
    if ts != [] {
      BusyFills(ts[1..], now);
    }
  }

  /** One of the first `n` looks comes when the loop has done all it has to. */
  ghost predicate EndsWithin(q: Contents, now: int, turns: nat -> Turn, k: nat, n: nat) {
    exists m: nat :: m < n && EndsBy(q, now, turns, k, m)
  }

  lemma EndsWithinLater(q: Contents, now: int, turns: nat -> Turn, k: nat, n: nat)
    requires Ordered(q) && Goes(q, now, turns(k)) && n > 0
    ensures EndsWithin(q, now, turns, k, n) <==>
      EndsWithin(After(q, now, turns(k), turns(k + 1)), now, turns, k + 1, n - 1)
  {
    hide EndsBy, Goes, After;
    var q', k' := After(q, now, turns(k), turns(k + 1)), k + 1;
    EndsAtOnce(q, now, turns, k);
    if m: nat :| m < n && EndsBy(q, now, turns, k, m) {
      EndsByLater(q, now, turns, k, m);
      assert m - 1 < n - 1 && EndsBy(q', now, turns, k', m - 1);
    }
    if m: nat :| m < n - 1 && EndsBy(q', now, turns, k', m) {
      EndsByLater(q, now, turns, k, m + 1);
      assert m + 1 < n && EndsBy(q, now, turns, k, m + 1);
    }
  }

  /** Whatever arrives, for ever and in any step: the loop ends within `n` looks at the queue if and
      only if one of them comes when all the work brought so far is done. */
  lemma {:induction false} EndsExactly(q: Contents, now: int, turns: nat -> Turn, k: nat, n: nat)
    requires Ordered(q)
    ensures Iterations(q, now, turns, k, n).None? <==> EndsWithin(q, now, turns, k, n)
    decreases n
  {
    hide EndsBy, Goes, After;
    if n > 0 {
      EndsAtOnce(q, now, turns, k);
      if Goes(q, now, turns(k)) {
        StepOrdered(q, now, turns(k), turns(k + 1));
        EndsExactly(After(q, now, turns(k), turns(k + 1)), now, turns, k + 1, n - 1);
        EndsWithinLater(q, now, turns, k, n);
      } else {
        assert 0 < n && EndsBy(q, now, turns, k, 0);
      }
    }
  }

  lemma {:induction false} LateQuiet(ts: seq<Task>, now: int)
    requires NotBefore(ts, now)
    ensures Work(ts, now) == 0 && !Any(ts, now, KeepsBusy)
  {
    if ts != [] {
      LateQuiet(ts[1..], now);
    }
  }

  lemma CameLate(turn: Turn, next: Turn, now: int)
    requires LateTurn(turn, now) && LateTurn(next, now)
    ensures Work(Came(turn, next), now) == 0 && !Any(Came(turn, next), now, KeepsBusy)
  {
    LateQuiet(turn.beforePeek, now);
    LateQuiet(turn.beforePop, now);
    LateQuiet(turn.duringRun, now);
    LateQuiet(next.beforeLength, now);
    CameWork(turn, next, now);
    CameAny(turn, next, now, KeepsBusy);
  }

  lemma {:induction false} BroughtLate(turns: nat -> Turn, k: nat, m: nat, now: int)
    requires forall i: nat :: LateTurn(turns(i), now)
    ensures Work(Brought(turns, k, m), now) == 0 && !Any(Brought(turns, k, m), now, KeepsBusy)
    decreases m
  {
    if m > 0 {
      CameLate(turns(k), turns(k + 1), now);
      BroughtLate(turns, k + 1, m - 1, now);
      WorkAppend(Came(turns(k), turns(k + 1)), Brought(turns, k + 1, m - 1), now);
      AnyAppend(Came(turns(k), turns(k + 1)), Brought(turns, k + 1, m - 1), now, KeepsBusy);
    }
  }

  lemma EndsByLate(q: Contents, now: int, turns: nat -> Turn, m: nat)
    requires forall i: nat :: LateTurn(turns(i), now)
    ensures EndsBy(q, now, turns, 0, m) ==> !Any(q.tasks, now, KeepsBusy)
    ensures !Any(q.tasks, now, KeepsBusy) && Work(q.tasks, now) <= m ==> EndsBy(q, now, turns, 0, m)
  {
    var brought, peek := Brought(turns, 0, m), turns(m).beforePeek;
    BroughtLate(turns, 0, m, now);
    assert LateTurn(turns(m), now);
    LateQuiet(peek, now);
    BusyFills(q.tasks + brought, now);
    WorkAppend(q.tasks, brought, now);
    WorkAppend(q.tasks + brought, peek, now);
    AnyAppend(q.tasks, brought, now, KeepsBusy);
    AnyAppend(q.tasks + brought, peek, now, KeepsBusy);
  }

  /** If what arrives during the pass is not due, however much it is, the loop ends if and only if no
      task that is due repeats for ever with a negative interval, and then in as many iterations as
      the due tasks have runs. */
  lemma EndsWhenLate(q: Contents, now: int, turns: nat -> Turn)
    requires Ordered(q) && forall i: nat :: LateTurn(turns(i), now)
    ensures (exists n: nat :: Iterations(q, now, turns, 0, n).None?) <==> !Any(q.tasks, now, KeepsBusy)
    ensures !Any(q.tasks, now, KeepsBusy) ==> Iterations(q, now, turns, 0, Work(q.tasks, now) + 1).None?
  {
    hide EndsBy, Iterations, Work;
    var work := Work(q.tasks, now);
    EndsByLate(q, now, turns, work);
    EndsExactly(q, now, turns, 0, work + 1);
    if !Any(q.tasks, now, KeepsBusy) {
      assert work < work + 1 && EndsBy(q, now, turns, 0, work);
    }
    if n: nat :| Iterations(q, now, turns, 0, n).None? {
      EndsExactly(q, now, turns, 0, n);
      var m: nat :| m < n && EndsBy(q, now, turns, 0, m);
      EndsByLate(q, now, turns, m);
    }
  }

  lemma {:induction false} BroughtMuch(turns: nat -> Turn, k: nat, m: nat, now: int)
    requires forall i: nat :: Work(turns(i).duringRun, now) > 0
    ensures Work(Brought(turns, k, m), now) >= m
    decreases m
  {
    if m > 0 {
      assert Work(turns(k).duringRun, now) > 0;
      CameWork(turns(k), turns(k + 1), now);
      BroughtMuch(turns, k + 1, m - 1, now);
      WorkAppend(Came(turns(k), turns(k + 1)), Brought(turns, k + 1, m - 1), now);
    }
  }

  /** If every task that runs submits one that is due already, the loop never ends. */
  lemma NeverEnds(q: Contents, now: int, turns: nat -> Turn, n: nat)
    requires Ordered(q) && Work(q.tasks, now) > 0
    requires forall i: nat :: Work(turns(i).duringRun, now) > 0
    ensures Iterations(q, now, turns, 0, n).Some?
  {
    EndsExactly(q, now, turns, 0, n);
    forall m: nat ensures !EndsBy(q, now, turns, 0, m) {
      var ts := q.tasks + Brought(turns, 0, m);
      BroughtMuch(turns, 0, m, now);
      WorkAppend(q.tasks, Brought(turns, 0, m), now);
      WorkAppend(ts, turns(m).beforePeek, now);
    }
  }

  /** A task submitted to run once after `delay`, at the tick of the pass. */
  function Again(now: int, delay: int): Task {
    Task(0, 0, now + delay, 1, 0)
  }

  /** With a negative delay: no task of this run is hopeless or repeats, and yet the loop does not
      end. */
  lemma SelfSubmitting(now: int, delay: int, n: nat)
    requires delay < 0
    ensures var q, turns := Contents([Again(now, delay)], 1), (k: nat) => Turn([], [], [], [Again(now, delay)]);
      Steady(q.tasks) && (forall k: nat :: SteadyTurns([turns(k)]) && TameTurn(turns(k), now)) &&
      Iterations(q, now, turns, 0, n).Some?
  {
    var q, turns := Contents([Again(now, delay)], 1), (k: nat) => Turn([], [], [], [Again(now, delay)]);
    assert Work([Again(now, delay)], now) == 1;
    NeverEnds(q, now, turns, n);
  }

  // ---------------------------------------------------------------------------------------
  // Loops that end
  // ---------------------------------------------------------------------------------------

  /** The tasks run in `n` iterations. */
  function Log(q: Contents, now: int, turns: nat -> Turn, k: nat, n: nat): seq<Task>
    requires Iterations(q, now, turns, k, n).Some?
    decreases n
  {
    if n == 0 then []
    else
      AtPopUrgent(q, turns(k));
      [AtPop(q, turns(k)).tasks[0]] + Log(After(q, now, turns(k), turns(k + 1)), now, turns, k + 1, n - 1)
  }

  /** The queue that the last look leaves. */
  function LastSeen(q: Contents, turn: Turn): Contents {
    if q.tasks == [] then q else PushAll(q, turn.beforePeek)
  }

  /** What has arrived by the end of a loop that makes `n` iterations, as a list. */
  function Given(q: Contents, now: int, turns: nat -> Turn, k: nat, n: nat): (r: seq<Turn>)
    requires Iterations(q, now, turns, k, n).Some?
    ensures r != [] && r[0].beforeLength == turns(k).beforeLength
    decreases n
  {
    if n == 0 then [Turn(turns(k).beforeLength, if q.tasks == [] then [] else turns(k).beforePeek, [], [])]
    else [turns(k)] + Given(After(q, now, turns(k), turns(k + 1)), now, turns, k + 1, n - 1)
  }

  /** A loop that ends, whatever could have arrived later, is a pass over a list of arrivals: that
      the pass is specified, and the loop proved, over lists leaves out only loops that never end. */
  lemma {:induction false} EndedIsPass(q: Contents, now: int, turns: nat -> Turn, k: nat, n: nat)
    requires Ordered(q) && Iterations(q, now, turns, k, n).Some?
    requires !Goes(Iterations(q, now, turns, k, n).value, now, turns(k + n))
    ensures AllTame(q.tasks, now)
    ensures AllTame(turns(k).beforeLength, now) ==>
      TameTurns(Given(q, now, turns, k, n), now) &&
      Drain(q, now, Given(q, now, turns, k, n)) ==
        (LastSeen(Iterations(q, now, turns, k, n).value, turns(k + n)), Log(q, now, turns, k, n))
    decreases n
  {
    hide Goes, After, Drain, AllTame, AtPop, LastSeen;
    if n == 0 {
      EndedAtOnce(q, now, turns(k));
      if AllTame(turns(k).beforeLength, now) {
        PassAtOnce(q, now, turns(k), Given(q, now, turns, k, 0)[0]);
      }
    } else {
      var turn, next := turns(k), turns(k + 1);
      var q' := After(q, now, turn, next);
      StepOrdered(q, now, turn, next);
      assert k + 1 + (n - 1) == k + n;
      EndedIsPass(q', now, turns, k + 1, n - 1);
      StepTame(q, now, turn, next);
      if AllTame(turn.beforeLength, now) {
        var rest := Given(q', now, turns, k + 1, n - 1);
        assert Given(q, now, turns, k, n) == [turn] + rest;
        OneMorePass(q, now, turn, next, rest);
      }
    }
  }

  lemma {:induction false} OneMorePass(q: Contents, now: int, turn: Turn, next: Turn, rest: seq<Turn>)
    requires Goes(q, now, turn) && rest != [] && rest[0].beforeLength == next.beforeLength
    requires AllTame(q.tasks, now) && TameTurn(turn, now) && TameTurns(rest, now)
    requires AllTame(After(q, now, turn, next).tasks, now)
    ensures AtPop(q, turn).tasks != [] && TameTurns([turn] + rest, now)
    ensures var (qf, runs) := Drain(After(q, now, turn, next), now, rest);
      Drain(q, now, [turn] + rest) == (qf, [AtPop(q, turn).tasks[0]] + runs)
  {
    AtPopUrgent(q, turn);
    assert Rest([turn] + rest) == rest;
    DrainStep(q, now, [turn] + rest);
  }

  /** So for every queue, and all that could arrive from the first look on. */
  lemma EveryEndIsPass(q0: Contents, now: int, turns: nat -> Turn, n: nat)
    requires Ordered(q0)
    requires var q := PushAll(q0, turns(0).beforeLength);
      Iterations(q, now, turns, 0, n).Some? && !Goes(Iterations(q, now, turns, 0, n).value, now, turns(n))
    ensures var q := PushAll(q0, turns(0).beforeLength);
      var pass := Pass([], now, Given(q, now, turns, 0, n), false);
      AllTame(q0.tasks, now) && TameTurns(pass.delayed, now) &&
      DelayedPass(q0, pass) == (LastSeen(Iterations(q, now, turns, 0, n).value, turns(n)), Log(q, now, turns, 0, n))
  {
    var q := PushAll(q0, turns(0).beforeLength);
    PushAllOrdered(q0, turns(0).beforeLength);
    EndedIsPass(q, now, turns, 0, n);
    PushAllAny(q0, turns(0).beforeLength, now, KeepsBusy);
    NoneBusy(q0.tasks, now);
    NoneBusy(turns(0).beforeLength, now);
    NoneBusy(q.tasks, now);
  }

  lemma PassAtOnce(q: Contents, now: int, turn: Turn, last: Turn)
    requires !Goes(q, now, turn) && AllTame(q.tasks, now) && TameTurn(last, now)
    requires q.tasks != [] ==> last.beforePeek == turn.beforePeek
    ensures TameTurns([last], now) && Drain(q, now, [last]) == (LastSeen(q, turn), [])
  {
    assert Head([last]) == last;
    if q.tasks != [] {
      TopOnlyMoreUrgent(q, turn.beforePeek);
    }
  }

  lemma EndedAtOnce(q: Contents, now: int, turn: Turn)
    requires Ordered(q) && !Goes(q, now, turn)
    ensures AllTame(q.tasks, now) && (q.tasks != [] ==> AllTame(turn.beforePeek, now))
  {
    if q.tasks != [] {
      TopOnlyMoreUrgent(q, turn.beforePeek);
      PushAllOrdered(q, turn.beforePeek);
      NothingDue(PushAll(q, turn.beforePeek).tasks, now);
      PushAllAny(q, turn.beforePeek, now, KeepsBusy);
      NoneBusy(q.tasks, now);
      NoneBusy(turn.beforePeek, now);
    }
  }

  lemma StepTame(q: Contents, now: int, turn: Turn, next: Turn)
    requires Goes(q, now, turn) && AllTame(After(q, now, turn, next).tasks, now)
    ensures AllTame(q.tasks, now) && AllTame(turn.beforePeek, now) && AllTame(turn.beforePop, now)
    ensures AllTame(turn.duringRun, now) && AllTame(next.beforeLength, now)
  {
    StepAny(q, now, turn, next, KeepsBusy);
    CameAny(turn, next, now, KeepsBusy);
    NoneBusy(After(q, now, turn, next).tasks, now);
    NoneBusy(q.tasks, now);
    NoneBusy(turn.beforePeek, now);
    NoneBusy(turn.beforePop, now);
    NoneBusy(turn.duringRun, now);
    NoneBusy(next.beforeLength, now);
  }

  // ---------------------------------------------------------------------------------------
  // The loop over immediate tasks
  // ---------------------------------------------------------------------------------------

  /** The immediate queue after one iteration, up to the next look at its length. */
  function AfterNow(q: Contents, turn: NowTurn, next: NowTurn): Contents
    requires q.tasks != []
  {
    TopOnlyMoreUrgent(q, turn.beforePop);
    PushAll(PushAll(Pop(PushAll(q, turn.beforePop)), turn.duringRun), next.beforeLength)
  }

  function IterationsNow(q: Contents, turns: nat -> NowTurn, k: nat, n: nat): Option<Contents>
    decreases n
  {
    if n == 0 then Some(q)
    else if q.tasks != [] then IterationsNow(AfterNow(q, turns(k), turns(k + 1)), turns, k + 1, n - 1)
    else None
  }

  function CameNow(turn: NowTurn, next: NowTurn): seq<Task> {
    turn.beforePop + turn.duringRun + next.beforeLength
  }

  function BroughtNow(turns: nat -> NowTurn, k: nat, m: nat): seq<Task>
    decreases m
  {
    if m == 0 then [] else CameNow(turns(k), turns(k + 1)) + BroughtNow(turns, k + 1, m - 1)
  }

  lemma {:induction false} InsertLength(ts: seq<Task>, t: Task)
    ensures |Insert(ts, t)| == |ts| + 1
  {
    if ts != [] && !Before(t, ts[0]) {
      InsertLength(ts[1..], t);
    }
  }

  lemma {:induction false} PushAllLength(q: Contents, ts: seq<Task>)
    ensures |PushAll(q, ts).tasks| == |q.tasks| + |ts|
    decreases |ts|
  {
    if ts != [] {
      InsertLength(q.tasks, ts[0].(sequence := q.next));
      PushAllLength(Push(q, ts[0]), ts[1..]);
    }
  }

  lemma StepLength(q: Contents, turn: NowTurn, next: NowTurn)
    requires q.tasks != []
    ensures |AfterNow(q, turn, next).tasks| + 1 == |q.tasks| + |CameNow(turn, next)|
  {
    TopOnlyMoreUrgent(q, turn.beforePop);
    PushAllLength(q, turn.beforePop);
    PushAllLength(Pop(PushAll(q, turn.beforePop)), turn.duringRun);
    PushAllLength(PushAll(Pop(PushAll(q, turn.beforePop)), turn.duringRun), next.beforeLength);
  }

  /** As many iterations have been made as tasks have come. */
  predicate EndsNowBy(q: Contents, turns: nat -> NowTurn, k: nat, m: nat) {
    |q.tasks| + |BroughtNow(turns, k, m)| <= m
  }

  ghost predicate EndsNowWithin(q: Contents, turns: nat -> NowTurn, k: nat, n: nat) {
    exists m: nat :: m < n && EndsNowBy(q, turns, k, m)
  }

  /** Whatever arrives, for ever: the loop ends within `n` looks at the queue if and only if by one of
      them no more tasks have come than it has run. */
  lemma {:induction false} EndsNowExactly(q: Contents, turns: nat -> NowTurn, k: nat, n: nat)
    ensures IterationsNow(q, turns, k, n).None? <==> EndsNowWithin(q, turns, k, n)
    decreases n
  {
    if n > 0 {
      assert EndsNowBy(q, turns, k, 0) <==> q.tasks == [];
      if q.tasks != [] {
        var q', k' := AfterNow(q, turns(k), turns(k + 1)), k + 1;
        StepLength(q, turns(k), turns(k + 1));
        EndsNowExactly(q', turns, k', n - 1);
        if m: nat :| m < n && EndsNowBy(q, turns, k, m) {
          assert EndsNowBy(q', turns, k', m - 1);
        }
        if m: nat :| m < n - 1 && EndsNowBy(q', turns, k', m) {
          assert m + 1 < n && EndsNowBy(q, turns, k, m + 1);
        }
      }
    }
  }

  lemma {:induction false} BroughtOnAndOn(turns: nat -> NowTurn, k: nat, m: nat)
    requires forall i: nat :: turns(i).duringRun != []
    ensures |BroughtNow(turns, k, m)| >= m
    decreases m
  {
    if m > 0 {
      assert turns(k).duringRun != [];
      BroughtOnAndOn(turns, k + 1, m - 1);
    }
  }

  /** If every task that runs posts one to its own thread, the loop never ends. */
  lemma SelfPosting(q: Contents, turns: nat -> NowTurn, n: nat)
    requires q.tasks != [] && forall i: nat :: turns(i).duringRun != []
    ensures IterationsNow(q, turns, 0, n).Some?
  {
    EndsNowExactly(q, turns, 0, n);
    forall m: nat ensures !EndsNowBy(q, turns, 0, m) {
      BroughtOnAndOn(turns, 0, m);
    }
  }

  function LogNow(q: Contents, turns: nat -> NowTurn, k: nat, n: nat): seq<Task>
    requires IterationsNow(q, turns, k, n).Some?
    decreases n
  {
    if n == 0 then []
    else
      TopOnlyMoreUrgent(q, turns(k).beforePop);
      [PushAll(q, turns(k).beforePop).tasks[0]] + LogNow(AfterNow(q, turns(k), turns(k + 1)), turns, k + 1, n - 1)
  }

  function GivenNow(turns: nat -> NowTurn, k: nat, n: nat): (r: seq<NowTurn>)
    ensures r != [] && r[0] == turns(k)
    decreases n
  {
    [turns(k)] + if n == 0 then [] else GivenNow(turns, k + 1, n - 1)
  }

  /** A loop that ends is a pass over a list of arrivals. */
  lemma {:induction false} EndedIsPassNow(q: Contents, turns: nat -> NowTurn, k: nat, n: nat)
    requires IterationsNow(q, turns, k, n).Some? && IterationsNow(q, turns, k, n).value.tasks == []
    ensures DrainNow(q, GivenNow(turns, k, n)) == (IterationsNow(q, turns, k, n).value, LogNow(q, turns, k, n))
    decreases n
  {
    if n > 0 {
      var rest := GivenNow(turns, k + 1, n - 1);
      EndedIsPassNow(AfterNow(q, turns(k), turns(k + 1)), turns, k + 1, n - 1);
      assert RestNow([turns(k)] + rest) == rest;
    }
  }
}
