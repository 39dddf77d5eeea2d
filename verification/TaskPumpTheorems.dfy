/** What the pump promises: when tasks run, in which order and how often. */
module TaskPumpTheorems {
  import opened Basics
  import opened TaskQueue
  import opened TaskPump

  // ---------------------------------------------------------------------------------------
  // Order
  // ---------------------------------------------------------------------------------------

  lemma AtPopOrdered(q: Contents, turn: Turn)
    requires Ordered(q) && q.tasks != []
    ensures var seen, popped := PushAll(q, turn.beforePeek), AtPop(q, turn);
      seen.tasks != [] && popped.tasks != [] && Ordered(seen) && Ordered(popped)
  {
    PushAllOrdered(q, turn.beforePeek);
    PushAllOrdered(PushAll(q, turn.beforePeek), turn.beforePop);
    AtPopUrgent(q, turn);
  }

  lemma NextOrdered(q: Contents, now: int, turns: seq<Turn>)
    requires Ordered(q) && q.tasks != []
    ensures AtPop(q, Head(turns)).tasks != [] && Ordered(Next(q, now, turns))
  {
    AtPopOrdered(q, Head(turns));
    var popped := AtPop(q, Head(turns));
    PushAllOrdered(Pop(popped), Head(turns).duringRun);
    var q' := PushAll(Pop(popped), Head(turns).duringRun);
    if Requeued(popped.tasks[0], now).Some? {
      PushOrdered(q', Requeued(popped.tasks[0], now).value);
    }
    PushAllOrdered(AfterRun(q, now, Head(turns)), Head(Rest(turns)).beforeLength);
  }

  predicate NotBefore(ts: seq<Task>, now: int) {
    forall i :: 0 <= i < |ts| ==> ts[i].tick >= now
  }

  /** No delayed task runs before its due tick, whatever arrives while the pump works, and a
      pass leaves nothing behind that was due. */
  lemma {:induction false} NeverEarly(q: Contents, now: int, turns: seq<Turn>)
    requires AllTame(q.tasks, now) && TameTurns(turns, now) && Ordered(q)
    ensures var (q', runs) := Drain(q, now, turns);
      (forall i :: 0 <= i < |runs| ==> runs[i].tick < now) && NotBefore(q'.tasks, now)
    decreases |turns|, Work(q.tasks, now)
  {
    if q.tasks != [] {
      AtPopOrdered(q, Head(turns));
      var seen := PushAll(q, Head(turns).beforePeek);
      if now > seen.tasks[0].tick {
        NextOrdered(q, now, turns);
        DrainStep(q, now, turns);
        NeverEarly(Next(q, now, turns), now, Rest(turns));
      } else {
        forall i | 0 <= i < |seen.tasks| ensures seen.tasks[i].tick >= now {
          if i > 0 { assert Before(seen.tasks[0], seen.tasks[i]); }
        }
      }
    }
  }

  /** Nothing due before `now` arrives during the pass: delays are not negative and the clock
      does not run backwards. */
  predicate LateTurn(turn: Turn, now: int) {
    NotBefore(turn.beforeLength, now) && NotBefore(turn.beforePeek, now) &&
    NotBefore(turn.beforePop, now) && NotBefore(turn.duringRun, now)
  }

  predicate LateTurns(turns: seq<Turn>, now: int) {
    forall i :: 0 <= i < |turns| ==> LateTurn(turns[i], now)
  }

  predicate Patient(ts: seq<Task>) {
    forall i :: 0 <= i < |ts| ==> ts[i].interval >= 0
  }

  /** The tasks of an ordered queue that are due before `now`. */
  function DuePrefix(ts: seq<Task>, now: int): seq<Task> {
    if ts == [] || ts[0].tick >= now then [] else [ts[0]] + DuePrefix(ts[1..], now)
  }

  /** A task not due goes behind all that are. */
  lemma {:induction false} InsertLate(ts: seq<Task>, t: Task, now: int)
    requires t.tick >= now
    ensures DuePrefix(Insert(ts, t), now) == DuePrefix(ts, now)
  {
    if ts != [] && !Before(t, ts[0]) {
      InsertLate(ts[1..], t, now);
    }
  }

  lemma {:induction false} PushAllLate(q: Contents, ts: seq<Task>, now: int)
    requires NotBefore(ts, now)
    ensures DuePrefix(PushAll(q, ts).tasks, now) == DuePrefix(q.tasks, now)
    decreases |ts|
  {
    if ts != [] {
      InsertLate(q.tasks, ts[0].(sequence := q.next), now);
      PushAllLate(Push(q, ts[0]), ts[1..], now);
    }
  }

  /** The pass runs exactly the tasks that were due when it started, in the order of due tick
      and submission, each once; what is queued again or arrives waits for the next pass. */
  lemma {:induction false} RunsExactlyTheDue(q: Contents, now: int, turns: seq<Turn>)
    requires AllTame(q.tasks, now) && TameTurns(turns, now) && LateTurns(turns, now)
    requires Patient(DuePrefix(q.tasks, now))
    ensures Drain(q, now, turns).1 == DuePrefix(q.tasks, now)
    decreases |turns|, Work(q.tasks, now)
  {
    if q.tasks != [] {
      var turn := Head(turns);
      AtPopUrgent(q, turn);
      PushAllLate(q, turn.beforePeek, now);
      var seen := PushAll(q, turn.beforePeek);
      if now > seen.tasks[0].tick {
        DrainStep(q, now, turns);
        PushAllLate(seen, turn.beforePop, now);
        var popped := AtPop(q, turn);
        assert DuePrefix(popped.tasks, now)[0] == popped.tasks[0];
        PushAllLate(Pop(popped), turn.duringRun, now);
        var q' := PushAll(Pop(popped), turn.duringRun);
        if Requeued(popped.tasks[0], now).Some? {
          InsertLate(q'.tasks, Requeued(popped.tasks[0], now).value.(sequence := q'.next), now);
        }
        PushAllLate(AfterRun(q, now, turn), Head(Rest(turns)).beforeLength, now);
        assert DuePrefix(Next(q, now, turns).tasks, now) == DuePrefix(popped.tasks, now)[1..];
        RunsExactlyTheDue(Next(q, now, turns), now, Rest(turns));
      }
    }
  }

  /** In the order of due tick and then of submission. */
  predicate InTurn(ts: seq<Task>) {
    forall i, j :: 0 <= i < j < |ts| ==>
      ts[i].tick < ts[j].tick || (ts[i].tick == ts[j].tick && ts[i].sequence < ts[j].sequence)
  }

  lemma {:induction false} DuePrefixIs(ts: seq<Task>, now: int)
    requires Sorted(ts)
    ensures InTurn(DuePrefix(ts, now))
    ensures forall t :: t in DuePrefix(ts, now) <==> t in ts && t.tick < now
  {
    if ts != [] {
      DuePrefixIs(ts[1..], now);
      forall t | t in ts[1..] ensures Before(ts[0], t) {
        SortedHead(ts, t);
      }
      assert forall t :: t in ts <==> t == ts[0] || t in ts[1..];
    }
  }

  /** The runs of a pass come in the order of due tick and, at one tick, of submission, whatever is
      queued again or arrives. */
  lemma RunsInTurn(q: Contents, now: int, turns: seq<Turn>)
    requires AllTame(q.tasks, now) && TameTurns(turns, now) && LateTurns(turns, now) && Ordered(q)
    requires Patient(DuePrefix(q.tasks, now))
    ensures InTurn(Drain(q, now, turns).1)
    ensures forall t :: t in Drain(q, now, turns).1 <==> t in q.tasks && t.tick < now
  {
    RunsExactlyTheDue(q, now, turns);
    DuePrefixIs(q.tasks, now);
  }

  /** Tasks `a` and then `b` are submitted with one due tick, and others between and after them. */
  function BothSubmitted(q: Contents, a: Task, between: seq<Task>, b: Task, after: seq<Task>): Contents {
    PushAll(Push(PushAll(Push(q, a), between), b), after)
  }

  /** `a` runs before `b`. */
  lemma SameTickInTurn(q: Contents, a: Task, between: seq<Task>, b: Task, after: seq<Task>, now: int, turns: seq<Turn>)
      returns (i: nat, j: nat)
    requires Ordered(q) && a.tick == b.tick < now
    requires var q' := BothSubmitted(q, a, between, b, after);
      AllTame(q'.tasks, now) && TameTurns(turns, now) && LateTurns(turns, now) && Patient(DuePrefix(q'.tasks, now))
    ensures var runs := Drain(BothSubmitted(q, a, between, b, after), now, turns).1;
      i < j < |runs| && runs[i] == a.(sequence := q.next) && runs[j].closure == b.closure &&
      runs[j] == b.(sequence := PushAll(Push(q, a), between).next)
  {
    hide Drain, AllTame, TameTurns, LateTurns, Patient, DuePrefix, Push, PushAll, InTurn, Sorted;
    BothThere(q, a, between, b, after);
    var q' := BothSubmitted(q, a, between, b, after);
    RunsInTurn(q', now, turns);
    var runs := Drain(q', now, turns).1;
    var a', b' := a.(sequence := q.next), b.(sequence := PushAll(Push(q, a), between).next);
    assert a' in runs && b' in runs;
    i :| 0 <= i < |runs| && runs[i] == a';
    j :| 0 <= j < |runs| && runs[j] == b';
    LowerFirst(runs, i, j);
  }

  lemma BothThere(q: Contents, a: Task, between: seq<Task>, b: Task, after: seq<Task>)
    requires Ordered(q)
    ensures var q', q2 := BothSubmitted(q, a, between, b, after), PushAll(Push(q, a), between);
      Ordered(q') && q2.next > q.next && a.(sequence := q.next) in q'.tasks && b.(sequence := q2.next) in q'.tasks
  {
    var q1 := Push(q, a);
    var q2 := PushAll(q1, between);
    var q3 := Push(q2, b);
    PushOrdered(q, a);
    PushAllOrdered(q1, between);
    PushOrdered(q2, b);
    PushAllOrdered(q3, after);
    PushAllNext(q1, between);
  }

  lemma LowerFirst(ts: seq<Task>, i: nat, j: nat)
    requires InTurn(ts) && i < |ts| && j < |ts| && ts[i].tick == ts[j].tick && ts[i].sequence < ts[j].sequence
    ensures i < j
  {
  }

  lemma {:induction false} PushAllNext(q: Contents, ts: seq<Task>)
    ensures PushAll(q, ts).next == q.next + |ts|
    decreases |ts|
  {
    if ts != [] {
      PushAllNext(Push(q, ts[0]), ts[1..]);
    }
  }

  /** No task repeats for ever with a negative interval. */
  predicate Steady(ts: seq<Task>) {
    forall i :: 0 <= i < |ts| && ts[i].times == -1 ==> ts[i].interval >= 0
  }

  predicate SteadyTurns(turns: seq<Turn>) {
    forall i :: 0 <= i < |turns| ==>
      Steady(turns[i].beforeLength) && Steady(turns[i].beforePeek) && Steady(turns[i].beforePop) &&
      Steady(turns[i].duringRun)
  }

  predicate SteadyPasses(passes: seq<Pass>) {
    forall i :: 0 <= i < |passes| ==> SteadyTurns(passes[i].delayed)
  }

  lemma SteadyIsTame(ts: seq<Task>)
    ensures Steady(ts) <==> forall at: int :: AllTame(ts, at)
  {
    if !Steady(ts) {
      var i :| 0 <= i < |ts| && ts[i].times == -1 && ts[i].interval < 0;
      assert Hopeless(ts[i], ts[i].tick + 1) && !AllTame(ts, ts[i].tick + 1);
    }
  }

  lemma SteadyTurnTame(turn: Turn, at: int)
    requires SteadyTurns([turn])
    ensures TameTurn(turn, at)
  {
    assert [turn][0] == turn;
  }

  lemma SteadyTurnsTame(turns: seq<Turn>, at: int)
    requires SteadyTurns(turns)
    ensures TameTurns(turns, at)
  {
    forall i | 0 <= i < |turns| ensures TameTurn(turns[i], at) {
      SteadyTurnTame(turns[i], at);
    }
  }

  lemma PushAllSteady(q: Contents, ts: seq<Task>)
    requires Steady(q.tasks) && Steady(ts)
    ensures Steady(PushAll(q, ts).tasks)
  {
    forall at: int ensures AllTame(PushAll(q, ts).tasks, at) {
      PushAllTame(q, ts, at);
    }
    SteadyIsTame(PushAll(q, ts).tasks);
  }

  lemma NextSteady(q: Contents, now: int, turns: seq<Turn>)
    requires Steady(q.tasks) && SteadyTurns(turns) && AtPop(q, Head(turns)).tasks != []
    ensures Steady(Next(q, now, turns).tasks)
  {
    var turn := Head(turns);
    PushAllSteady(q, turn.beforePeek);
    PushAllSteady(PushAll(q, turn.beforePeek), turn.beforePop);
    forall at: int ensures AllTame(AfterRun(q, now, turn).tasks, at) {
      SteadyTurnTame(turn, at);
      AfterRunTame(q, now, turn, at);
    }
    SteadyIsTame(AfterRun(q, now, turn).tasks);
    PushAllSteady(AfterRun(q, now, turn), Head(Rest(turns)).beforeLength);
  }

  lemma {:induction false} DrainSteady(q: Contents, now: int, turns: seq<Turn>)
    requires AllTame(q.tasks, now) && TameTurns(turns, now) && Steady(q.tasks) && SteadyTurns(turns)
    ensures Steady(Drain(q, now, turns).0.tasks)
    decreases |turns|, Work(q.tasks, now)
  {
    if q.tasks != [] {
      AtPopUrgent(q, Head(turns));
      if now > PushAll(q, Head(turns).beforePeek).tasks[0].tick {
        DrainStep(q, now, turns);
        NextSteady(q, now, turns);
        DrainSteady(Next(q, now, turns), now, Rest(turns));
      } else {
        PushAllSteady(q, Head(turns).beforePeek);
      }
    }
  }

  /** If no task, queued or arriving, repeats for ever with a negative interval, none is hopeless in
      any pass, whatever the clock does. */
  lemma {:induction false} SteadyRun(q: Contents, passes: seq<Pass>)
    requires Steady(q.tasks) && SteadyPasses(passes)
    ensures TameRun(q, passes)
    decreases |passes|
  {
    if passes != [] {
      var now, turns := passes[0].now, passes[0].delayed;
      SteadyTurnsTame(turns, now);
      PushAllTame(q, Head(turns).beforeLength, now);
      PushAllSteady(q, Head(turns).beforeLength);
      DrainSteady(PushAll(q, Head(turns).beforeLength), now, turns);
      SteadyRun(DelayedPass(q, passes[0]).0, passes[1..]);
    }
  }

  // ---------------------------------------------------------------------------------------
  // Immediate tasks
  // ---------------------------------------------------------------------------------------

  predicate AllImmediate(ts: seq<Task>) {
    forall i :: 0 <= i < |ts| ==> ts[i].tick == 0
  }

  function Closures(ts: seq<Task>): (r: seq<nat>)
    ensures |r| == |ts|
    ensures forall i :: 0 <= i < |ts| ==> r[i] == ts[i].closure
  {
    seq(|ts|, i requires 0 <= i < |ts| => ts[i].closure)
  }

  /** Immediate tasks all carry tick 0, so a new one goes last. */
  lemma {:induction false} InsertLast(ts: seq<Task>, t: Task)
    requires AllImmediate(ts) && t.tick == 0
    requires forall y :: y in ts ==> y.sequence < t.sequence
    ensures Insert(ts, t) == ts + [t]
  {
    if ts != [] {
      InsertLast(ts[1..], t);
    }
  }

  lemma ClosuresMove(queue: seq<Task>, t: Task, ts: seq<Task>)
    requires ts != [] && t.closure == ts[0].closure
    ensures Closures(queue + [t]) + Closures(ts[1..]) == Closures(queue) + Closures(ts)
  {
  }

  lemma {:induction false} PushAllLast(q: Contents, ts: seq<Task>)
    requires Ordered(q) && AllImmediate(q.tasks) && AllImmediate(ts)
    ensures var r := PushAll(q, ts);
      Ordered(r) && AllImmediate(r.tasks) && Closures(r.tasks) == Closures(q.tasks) + Closures(ts)
    decreases |ts|
  {
    if ts != [] {
      var t := ts[0].(sequence := q.next);
      InsertLast(q.tasks, t);
      ClosuresMove(q.tasks, t, ts);
      PushOrdered(q, ts[0]);
      PushAllLast(Push(q, ts[0]), ts[1..]);
    }
  }

  predicate ImmediateTurns(turns: seq<NowTurn>) {
    forall i :: 0 <= i < |turns| ==>
      AllImmediate(turns[i].beforeLength) && AllImmediate(turns[i].beforePop) && AllImmediate(turns[i].duringRun)
  }

  /** What arrives from the point where the length has just been read, in order, over the
      iterations that the loop makes. */
  function Arriving(q: Contents, turns: seq<NowTurn>): seq<Task>
    decreases |turns|, |q.tasks|
  {
    if q.tasks == [] then []
    else
      TopOnlyMoreUrgent(q, HeadNow(turns).beforePop);
      HeadNow(turns).beforePop + HeadNow(turns).duringRun + HeadNow(RestNow(turns)).beforeLength +
      Arriving(NextNow(q, turns), RestNow(turns))
  }

  lemma ClosuresAppend(a: seq<Task>, b: seq<Task>)
    ensures Closures(a + b) == Closures(a) + Closures(b)
  {
  }

  /** One iteration: what it takes and leaves is what was there followed by what arrived. */
  lemma NowStepInOrder(q: Contents, turns: seq<NowTurn>, popped: Contents)
    requires Ordered(q) && AllImmediate(q.tasks) && ImmediateTurns(turns) && q.tasks != []
    requires popped == PushAll(q, HeadNow(turns).beforePop) && popped.tasks != []
    ensures var q' := NextNow(q, turns);
      Ordered(q') && AllImmediate(q'.tasks) &&
      [popped.tasks[0].closure] + Closures(q'.tasks) ==
        Closures(q.tasks) + (Closures(HeadNow(turns).beforePop) + Closures(HeadNow(turns).duringRun) +
        Closures(HeadNow(RestNow(turns)).beforeLength))
  {
    var a, b, c := HeadNow(turns).beforePop, HeadNow(turns).duringRun, HeadNow(RestNow(turns)).beforeLength;
    PushAllLast(q, a);
    PushAllLast(Pop(popped), b);
    PushAllLast(PushAll(Pop(popped), b), c);
    PoppedInOrder(popped.tasks, Closures(q.tasks), a, b, c, Closures(NextNow(q, turns).tasks));
  }

  lemma PoppedInOrder(popped: seq<Task>, was: seq<nat>, a: seq<Task>, b: seq<Task>, c: seq<Task>, left: seq<nat>)
    requires popped != [] && Closures(popped) == was + Closures(a)
    requires left == Closures(popped[1..]) + Closures(b) + Closures(c)
    ensures [popped[0].closure] + left == was + (Closures(a) + Closures(b) + Closures(c))
  {
    assert Closures(popped) == [popped[0].closure] + Closures(popped[1..]);
    assert [popped[0].closure] + left == Closures(popped) + Closures(b) + Closures(c);
  }

  /** Immediate tasks run first in, first out: the runs are what was queued followed by what
      arrived, in that order, and nothing is left. */
  lemma {:induction false} FirstInFirstOut(q: Contents, turns: seq<NowTurn>)
    requires Ordered(q) && AllImmediate(q.tasks) && ImmediateTurns(turns)
    ensures Closures(DrainNow(q, turns).1) == Closures(q.tasks) + Closures(Arriving(q, turns))
    ensures DrainNow(q, turns).0.tasks == []
    decreases |turns|, |q.tasks|
  {
    if q.tasks != [] {
      TopOnlyMoreUrgent(q, HeadNow(turns).beforePop);
      var popped := PushAll(q, HeadNow(turns).beforePop);
      NowStepInOrder(q, turns, popped);
      FirstInFirstOut(NextNow(q, turns), RestNow(turns));
      RunInOrder(popped.tasks[0], Closures(q.tasks), Closures(NextNow(q, turns).tasks), HeadNow(turns).beforePop,
                 HeadNow(turns).duringRun, HeadNow(RestNow(turns)).beforeLength,
                 Arriving(NextNow(q, turns), RestNow(turns)), DrainNow(NextNow(q, turns), RestNow(turns)).1);
    }
  }

  lemma RunInOrder(t: Task, was: seq<nat>, left: seq<nat>, a: seq<Task>, b: seq<Task>, c: seq<Task>,
                   rest: seq<Task>, runs: seq<Task>)
    requires [t.closure] + left == was + (Closures(a) + Closures(b) + Closures(c))
    requires Closures(runs) == left + Closures(rest)
    ensures Closures([t] + runs) == was + Closures(a + b + c + rest)
  {
    ClosuresAppend(a, b);
    ClosuresAppend(a + b, c);
    ClosuresAppend(a + b + c, rest);
    ClosuresAppend([t], runs);
    Assoc([t.closure], left, Closures(rest));
    Assoc(was, Closures(a + b + c), Closures(rest));
  }

  // ---------------------------------------------------------------------------------------
  // How often a task runs
  // ---------------------------------------------------------------------------------------

  /** Runs still owed to the tasks of closure `x`. */
  function Owed(ts: seq<Task>, x: nat): nat {
    if ts == [] then 0 else (if ts[0].closure == x then Left(ts[0]) else 0) + Owed(ts[1..], x)
  }

  function Runs(ts: seq<Task>, x: nat): nat {
    if ts == [] then 0 else (if ts[0].closure == x then 1 else 0) + Runs(ts[1..], x)
  }

  predicate Absent(ts: seq<Task>, x: nat) {
    forall i :: 0 <= i < |ts| ==> ts[i].closure != x
  }

  predicate AbsentTurns(turns: seq<Turn>, x: nat) {
    forall i :: 0 <= i < |turns| ==>
      Absent(turns[i].beforeLength, x) && Absent(turns[i].beforePeek, x) &&
      Absent(turns[i].beforePop, x) && Absent(turns[i].duringRun, x)
  }

  /** No task of closure `x` repeats for ever. */
  predicate Finite(ts: seq<Task>, x: nat) {
    forall i :: 0 <= i < |ts| && ts[i].closure == x ==> ts[i].times != -1
  }

  lemma {:induction false} InsertOwed(ts: seq<Task>, t: Task, x: nat)
    ensures Owed(Insert(ts, t), x) == Owed(ts, x) + if t.closure == x then Left(t) else 0
    ensures Finite(ts, x) && (t.closure == x ==> t.times != -1) ==> Finite(Insert(ts, t), x)
  {
    if ts != [] && !Before(t, ts[0]) {
      InsertOwed(ts[1..], t, x);
    }
  }

  lemma {:induction false} PushAllOwed(q: Contents, ts: seq<Task>, x: nat)
    requires Absent(ts, x)
    ensures Owed(PushAll(q, ts).tasks, x) == Owed(q.tasks, x)
    ensures Finite(q.tasks, x) ==> Finite(PushAll(q, ts).tasks, x)
    decreases |ts|
  {
    if ts != [] {
      InsertOwed(q.tasks, ts[0].(sequence := q.next), x);
      PushAllOwed(Push(q, ts[0]), ts[1..], x);
    }
  }

  /** One iteration: a run of `x` is one run fewer owed. */
  lemma StepOwed(q: Contents, now: int, turns: seq<Turn>, x: nat)
    requires q.tasks != [] && AtPop(q, Head(turns)).tasks != []
    requires AbsentTurns(turns, x) && Finite(q.tasks, x)
    ensures var t := AtPop(q, Head(turns)).tasks[0];
      Owed(Next(q, now, turns).tasks, x) + (if t.closure == x then 1 else 0) == Owed(q.tasks, x)
    ensures Finite(Next(q, now, turns).tasks, x)
  {
    var turn := Head(turns);
    PushAllOwed(q, turn.beforePeek, x);
    PushAllOwed(PushAll(q, turn.beforePeek), turn.beforePop, x);
    var popped := AtPop(q, turn);
    PushAllOwed(Pop(popped), turn.duringRun, x);
    var q' := PushAll(Pop(popped), turn.duringRun);
    if Requeued(popped.tasks[0], now).Some? {
      InsertOwed(q'.tasks, Requeued(popped.tasks[0], now).value.(sequence := q'.next), x);
    }
    PushAllOwed(AfterRun(q, now, turn), Head(Rest(turns)).beforeLength, x);
  }

  /** A pass neither loses nor adds a run: runs made plus runs owed after it are the runs owed
      before it. */
  lemma {:induction false} PassConservesRuns(q: Contents, now: int, turns: seq<Turn>, x: nat)
    requires AllTame(q.tasks, now) && TameTurns(turns, now)
    requires AbsentTurns(turns, x) && Finite(q.tasks, x)
    ensures var (q', runs) := Drain(q, now, turns);
      Runs(runs, x) + Owed(q'.tasks, x) == Owed(q.tasks, x) && Finite(q'.tasks, x)
    decreases |turns|, Work(q.tasks, now)
  {
    if q.tasks != [] {
      AtPopUrgent(q, Head(turns));
      if now > PushAll(q, Head(turns).beforePeek).tasks[0].tick {
        DrainStep(q, now, turns);
        StepOwed(q, now, turns, x);
        PassConservesRuns(Next(q, now, turns), now, Rest(turns), x);
      } else {
        PushAllOwed(q, Head(turns).beforePeek, x);
      }
    }
  }

  /** The ticks of the passes in which closure `x` ran. */
  function RunTicks(log: seq<Ran>, x: nat): seq<int> {
    if log == [] then []
    else if log[0].task.closure == x then [log[0].now] + RunTicks(log[1..], x)
    else RunTicks(log[1..], x)
  }

  lemma {:induction false} RunTicksAppend(a: seq<Ran>, b: seq<Ran>, x: nat)
    ensures RunTicks(a + b, x) == RunTicks(a, x) + RunTicks(b, x)
  {
    if a == [] {
      assert a + b == b;
    } else {
      assert (a + b)[1..] == a[1..] + b && (a + b)[0] == a[0];
      RunTicksAppend(a[1..], b, x);
      Assoc([a[0].now], RunTicks(a[1..], x), RunTicks(b, x));
    }
  }

  lemma {:induction false} StampTicks(runs: seq<Task>, now: int, x: nat)
    ensures |RunTicks(Stamp(runs, now), x)| == Runs(runs, x)
    ensures forall i :: 0 <= i < Runs(runs, x) ==> RunTicks(Stamp(runs, now), x)[i] == now
  {
    if runs != [] {
      StampTicks(runs[1..], now, x);
      assert Stamp(runs, now)[1..] == Stamp(runs[1..], now);
    }
  }

  predicate AbsentPasses(passes: seq<Pass>, x: nat) {
    forall i :: 0 <= i < |passes| ==> AbsentTurns(passes[i].delayed, x)
  }

  /** Over any number of passes no run is lost and none is added: what the tasks of `x` have run
      and what they are still owed never changes in sum, however many there are. */
  lemma {:induction false} RunsConserve(q: Contents, passes: seq<Pass>, x: nat)
    requires TameRun(q, passes) && AbsentPasses(passes, x) && Finite(q.tasks, x)
    ensures var (q', log) := DelayedPasses(q, passes);
      |RunTicks(log, x)| + Owed(q'.tasks, x) == Owed(q.tasks, x)
    decreases |passes|
  {
    if passes != [] {
      var turns, now := passes[0].delayed, passes[0].now;
      var (q', runs) := DelayedPass(q, passes[0]);
      PushAllTame(q, Head(turns).beforeLength, now);
      PushAllOwed(q, Head(turns).beforeLength, x);
      PassConservesRuns(PushAll(q, Head(turns).beforeLength), now, turns, x);
      StampTicks(runs, now, x);
      RunTicksAppend(Stamp(runs, now), DelayedPasses(q', passes[1..]).1, x);
      RunsConserve(q', passes[1..], x);
    }
  }

  // ---------------------------------------------------------------------------------------
  // One task through many passes
  // ---------------------------------------------------------------------------------------

  function Entries(ts: seq<Task>, x: nat): nat {
    if ts == [] then 0 else (if ts[0].closure == x then 1 else 0) + Entries(ts[1..], x)
  }

  /** The first entry of closure `x`, whatever number it got when it was queued. */
  function Entry(ts: seq<Task>, x: nat): Option<Task> {
    if ts == [] then None else if ts[0].closure == x then Some(ts[0].(sequence := 0)) else Entry(ts[1..], x)
  }

  lemma {:induction false} NoEntry(ts: seq<Task>, x: nat)
    ensures Entries(ts, x) == 0 <==> Entry(ts, x) == None
  {
    if ts != [] {
      NoEntry(ts[1..], x);
    }
  }

  lemma {:induction false} InsertEntry(ts: seq<Task>, t: Task, x: nat)
    ensures Entries(Insert(ts, t), x) == Entries(ts, x) + if t.closure == x then 1 else 0
    ensures t.closure != x ==> Entry(Insert(ts, t), x) == Entry(ts, x)
    ensures t.closure == x && Entries(ts, x) == 0 ==> Entry(Insert(ts, t), x) == Some(t.(sequence := 0))
  {
    if ts != [] && !Before(t, ts[0]) {
      InsertEntry(ts[1..], t, x);
    }
  }

  lemma {:induction false} PushAllEntry(q: Contents, ts: seq<Task>, x: nat)
    requires Absent(ts, x)
    ensures Entries(PushAll(q, ts).tasks, x) == Entries(q.tasks, x)
    ensures Entry(PushAll(q, ts).tasks, x) == Entry(q.tasks, x)
    decreases |ts|
  {
    if ts != [] {
      InsertEntry(q.tasks, ts[0].(sequence := q.next), x);
      PushAllEntry(Push(q, ts[0]), ts[1..], x);
    }
  }

  /** One iteration: the one entry of `x` stays, or it has run and is what was queued again. */
  lemma StepEntry(q: Contents, now: int, turns: seq<Turn>, x: nat)
    requires q.tasks != [] && AtPop(q, Head(turns)).tasks != []
    requires AbsentTurns(turns, x) && Entries(q.tasks, x) <= 1
    ensures var t, ts := AtPop(q, Head(turns)).tasks[0], Next(q, now, turns).tasks;
      Entries(ts, x) <= 1 &&
      if t.closure == x then
        Entry(q.tasks, x) == Some(t.(sequence := 0)) && Entry(ts, x) == Requeued(t.(sequence := 0), now)
      else
        Entry(ts, x) == Entry(q.tasks, x)
  {
    var turn := Head(turns);
    var popped := AtPop(q, turn);
    PushAllEntry(q, turn.beforePeek, x);
    PushAllEntry(PushAll(q, turn.beforePeek), turn.beforePop, x);
    NoEntry(Pop(popped).tasks, x);
    PushAllEntry(Pop(popped), turn.duringRun, x);
    var q' := PushAll(Pop(popped), turn.duringRun);
    if Requeued(popped.tasks[0], now).Some? {
      InsertEntry(q'.tasks, Requeued(popped.tasks[0], now).value.(sequence := q'.next), x);
    }
    PushAllEntry(AfterRun(q, now, turn), Head(Rest(turns)).beforeLength, x);
  }

  /** What one pass does with a task, seen on its own: how often it runs and what is left.  A
      hopeless task, which no pass that ends has, is passed over. */
  function RunOut(e: Option<Task>, now: int): (nat, Option<Task>)
    decreases if e.Some? && e.value.tick < now then Left(e.value) else 0
  {
    if e.None? || e.value.tick >= now || Hopeless(e.value, now) then (0, e)
    else var (n, left) := RunOut(Requeued(e.value, now), now); (1 + n, left)
  }

  lemma NothingRuns(ts: seq<Task>, x: nat, now: int)
    requires ts == []
    ensures (Runs([], x), Entry(ts, x)) == RunOut(Entry(ts, x), now)
  {
  }

  /** Nothing is due. */
  lemma {:induction false} EntryLate(ts: seq<Task>, x: nat, now: int)
    requires NotBefore(ts, now)
    ensures (Runs([], x), Entry(ts, x)) == RunOut(Entry(ts, x), now)
  {
    if ts != [] && ts[0].closure != x {
      EntryLate(ts[1..], x, now);
    }
  }

  lemma RunsMore(t: Task, runs: seq<Task>, x: nat, now: int, e: Option<Task>, e': Option<Task>, left: Option<Task>)
    requires t.tick < now && !Hopeless(t, now)
    requires if t.closure == x then e == Some(t.(sequence := 0)) && e' == Requeued(t.(sequence := 0), now) else e' == e
    requires (Runs(runs, x), left) == RunOut(e', now)
    ensures (Runs([t] + runs, x), left) == RunOut(e, now)
  {
    assert ([t] + runs)[1..] == runs;
  }

  /** A pass treats the one entry of `x` as if it were alone, whatever else is queued or arrives. */
  lemma {:induction false} PassRuns(q: Contents, now: int, turns: seq<Turn>, x: nat)
    requires AllTame(q.tasks, now) && TameTurns(turns, now) && Ordered(q)
    requires AbsentTurns(turns, x) && Entries(q.tasks, x) <= 1
    ensures var (q', runs) := Drain(q, now, turns);
      Ordered(q') && Entries(q'.tasks, x) <= 1 && (Runs(runs, x), Entry(q'.tasks, x)) == RunOut(Entry(q.tasks, x), now)
    decreases |turns|, Work(q.tasks, now)
  {
    hide RunOut, Runs, Entry, Requeued, Ordered, AllTame, AtPop, NotBefore;
    if q.tasks == [] {
      NothingRuns(q.tasks, x, now);
    } else {
      AtPopOrdered(q, Head(turns));
      if now > PushAll(q, Head(turns).beforePeek).tasks[0].tick {
        DrainStep(q, now, turns);
        NextOrdered(q, now, turns);
        StepEntry(q, now, turns, x);
        var q' := Next(q, now, turns);
        PassRuns(q', now, Rest(turns), x);
        var (qf, runs) := Drain(q', now, Rest(turns));
        RunsMore(AtPop(q, Head(turns)).tasks[0], runs, x, now, Entry(q.tasks, x), Entry(q'.tasks, x), Entry(qf.tasks, x));
      } else {
        var seen := PushAll(q, Head(turns).beforePeek);
        PushAllEntry(q, Head(turns).beforePeek, x);
        NeverEarly(q, now, turns);
        assert Drain(q, now, turns) == (seen, []);
        EntryLate(seen.tasks, x, now);
      }
    }
  }

  /** A repeated task runs at most once in a pass, exactly if the pass began after its due tick,
      and is then next due an interval later. */
  lemma OncePerPass(q: Contents, now: int, turns: seq<Turn>, x: nat, t: Task)
    requires AllTame(q.tasks, now) && TameTurns(turns, now) && Ordered(q)
    requires AbsentTurns(turns, x) && Entries(q.tasks, x) == 1 && Entry(q.tasks, x) == Some(t) && t.interval >= 0
    ensures var (q', runs) := Drain(q, now, turns);
      if t.tick < now then Runs(runs, x) == 1 && Entry(q'.tasks, x) == Requeued(t, now)
      else Runs(runs, x) == 0 && Entry(q'.tasks, x) == Some(t)
  {
    hide Runs, Entry, Drain, AllTame, Ordered, Entries;
    PassRuns(q, now, turns, x);
  }

  function Times(now: int, n: nat): (r: seq<int>)
    ensures |r| == n && forall i :: 0 <= i < n ==> r[i] == now
  {
    seq(n, _ => now)
  }

  /** The ticks at which a task runs and what is left of it, if it is on its own. */
  function Alone(e: Option<Task>, passes: seq<Pass>): (seq<int>, Option<Task>)
    decreases |passes|
  {
    if passes == [] then ([], e)
    else
      var (n, e') := RunOut(e, passes[0].now);
      var (ticks, left) := Alone(e', passes[1..]);
      (Times(passes[0].now, n) + ticks, left)
  }

  /** Over any number of passes the runs of `x` are those of its one entry on its own. */
  lemma {:induction false} RunsAsAlone(q: Contents, passes: seq<Pass>, x: nat)
    requires TameRun(q, passes) && Ordered(q) && AbsentPasses(passes, x) && Entries(q.tasks, x) <= 1
    ensures var (q', log) := DelayedPasses(q, passes);
      (RunTicks(log, x), Entry(q'.tasks, x)) == Alone(Entry(q.tasks, x), passes)
    decreases |passes|
  {
    if passes != [] {
      var turns, now := passes[0].delayed, passes[0].now;
      var (q', runs) := DelayedPass(q, passes[0]);
      PushAllTame(q, Head(turns).beforeLength, now);
      PushAllOrdered(q, Head(turns).beforeLength);
      PushAllEntry(q, Head(turns).beforeLength, x);
      PassRuns(PushAll(q, Head(turns).beforeLength), now, turns, x);
      StampTicks(runs, now, x);
      assert RunTicks(Stamp(runs, now), x) == Times(now, Runs(runs, x));
      RunTicksAppend(Stamp(runs, now), DelayedPasses(q', passes[1..]).1, x);
      RunsAsAlone(q', passes[1..], x);
    }
  }

  /** The passes that begin after the due tick, where each moves that on by the interval. */
  function Chances(passes: seq<Pass>, due: int, interval: int): nat {
    if passes == [] then 0
    else if passes[0].now > due then 1 + Chances(passes[1..], passes[0].now + interval, interval)
    else Chances(passes[1..], due, interval)
  }

  /** How often a task runs in these passes: in every one of its chances if it repeats for ever,
      otherwise at most as often as it is owed; in its first chance, if it is due again at once. */
  function Taken(t: Task, passes: seq<Pass>): nat {
    var chances := Chances(passes, t.tick, t.interval);
    if t.times == -1 || (t.interval >= 0 && chances < Left(t)) || chances == 0 then chances else Left(t)
  }

  lemma AloneStep(e: Option<Task>, passes: seq<Pass>)
    requires passes != []
    ensures var (n, e') := RunOut(e, passes[0].now);
      var ticks, rest := Alone(e, passes).0, Alone(e', passes[1..]).0;
      |ticks| == n + |rest| && (n == 0 ==> ticks == rest) && (n == 1 ==> ticks == [passes[0].now] + rest)
  {
  }

  lemma {:induction false} NobodyAlone(passes: seq<Pass>)
    ensures Alone(None, passes).0 == []
    decreases |passes|
  {
    if passes != [] {
      AloneStep(None, passes);
      NobodyAlone(passes[1..]);
    }
  }

  /** A task that is due again at once runs until it is used up. */
  lemma {:induction false} RunsUp(t: Task, now: int)
    requires t.times != -1 && t.interval < 0 && t.tick < now
    ensures RunOut(Some(t), now) == (Left(t), None)
    decreases Left(t)
  {
    if Requeued(t, now).Some? {
      RunsUp(Requeued(t, now).value, now);
    }
  }

  lemma {:induction false} AloneTakes(t: Task, passes: seq<Pass>)
    requires t.times != -1 || t.interval >= 0
    ensures |Alone(Some(t), passes).0| == Taken(t, passes)
    decreases |passes|
  {
    if passes != [] {
      var now := passes[0].now;
      AloneStep(Some(t), passes);
      if now <= t.tick {
        AloneTakes(t, passes[1..]);
      } else if t.interval < 0 {
        RunsUp(t, now);
        NobodyAlone(passes[1..]);
      } else if Requeued(t, now).Some? {
        AloneTakes(Requeued(t, now).value, passes[1..]);
      } else {
        NobodyAlone(passes[1..]);
      }
    }
  }

  lemma {:induction false} OwedToEntry(ts: seq<Task>, x: nat)
    requires Entries(ts, x) <= 1
    ensures Owed(ts, x) == match Entry(ts, x) case None => 0 case Some(t) => Left(t)
    ensures Entry(ts, x).Some? && Entry(ts, x).value.times != -1 ==> Finite(ts, x)
    ensures Entry(ts, x).None? ==> Finite(ts, x)
  {
    if ts != [] {
      NoEntry(ts[1..], x);
      OwedToEntry(ts[1..], x);
    }
  }

  predicate EnoughChances(t: Task, passes: seq<Pass>) {
    Chances(passes, t.tick, t.interval) >= if t.interval >= 0 then Left(t) else 1
  }

  /** A task submitted with a finite count runs max(1, times) times in all, if and only if that
      many passes begin after its due tick as that moves on (or one, if its interval is negative);
      before that it has run in each of those passes, and is still owed the rest. */
  lemma ExactCount(q: Contents, passes: seq<Pass>, x: nat, t: Task)
    requires TameRun(q, passes) && Ordered(q) && AbsentPasses(passes, x)
    requires Entries(q.tasks, x) == 1 && Entry(q.tasks, x) == Some(t) && t.times != -1
    ensures var (q', log) := DelayedPasses(q, passes);
      |RunTicks(log, x)| == Taken(t, passes) && Owed(q'.tasks, x) == Left(t) - Taken(t, passes) &&
      (|RunTicks(log, x)| == Left(t) <==> EnoughChances(t, passes))
  {
    OwedToEntry(q.tasks, x);
    RunsConserve(q, passes, x);
    RunsAsAlone(q, passes, x);
    AloneTakes(t, passes);
  }

  /** A task that repeats for ever runs in every pass that begins after its due tick. */
  lemma EndlessCount(q: Contents, passes: seq<Pass>, x: nat, t: Task)
    requires TameRun(q, passes) && Ordered(q) && AbsentPasses(passes, x)
    requires Entries(q.tasks, x) == 1 && Entry(q.tasks, x) == Some(t) && t.times == -1 && t.interval >= 0
    ensures |RunTicks(DelayedPasses(q, passes).1, x)| == Chances(passes, t.tick, t.interval)
  {
    RunsAsAlone(q, passes, x);
    AloneTakes(t, passes);
  }

  /** Ticks after `bound`, more than `interval` apart. */
  predicate Spaced(ticks: seq<int>, bound: int, interval: int) {
    (forall i :: 0 <= i < |ticks| ==> ticks[i] > bound) &&
    (forall i, j :: 0 <= i < j < |ticks| ==> ticks[j] > ticks[i] + interval)
  }

  lemma RunsOnce(t: Task, now: int)
    requires t.interval >= 0
    ensures RunOut(Some(t), now) == if now <= t.tick then (0, Some(t)) else (1, Requeued(t, now))
  {
  }

  lemma SpacedMore(now: int, ticks: seq<int>, bound: int, interval: int)
    requires now > bound && interval >= 0 && Spaced(ticks, now + interval, interval)
    ensures Spaced([now] + ticks, bound, interval)
  {
  }

  lemma NothingSpaced(bound: int, interval: int)
    ensures Spaced([], bound, interval)
  {
  }

  lemma {:induction false} AloneApart(t: Task, passes: seq<Pass>)
    requires t.interval >= 0
    ensures Spaced(Alone(Some(t), passes).0, t.tick, t.interval)
    decreases |passes|
  {
    hide Spaced, RunOut;
    NothingSpaced(t.tick, t.interval);
    if passes != [] {
      var now := passes[0].now;
      AloneStep(Some(t), passes);
      RunsOnce(t, now);
      if now <= t.tick {
        AloneApart(t, passes[1..]);
      } else {
        if Requeued(t, now).Some? {
          AloneApart(Requeued(t, now).value, passes[1..]);
        } else {
          NobodyAlone(passes[1..]);
          NothingSpaced(now + t.interval, t.interval);
        }
        SpacedMore(now, Alone(Requeued(t, now), passes[1..]).0, t.tick, t.interval);
      }
    }
  }

  /** The runs of a repeated task lie more than its interval apart, over any number of passes
      and whatever the clock does; the first comes after its due tick. */
  lemma RunsApart(q: Contents, passes: seq<Pass>, x: nat, t: Task)
    requires TameRun(q, passes) && Ordered(q) && AbsentPasses(passes, x)
    requires Entries(q.tasks, x) == 1 && Entry(q.tasks, x) == Some(t) && t.interval >= 0
    ensures Spaced(RunTicks(DelayedPasses(q, passes).1, x), t.tick, t.interval)
  {
    RunsAsAlone(q, passes, x);
    AloneApart(t, passes);
  }
}
