/** The message pump of base/thread/thread.h: `Submit*Task` and `RunMsgPump`.

    What other threads and the running tasks push is an input: a list of turns, one for each
    iteration of a drain loop, says what arrives between any two critical sections. */
module TaskPump {
  import opened Basics
  import opened TaskQueue

  /** Tasks that arrive in the queue during one iteration of the delayed-task loop. */
  datatype Turn = Turn(beforeLength: seq<Task>, beforePeek: seq<Task>, beforePop: seq<Task>, duringRun: seq<Task>)

  const QUIET := Turn([], [], [], [])

  function Head(turns: seq<Turn>): Turn {
    if turns == [] then QUIET else turns[0]
  }

  function Rest(turns: seq<Turn>): seq<Turn> {
    if turns == [] then [] else turns[1..]
  }

  /** What goes back into the queue after `task` has run in a pass that began at `now`. */
  function Requeued(task: Task, now: int): Option<Task> {
    if task.times == -1 then Some(task.(tick := now + task.interval))
    else if task.times - 1 > 0 then Some(task.(tick := now + task.interval, times := task.times - 1))
    else None
  }

  /** A task that is due, repeats for ever and is due again at once: with it in the queue the
      loop over the delayed tasks does not end. */
  predicate Hopeless(t: Task, now: int) {
    t.tick < now && t.times == -1 && t.interval < 0
  }

  predicate AllTame(ts: seq<Task>, now: int) {
    forall i :: 0 <= i < |ts| ==> !Hopeless(ts[i], now)
  }

  predicate TameTurn(turn: Turn, now: int) {
    AllTame(turn.beforeLength, now) && AllTame(turn.beforePeek, now) && AllTame(turn.beforePop, now) &&
    AllTame(turn.duringRun, now)
  }

  predicate TameTurns(turns: seq<Turn>, now: int) {
    forall i :: 0 <= i < |turns| ==> TameTurn(turns[i], now)
  }

  /** How often a task is still to run, if it does not repeat for ever. */
  function Left(t: Task): nat {
    if t.times >= 1 then t.times else 1
  }

  /** How often a task runs in a pass that began at `now`: once if it is due, but as often as it may
      if it is due again at once.  Nothing is said of a hopeless task. */
  function RunsNow(t: Task, now: int): nat {
    if t.tick >= now then 0 else if t.interval < 0 then Left(t) else 1
  }

  /** How many runs the tasks of a queue cause in this pass. */
  function Work(ts: seq<Task>, now: int): nat {
    if ts == [] then 0 else RunsNow(ts[0], now) + Work(ts[1..], now)
  }

  lemma {:induction false} InsertWork(ts: seq<Task>, t: Task, now: int)
    ensures Work(Insert(ts, t), now) == Work(ts, now) + RunsNow(t, now)
  {
    if ts != [] && !Before(t, ts[0]) {
      InsertWork(ts[1..], t, now);
    }
  }

  lemma {:induction false} InsertTame(ts: seq<Task>, t: Task, now: int)
    requires AllTame(ts, now) && !Hopeless(t, now)
    ensures AllTame(Insert(ts, t), now)
  {
    if ts != [] && !Before(t, ts[0]) {
      InsertTame(ts[1..], t, now);
    }
  }

  lemma {:induction false} PushAllTame(q: Contents, ts: seq<Task>, now: int)
    requires AllTame(q.tasks, now) && AllTame(ts, now)
    ensures AllTame(PushAll(q, ts).tasks, now)
    decreases |ts|
  {
    if ts != [] {
      InsertTame(q.tasks, ts[0].(sequence := q.next), now);
      PushAllTame(Push(q, ts[0]), ts[1..], now);
    }
  }

  /** The queue when the pump pops, after what arrived since it looked at the length. */
  function AtPop(q: Contents, turn: Turn): Contents {
    PushAll(PushAll(q, turn.beforePeek), turn.beforePop)
  }

  /** The queue after the popped task has run and has been queued again. */
  function AfterRun(q: Contents, now: int, turn: Turn): Contents
    requires AtPop(q, turn).tasks != []
  {
    var task := AtPop(q, turn).tasks[0];
    var q' := PushAll(Pop(AtPop(q, turn)), turn.duringRun);
    match Requeued(task, now) case Some(t) => Push(q', t) case None => q'
  }

  /** The task popped is the one the pump has looked at, or a more urgent one. */
  lemma AtPopUrgent(q: Contents, turn: Turn)
    requires q.tasks != []
    ensures var seen, popped := PushAll(q, turn.beforePeek).tasks, AtPop(q, turn).tasks;
      seen != [] && popped != [] && (popped[0] == seen[0] || Before(popped[0], seen[0]))
  {
    TopOnlyMoreUrgent(q, turn.beforePeek);
    TopOnlyMoreUrgent(PushAll(q, turn.beforePeek), turn.beforePop);
  }

  /** A pass that began at `now` makes no task hopeless, then or at any other tick `at`, as long
      as the task it runs may go back into the queue. */
  lemma AfterRunTame(q: Contents, now: int, turn: Turn, at: int)
    requires AllTame(q.tasks, at) && TameTurn(turn, at) && AtPop(q, turn).tasks != []
    requires var t := AtPop(q, turn).tasks[0]; t.times == -1 ==> t.interval >= 0
    ensures AllTame(AfterRun(q, now, turn).tasks, at)
  {
    PushAllTame(q, turn.beforePeek, at);
    PushAllTame(PushAll(q, turn.beforePeek), turn.beforePop, at);
    var task := AtPop(q, turn).tasks[0];
    PushAllTame(Pop(AtPop(q, turn)), turn.duringRun, at);
    var q' := PushAll(Pop(AtPop(q, turn)), turn.duringRun);
    if Requeued(task, now).Some? {
      InsertTame(q'.tasks, Requeued(task, now).value.(sequence := q'.next), at);
    }
  }

  /** The loop has seen a task due: the one it pops is due as well and not hopeless. */
  lemma DueRunTame(q: Contents, now: int, turn: Turn)
    requires q.tasks != [] && AllTame(q.tasks, now) && TameTurn(turn, now)
    requires var seen := PushAll(q, turn.beforePeek).tasks; seen != [] && now > seen[0].tick
    ensures AtPop(q, turn).tasks != []
    ensures var t := AtPop(q, turn).tasks[0]; t.tick < now && !Hopeless(t, now)
    ensures AllTame(AfterRun(q, now, turn).tasks, now)
  {
    AtPopUrgent(q, turn);
    PushAllTame(q, turn.beforePeek, now);
    PushAllTame(PushAll(q, turn.beforePeek), turn.beforePop, now);
    assert !Hopeless(AtPop(q, turn).tasks[0], now);
    AfterRunTame(q, now, turn, now);
  }

  /** With nobody interfering an iteration does one piece of the work. */
  lemma QuietRunProgress(q: Contents, now: int)
    requires q.tasks != [] && !Hopeless(q.tasks[0], now) && q.tasks[0].tick < now
    ensures AtPop(q, QUIET) == q && Work(AfterRun(q, now, QUIET).tasks, now) + 1 == Work(q.tasks, now)
  {
    var task := q.tasks[0];
    if Requeued(task, now).Some? {
      InsertWork(q.tasks[1..], Requeued(task, now).value.(sequence := q.next), now);
    }
  }

  /** The delayed queue after one iteration, up to the next look at its length. */
  function Next(q: Contents, now: int, turns: seq<Turn>): Contents
    requires AtPop(q, Head(turns)).tasks != []
  {
    PushAll(AfterRun(q, now, Head(turns)), Head(Rest(turns)).beforeLength)
  }

  /** One pass over the delayed tasks, from the point where the length has just been read:
      the queue it leaves and the tasks it runs. */
  function Drain(q: Contents, now: int, turns: seq<Turn>): (r: (Contents, seq<Task>))
    requires AllTame(q.tasks, now) && TameTurns(turns, now)
    decreases |turns|, Work(q.tasks, now)
  {
    var turn := Head(turns);
    if q.tasks == [] then (q, [])
    else
      AtPopUrgent(q, turn);
      var seen := PushAll(q, turn.beforePeek);
      if now > seen.tasks[0].tick then
        DueRunTame(q, now, turn);
        assert turns == [] ==> (QuietRunProgress(q, now); Work(Next(q, now, turns).tasks, now) < Work(q.tasks, now));
        PushAllTame(AfterRun(q, now, turn), Head(Rest(turns)).beforeLength, now);
        var (qf, runs) := Drain(Next(q, now, turns), now, Rest(turns));
        (qf, [AtPop(q, turn).tasks[0]] + runs)
      else (seen, [])
  }

  /** One iteration of the loop that finds a task due. */
  lemma DrainStep(q: Contents, now: int, turns: seq<Turn>)
    requires q.tasks != [] && AllTame(q.tasks, now) && TameTurns(turns, now)
    requires var seen := PushAll(q, Head(turns).beforePeek); seen.tasks != [] && now > seen.tasks[0].tick
    ensures AtPop(q, Head(turns)).tasks != []
    ensures var t := AtPop(q, Head(turns)).tasks[0]; t.tick < now && !Hopeless(t, now)
    ensures AllTame(AfterRun(q, now, Head(turns)).tasks, now)
    ensures var q' := Next(q, now, turns);
      AllTame(q'.tasks, now) && (turns == [] ==> Work(q'.tasks, now) + 1 == Work(q.tasks, now)) &&
      Drain(q, now, turns).0 == Drain(q', now, Rest(turns)).0 &&
      Drain(q, now, turns).1 == [AtPop(q, Head(turns)).tasks[0]] + Drain(q', now, Rest(turns)).1
  {
    DueRunTame(q, now, Head(turns));
    PushAllTame(AfterRun(q, now, Head(turns)), Head(Rest(turns)).beforeLength, now);
    if turns == [] { QuietRunProgress(q, now); }
  }

  /** A task as it was when it ran, and the tick of the pass that ran it. */
  datatype Ran = Ran(task: Task, now: int)

  function Stamp(runs: seq<Task>, now: int): (r: seq<Ran>)
    ensures |r| == |runs|
    ensures forall i :: 0 <= i < |runs| ==> r[i] == Ran(runs[i], now)
  {
    seq(|runs|, i requires 0 <= i < |runs| => Ran(runs[i], now))
  }

  /** What happens around one turn of the pump's outer loop. */
  datatype Pass = Pass(immediate: seq<NowTurn>, now: int, delayed: seq<Turn>, stop: bool)

  /** Tasks that arrive during one iteration of the immediate-task loop. */
  datatype NowTurn = NowTurn(beforeLength: seq<Task>, beforePop: seq<Task>, duringRun: seq<Task>)

  const CALM := NowTurn([], [], [])

  function HeadNow(turns: seq<NowTurn>): NowTurn {
    if turns == [] then CALM else turns[0]
  }

  function RestNow(turns: seq<NowTurn>): seq<NowTurn> {
    if turns == [] then [] else turns[1..]
  }

  /** The immediate queue after one iteration, up to the next look at its length. */
  function NextNow(q: Contents, turns: seq<NowTurn>): Contents
    requires PushAll(q, HeadNow(turns).beforePop).tasks != []
  {
    PushAll(PushAll(Pop(PushAll(q, HeadNow(turns).beforePop)), HeadNow(turns).duringRun),
            HeadNow(RestNow(turns)).beforeLength)
  }

  /** One pass over the immediate tasks. */
  function DrainNow(q: Contents, turns: seq<NowTurn>): (r: (Contents, seq<Task>))
    decreases |turns|, |q.tasks|
  {
    if q.tasks == [] then (q, [])
    else
      TopOnlyMoreUrgent(q, HeadNow(turns).beforePop);
      var (qf, runs) := DrainNow(NextNow(q, turns), RestNow(turns));
      (qf, [PushAll(q, HeadNow(turns).beforePop).tasks[0]] + runs)
  }

  /** One turn of the outer loop, as far as delayed tasks go. */
  function DelayedPass(q: Contents, pass: Pass): (r: (Contents, seq<Task>))
    requires AllTame(q.tasks, pass.now) && TameTurns(pass.delayed, pass.now)
  {
    PushAllTame(q, Head(pass.delayed).beforeLength, pass.now);
    Drain(PushAll(q, Head(pass.delayed).beforeLength), pass.now, pass.delayed)
  }

  /** In no pass is a task hopeless, or becomes so. */
  predicate TameRun(q: Contents, passes: seq<Pass>)
    decreases |passes|
  {
    passes == [] ||
    (AllTame(q.tasks, passes[0].now) && TameTurns(passes[0].delayed, passes[0].now) &&
     TameRun(DelayedPass(q, passes[0]).0, passes[1..]))
  }

  /** Any number of turns of the outer loop: the queue they leave and everything they ran. */
  function DelayedPasses(q: Contents, passes: seq<Pass>): (r: (Contents, seq<Ran>))
    requires TameRun(q, passes)
    decreases |passes|
  {
    if passes == [] then (q, [])
    else
      var (q', runs) := DelayedPass(q, passes[0]);
      var (qf, log) := DelayedPasses(q', passes[1..]);
      (qf, Stamp(runs, passes[0].now) + log)
  }

  /** The turns the outer loop takes before it sees the stop flag. */
  function Performed(passes: seq<Pass>): seq<Pass> {
    if passes == [] then [] else [passes[0]] + if passes[0].stop then [] else Performed(passes[1..])
  }

  /** The same for immediate tasks. */
  function NowPasses(q: Contents, passes: seq<Pass>): (Contents, seq<Task>)
    decreases |passes|
  {
    if passes == [] then (q, [])
    else
      var (q', runs) := NowPass(q, passes[0]);
      var (qf, log) := NowPasses(q', passes[1..]);
      (qf, runs + log)
  }

  function NowPass(q: Contents, pass: Pass): (Contents, seq<Task>) {
    DrainNow(PushAll(q, HeadNow(pass.immediate).beforeLength), pass.immediate)
  }

  lemma StampAppend(runs: seq<Task>, t: Task, now: int)
    ensures Stamp(runs + [t], now) == Stamp(runs, now) + [Ran(t, now)]
  {
  }

  lemma Assoc<T>(a: seq<T>, b: seq<T>, c: seq<T>)
    ensures (a + b) + c == a + (b + c)
  {
  }

  /** `Thread`: the two queues, the stop flag, and the runs so far. */
  class Thread {
    const immediate: Queue
    const delayed: Queue
    var done: bool
    var log: seq<Task>
    var delayedLog: seq<Ran>

    ghost predicate Valid()
      reads this, immediate, delayed
    {
      immediate != delayed && immediate.Valid() && delayed.Valid()
    }

    constructor ()
      ensures Valid() && fresh(immediate) && fresh(delayed) && !done && log == [] && delayedLog == []
      ensures immediate.Value() == Contents([], 0) && delayed.Value() == Contents([], 0)
    {
      immediate := new Queue();
      delayed := new Queue();
      done := false;
      log := [];
      delayedLog := [];
    }

    /** `now` is the tick read when the task is submitted. */
    method SubmitRepeatedTask(closure: nat, now: int, delay: int, interval: int, times: int)
      requires Valid()
      modifies delayed
      ensures Valid()
      ensures delayed.Value() == Push(old(delayed.Value()), Task(closure, 0, now + delay, times, interval))
    {
      delayed.PushTask(Task(closure, 0, now + delay, times, interval));
    }

    method SubmitDelayTask(closure: nat, now: int, delay: int)
      requires Valid()
      modifies delayed
      ensures Valid()
      ensures delayed.Value() == Push(old(delayed.Value()), Task(closure, 0, now + delay, 1, 0))
    {
      delayed.PushTask(Task(closure, 0, now + delay, 1, 0));
    }

    method SubmitTask(closure: nat)
      requires Valid()
      modifies immediate
      ensures Valid()
      ensures immediate.Value() == Push(old(immediate.Value()), Task(closure, 0, 0, 1, 0))
    {
      immediate.PushTask(Task(closure, 0, 0, 1, 0));
    }

    method RunImmediate(turns: seq<NowTurn>)
      requires Valid()
      modifies this`log, immediate
      ensures Valid()
      ensures var start := PushAll(old(immediate.Value()), HeadNow(turns).beforeLength);
        immediate.Value() == DrainNow(start, turns).0 && log == old(log) + DrainNow(start, turns).1
    {
      var rest := turns;
      immediate.Interfere(HeadNow(rest).beforeLength);
      ghost var whole := DrainNow(immediate.Value(), turns);
      ghost var ran: seq<Task> := [];
      var length := immediate.GetLength();
      while length > 0
        invariant Valid() && length == |immediate.heap|
        invariant log == old(log) + ran
        invariant DrainNow(immediate.Value(), rest).0 == whole.0
        invariant ran + DrainNow(immediate.Value(), rest).1 == whole.1
        decreases |rest|, length
      {
        ghost var q := immediate.Value();
        TopOnlyMoreUrgent(q, HeadNow(rest).beforePop);
        immediate.Interfere(HeadNow(rest).beforePop);
        var task := immediate.GetTask();
        log := log + [task];
        immediate.Interfere(HeadNow(rest).duringRun);
        immediate.Interfere(HeadNow(RestNow(rest)).beforeLength);
        assert immediate.Value() == NextNow(q, rest);
        assert DrainNow(q, rest).1 == [task] + DrainNow(immediate.Value(), RestNow(rest)).1;
        Assoc(ran, [task], DrainNow(immediate.Value(), RestNow(rest)).1);
        Assoc(old(log), ran, [task]);
        ran := ran + [task];
        rest := RestNow(rest);
        length := immediate.GetLength();
      }
    }

    /** The bookkeeping after a run: whether the task goes back into the queue, and as what. */
    static method Repeat(ran: Task, now: int) returns (repeated: bool, task: Task)
      ensures repeated == Requeued(ran, now).Some?
      ensures repeated ==> task == Requeued(ran, now).value
    {
      repeated, task := false, ran;
      if task.times == -1 {
        task := task.(tick := now + task.interval);
        repeated := true;
      } else {
        task := task.(times := task.times - 1);
        if task.times > 0 {
          task := task.(tick := now + task.interval);
          repeated := true;
        }
      }
    }

    /** The rest of an iteration that has seen a task due in `q`. */
    method RunDue(now: int, turn: Turn, ghost q: Contents) returns (ghost popped: Task)
      requires Valid() && q.tasks != [] && delayed.Value() == PushAll(q, turn.beforePeek)
      modifies this`delayedLog, delayed
      ensures Valid() && AtPop(q, turn).tasks != [] && popped == AtPop(q, turn).tasks[0]
      ensures delayed.Value() == AfterRun(q, now, turn) && delayedLog == old(delayedLog) + [Ran(popped, now)]
    {
      AtPopUrgent(q, turn);
      delayed.Interfere(turn.beforePop);
      var task := delayed.GetTask();
      delayedLog := delayedLog + [Ran(task, now)];
      popped := task;
      delayed.Interfere(turn.duringRun);
      var repeated;
      repeated, task := Repeat(task, now);
      if repeated {
        delayed.PushTask(task);
      }
    }

    method RunDelayed(now: int, turns: seq<Turn>)
      requires Valid() && AllTame(delayed.heap, now) && TameTurns(turns, now)
      modifies this`delayedLog, delayed
      ensures Valid()
      ensures var start := PushAll(old(delayed.Value()), Head(turns).beforeLength);
        AllTame(start.tasks, now) && delayed.Value() == Drain(start, now, turns).0 &&
        delayedLog == old(delayedLog) + Stamp(Drain(start, now, turns).1, now)
    {
      var rest := turns;
      PushAllTame(delayed.Value(), Head(rest).beforeLength, now);
      delayed.Interfere(Head(rest).beforeLength);
      ghost var whole := Drain(delayed.Value(), now, turns);
      ghost var ran: seq<Task> := [];
      var length := delayed.GetLength();
      while length > 0
        invariant Valid() && AllTame(delayed.heap, now) && TameTurns(rest, now) && length == |delayed.heap|
        invariant delayedLog == old(delayedLog) + Stamp(ran, now)
        invariant Drain(delayed.Value(), now, rest).0 == whole.0
        invariant ran + Drain(delayed.Value(), now, rest).1 == whole.1
        decreases |rest|, Work(delayed.heap, now)
      {
        ghost var q := delayed.Value();
        AtPopUrgent(q, Head(rest));
        delayed.Interfere(Head(rest).beforePeek);
        var sequenceNum, triggerTick := delayed.CheckTopTask();
        if now <= triggerTick { break; }
        ghost var popped := RunDue(now, Head(rest), q);
        DrainStep(q, now, rest);
        delayed.Interfere(Head(Rest(rest)).beforeLength);
        assert delayed.Value() == Next(q, now, rest);
        Assoc(ran, [popped], Drain(delayed.Value(), now, Rest(rest)).1);
        Assoc(old(delayedLog), Stamp(ran, now), [Ran(popped, now)]);
        StampAppend(ran, popped, now);
        ran := ran + [popped];
        rest := Rest(rest);
        length := delayed.GetLength();
      }
    }

    /** The body of the outer loop; a task of the pass may call `RequestStop`. */
    method RunPass(pass: Pass)
      requires Valid() && AllTame(delayed.heap, pass.now) && TameTurns(pass.delayed, pass.now)
      modifies this, immediate, delayed
      ensures Valid() && done == (old(done) || pass.stop)
      ensures delayed.Value() == DelayedPass(old(delayed.Value()), pass).0
      ensures delayedLog == old(delayedLog) + Stamp(DelayedPass(old(delayed.Value()), pass).1, pass.now)
      ensures immediate.Value() == NowPass(old(immediate.Value()), pass).0
      ensures log == old(log) + NowPass(old(immediate.Value()), pass).1
    {
      ghost var q := delayed.Value();
      RunImmediate(pass.immediate);
      RunDelayed(pass.now, pass.delayed);
      assert delayed.Value() == DelayedPass(q, pass).0;
      if pass.stop {
        done := true;
      }
    }

    /** The outer loop. */
    method RunMsgPump(passes: seq<Pass>)
      requires Valid() && TameRun(delayed.Value(), Performed(passes)) && !done
      modifies this, immediate, delayed
      ensures Valid()
      ensures delayed.Value() == DelayedPasses(old(delayed.Value()), Performed(passes)).0
      ensures delayedLog == old(delayedLog) + DelayedPasses(old(delayed.Value()), Performed(passes)).1
      ensures immediate.Value() == NowPasses(old(immediate.Value()), Performed(passes)).0
      ensures log == old(log) + NowPasses(old(immediate.Value()), Performed(passes)).1
    {
      var i := 0;
      ghost var todo := Performed(passes);
      ghost var late, now := DelayedPasses(delayed.Value(), todo), NowPasses(immediate.Value(), todo);
      assert passes[0..] == passes;
      while !done && i < |passes|
        invariant Valid() && 0 <= i <= |passes|
        invariant todo == (if done then [] else Performed(passes[i..])) && TameRun(delayed.Value(), todo)
        invariant DelayedPasses(delayed.Value(), todo).0 == late.0 && NowPasses(immediate.Value(), todo).0 == now.0
        invariant delayedLog + DelayedPasses(delayed.Value(), todo).1 == old(delayedLog) + late.1
        invariant log + NowPasses(immediate.Value(), todo).1 == old(log) + now.1
        decreases |passes| - i, !done
      {
        assert passes[i..][1..] == passes[i + 1..] && todo[0] == passes[i];
        ghost var runs := Stamp(DelayedPass(delayed.Value(), passes[i]).1, passes[i].now);
        ghost var runsNow := NowPass(immediate.Value(), passes[i]).1;
        ghost var before, beforeNow := delayedLog, log;
        RunPass(passes[i]);
        todo := todo[1..];
        Assoc(before, runs, DelayedPasses(delayed.Value(), todo).1);
        Assoc(beforeNow, runsNow, NowPasses(immediate.Value(), todo).1);
        i := i + 1;
      }
    }
  }
}
