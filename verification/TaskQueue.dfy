/** `TaskQueue` of base/thread/thread.h and the order in which its tasks come out. */
module TaskQueue {

  /** `PendingTask`; `closure` stands for the callback. */
  datatype Task = Task(closure: nat, sequence: nat, tick: int, times: int, interval: int)

  /** What a queue holds, most urgent task first, and the next sequence number. */
  datatype Contents = Contents(tasks: seq<Task>, next: nat)

  /** `a` is more urgent than `b`: the order in which `operator<` makes the heap yield them. */
  predicate Before(a: Task, b: Task) {
    a.tick < b.tick || (a.tick == b.tick && a.sequence < b.sequence)
  }

  /** The contract of `std::priority_queue`: a new task goes behind the more urgent ones. */
  function Insert(tasks: seq<Task>, t: Task): seq<Task> {
    if tasks == [] || Before(t, tasks[0]) then [t] + tasks else [tasks[0]] + Insert(tasks[1..], t)
  }

  function Push(q: Contents, t: Task): Contents {
    Contents(Insert(q.tasks, t.(sequence := q.next)), q.next + 1)
  }

  function PushAll(q: Contents, ts: seq<Task>): Contents
    decreases |ts|
  {
    if ts == [] then q else PushAll(Push(q, ts[0]), ts[1..])
  }

  function Pop(q: Contents): Contents
    requires q.tasks != []
  {
    q.(tasks := q.tasks[1..])
  }

  predicate Sorted(ts: seq<Task>) {
    forall i, j :: 0 <= i < j < |ts| ==> Before(ts[i], ts[j])
  }

  /** Sorted by due tick, then by order of submission; sequence numbers are all used up. */
  ghost predicate Ordered(q: Contents) {
    Sorted(q.tasks) && forall t :: t in q.tasks ==> t.sequence < q.next
  }

  lemma {:induction false} InsertHolds(ts: seq<Task>, t: Task, x: Task)
    ensures x in Insert(ts, t) <==> x == t || x in ts
  {
    if ts != [] && !Before(t, ts[0]) {
      InsertHolds(ts[1..], t, x);
      assert x in ts <==> x == ts[0] || x in ts[1..];
    }
  }

  lemma SortedCons(x: Task, ts: seq<Task>)
    requires Sorted(ts) && forall y :: y in ts ==> Before(x, y)
    ensures Sorted([x] + ts)
  {
  }

  lemma SortedHead(ts: seq<Task>, y: Task)
    requires Sorted(ts) && ts != [] && y in ts[1..]
    ensures Before(ts[0], y)
  {
  }

  lemma {:induction false} InsertSorted(ts: seq<Task>, t: Task)
    requires Sorted(ts) && forall y :: y in ts ==> y.sequence != t.sequence
    ensures Sorted(Insert(ts, t))
  {
    if ts == [] || Before(t, ts[0]) {
      forall y | y in ts ensures Before(t, y) {
        if y != ts[0] { SortedHead(ts, y); }
      }
      SortedCons(t, ts);
    } else {
      InsertSorted(ts[1..], t);
      forall y | y in Insert(ts[1..], t) ensures Before(ts[0], y) {
        InsertHolds(ts[1..], t, y);
        if y != t { SortedHead(ts, y); }
      }
      SortedCons(ts[0], Insert(ts[1..], t));
    }
  }

  lemma PushOrdered(q: Contents, t: Task)
    requires Ordered(q)
    ensures Ordered(Push(q, t))
    ensures forall x :: x in Push(q, t).tasks <==> x == t.(sequence := q.next) || x in q.tasks
  {
    var t' := t.(sequence := q.next);
    InsertSorted(q.tasks, t');
    forall x ensures x in Insert(q.tasks, t') <==> x == t' || x in q.tasks {
      InsertHolds(q.tasks, t', x);
    }
  }

  lemma {:induction false} PushAllOrdered(q: Contents, ts: seq<Task>)
    requires Ordered(q)
    ensures Ordered(PushAll(q, ts))
    ensures forall x :: x in q.tasks ==> x in PushAll(q, ts).tasks
    decreases |ts|
  {
    if ts != [] {
      PushOrdered(q, ts[0]);
      PushAllOrdered(Push(q, ts[0]), ts[1..]);
    }
  }

  /** Whatever is pushed, the top is the one seen before or a more urgent task. */
  lemma {:induction false} TopOnlyMoreUrgent(q: Contents, ts: seq<Task>)
    requires q.tasks != []
    ensures var r := PushAll(q, ts).tasks; r != [] && (r[0] == q.tasks[0] || Before(r[0], q.tasks[0]))
    decreases |ts|
  {
    if ts != [] {
      TopOnlyMoreUrgent(Push(q, ts[0]), ts[1..]);
    }
  }

  /** The queue as the source has it: a heap and a counter, guarded by a mutex.  Each method
      is one critical section. */
  class Queue {
    var heap: seq<Task>
    var sequence: nat

    function Value(): Contents
      reads this
    {
      Contents(heap, sequence)
    }

    ghost predicate Valid()
      reads this
    {
      Ordered(Value())
    }

    constructor ()
      ensures Valid() && Value() == Contents([], 0)
    {
      heap := [];
      sequence := 0;
    }

    /** The task gets the next sequence number, whatever number it carried before. */
    method PushTask(task: Task)
      requires Valid()
      modifies this
      ensures Valid() && Value() == Push(old(Value()), task)
    {
      PushOrdered(Value(), task);
      var newTask := task.(sequence := sequence);
      sequence := sequence + 1;
      heap := Insert(heap, newTask);
    }

    method GetTask() returns (task: Task)
      requires Valid() && heap != []
      modifies this
      ensures Valid() && task == old(heap)[0] && Value() == Pop(old(Value()))
      ensures forall t :: t in heap ==> Before(task, t)
    {
      task := heap[0];
      heap := heap[1..];
    }

    method CheckTopTask() returns (sequenceNum: nat, triggerTick: int)
      requires Valid() && heap != []
      ensures sequenceNum == heap[0].sequence && triggerTick == heap[0].tick
      ensures forall t :: t in heap ==> triggerTick <= t.tick
    {
      forall t | t in heap ensures heap[0].tick <= t.tick {
        var k :| 0 <= k < |heap| && heap[k] == t;
        if k > 0 {
          assert Before(heap[0], heap[k]);
        }
      }
      return heap[0].sequence, heap[0].tick;
    }

    method GetLength() returns (length: nat)
      ensures length == |heap|
    {
      length := |heap|;
    }

    /** Other threads push some tasks between two critical sections of the pump. */
    method Interfere(tasks: seq<Task>)
      requires Valid()
      modifies this
      ensures Valid() && Value() == PushAll(old(Value()), tasks)
    {
      ghost var was := Value();
      var i := 0;
      assert tasks[0..] == tasks;
      while i < |tasks|
        invariant 0 <= i <= |tasks| && Valid()
        invariant PushAll(Value(), tasks[i..]) == PushAll(was, tasks)
      {
        assert tasks[i..][1..] == tasks[i + 1..];
        PushTask(tasks[i]);
        i := i + 1;
      }
    }
  }
}
