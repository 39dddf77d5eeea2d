/** How a run gets a call onto the queues of the events in its list: all events are clear and free,
    and each position is looked at, locked, cleaned and joined. */
module EventsListing {
  import opened Events
  import opened EventsRuns

  /** `kinds` says of every event whether it is auto-reset. */
  predicate OfKinds(s: State, kinds: seq<bool>) {
    |s.events| == |kinds| && forall e :: 0 <= e < |kinds| ==> s.events[e].autoReset == kinds[e]
  }

  predicate Names(kinds: seq<bool>, list: seq<nat>) {
    forall k :: 0 <= k < |list| ==> list[k] < |kinds|
  }

  function Clear(kind: bool, queue: seq<Registration>): Event {
    Event(kind, false, queue, Free, false, 0, 0, [])
  }

  /** Clear events of these kinds, and nobody waiting. */
  function Start(kinds: seq<bool>): (s: State)
    ensures OfKinds(s, kinds) && s.waits == map[]
    ensures forall e :: 0 <= e < |kinds| ==> s.events[e] == Clear(kinds[e], [])
  {
    State(seq(|kinds|, e requires 0 <= e < |kinds| => Clear(kinds[e], [])), map[])
  }

  lemma StartReachable(kinds: seq<bool>)
    ensures Reachable(Start(kinds))
  {
    assert IsRun([Start(kinds)], []);
  }

  /** An event that is clear and free, with calls in its queue that all wait. */
  predicate CalmEvent(waits: map<nat, Wait>, ev: Event) {
    ev.holder.Free? && !ev.state &&
    forall k :: 0 <= k < |ev.registered| ==> ev.registered[k].wait in waits && waits[ev.registered[k].wait].stillWaiting
  }

  predicate Calm(s: State) {
    forall e :: 0 <= e < |s.events| ==> CalmEvent(s.waits, s.events[e])
  }

  /** A call to come, with infinite patience. */
  datatype Call = Call(wait: nat, list: seq<nat>, all: bool)

  predicate Ready(s: State, c: Call) {
    Calm(s) && c.wait !in s.waits && forall k :: 0 <= k < |c.list| ==> c.list[k] < |s.events|
  }

  /** What the call puts into the queue of event `e` at its first `n` positions. */
  function Queued(c: Call, n: nat, e: nat): (r: seq<Registration>)
    requires n <= |c.list|
    ensures forall k :: 0 <= k < |r| ==> r[k].wait == c.wait
  {
    if n == 0 then []
    else Queued(c, n - 1, e) + if c.list[n - 1] == e then [Registration(c.wait, n - 1)] else []
  }

  /** An event that comes first in the call's part of a queue with its first position. */
  lemma {:induction false} QueuedFirst(c: Call, n: nat, e: nat, i: nat)
    requires i < n <= |c.list| && c.list[i] == e
    requires forall k :: 0 <= k < i ==> c.list[k] != e
    ensures Queued(c, n, e) != [] && Queued(c, n, e)[0] == Registration(c.wait, i)
  {
    if n == i + 1 {
      QueuedNone(c, i, e);
    } else {
      QueuedFirst(c, n - 1, e, i);
    }
  }

  lemma {:induction false} QueuedNone(c: Call, n: nat, e: nat)
    requires n <= |c.list|
    requires forall k :: 0 <= k < n ==> c.list[k] != e
    ensures Queued(c, n, e) == []
  {
    if n > 0 {
      QueuedNone(c, n - 1, e);
    }
  }

  function Longer(ev: Event, more: seq<Registration>): Event {
    ev.(registered := ev.registered + more)
  }

  function Queues(events: seq<Event>, c: Call, n: nat): (r: seq<Event>)
    requires n <= |c.list|
    ensures |r| == |events| && forall e :: 0 <= e < |events| ==> r[e] == Longer(events[e], Queued(c, n, e))
  {
    seq(|events|, e requires 0 <= e < |events| => Longer(events[e], Queued(c, n, e)))
  }

  /** From clear events. */
  lemma StartQueues(kinds: seq<bool>, c: Call, n: nat)
    requires n <= |c.list|
    ensures forall e :: 0 <= e < |kinds| ==>
      Queues(Start(kinds).events, c, n)[e] == Clear(kinds[e], Queued(c, n, e))
  {
    forall e | 0 <= e < |kinds| ensures Queues(Start(kinds).events, c, n)[e] == Clear(kinds[e], Queued(c, n, e)) {
      assert [] + Queued(c, n, e) == Queued(c, n, e);
    }
  }

  function Wanting(c: Call, n: nat): Wait {
    NewWait(c.list, c.all, Infinite).(next := n)
  }

  /** The call has joined the queues of its first `n` positions. */
  function Upto(s: State, c: Call, n: nat): State
    requires n <= |c.list|
  {
    State(Queues(s.events, c, n), s.waits[c.wait := Wanting(c, n)])
  }

  lemma UptoCalm(s: State, c: Call, n: nat)
    requires Ready(s, c) && n <= |c.list|
    ensures Calm(Upto(s, c, n))
  {
    forall e | 0 <= e < |s.events| ensures CalmEvent(Upto(s, c, n).waits, Upto(s, c, n).events[e]) {
      assert CalmEvent(s.waits, s.events[e]);
    }
  }

  lemma PutTwice(s: State, e: nat, a: Event, w: nat, x: Wait, b: Event, y: Wait)
    requires e < |s.events|
    ensures Put(Put(s, e, a, w, x), e, b, w, y) == Put(s, e, b, w, y)
  {
  }

  /** The state in which the call holds its next event and has looked at `k` entries. */
  function Held(s: State, c: Call, n: nat, k: nat): State
    requires n < |c.list| && Ready(s, c)
  {
    var u, e := Upto(s, c, n), c.list[n];
    Put(u, e, u.events[e].(holder := Registrar(c.wait, k)), c.wait, Wanting(c, n).(stage := Cleaning))
  }

  /** The state in which the call has looked at its next event and waits for its mutex. */
  function BlockedAt(s: State, c: Call, n: nat): State
    requires n < |c.list|
  {
    PutWait(Upto(s, c, n), c.wait, Wanting(c, n).(stage := Blocked))
  }

  lemma Looks(s: State, c: Call, n: nat)
    requires n < |c.list| && Ready(s, c) && Reachable(Upto(s, c, n))
    ensures Reachable(BlockedAt(s, c, n))
  {
    UptoCalm(s, c, n);
    assert CalmEvent(Upto(s, c, n).waits, Upto(s, c, n).events[c.list[n]]);
    ReachableStep(Upto(s, c, n), Look(c.wait));
  }

  lemma Locked(s: State, c: Call, n: nat)
    requires n < |c.list| && Ready(s, c) && Reachable(Upto(s, c, n))
    ensures Reachable(Held(s, c, n, 0))
  {
    var u, e := Upto(s, c, n), c.list[n];
    Looks(s, c, n);
    UptoCalm(s, c, n);
    assert CalmEvent(u.waits, u.events[e]);
    ReachableStep(BlockedAt(s, c, n), Acquire(c.wait));
    Acquires(u, c.wait, Wanting(c, n).(stage := Blocked), e);
  }

  lemma Acquires(u: State, w: nat, wt: Wait, e: nat)
    requires e < |u.events| && Enabled(PutWait(u, w, wt), Acquire(w)) && Visited(PutWait(u, w, wt), w) == e
    ensures Apply(PutWait(u, w, wt), Acquire(w)) ==
      Put(u, e, u.events[e].(holder := Registrar(w, 0)), w, wt.(stage := Cleaning))
  {
  }

  /** Nobody has stopped waiting, so the cleaning keeps every entry. */
  lemma {:induction false} Cleaned(s: State, c: Call, n: nat, k: nat)
    requires n < |c.list| && Ready(s, c) && Reachable(Held(s, c, n, 0))
    requires k <= |Upto(s, c, n).events[c.list[n]].registered|
    ensures Reachable(Held(s, c, n, k))
  {
    if k > 0 {
      Cleaned(s, c, n, k - 1);
      UptoCalm(s, c, n);
      assert CalmEvent(Upto(s, c, n).waits, Upto(s, c, n).events[c.list[n]]);
      KeepsEntry(s, c, n, k - 1);
    }
  }

  lemma KeepsEntry(s: State, c: Call, n: nat, k: nat)
    requires n < |c.list| && Ready(s, c) && Reachable(Held(s, c, n, k))
    requires CalmEvent(Upto(s, c, n).waits, Upto(s, c, n).events[c.list[n]])
    requires k < |Upto(s, c, n).events[c.list[n]].registered|
    ensures Reachable(Held(s, c, n, k + 1))
  {
    ReachableStep(Held(s, c, n, k), Clean(c.wait));
    assert Apply(Held(s, c, n, k), Clean(c.wait)) == Held(s, c, n, k + 1);
  }

  /** A clear event takes the call into its queue. */
  lemma TryJoins(s: State, w: nat, e: nat)
    requires Enabled(s, Try(w)) && e == Visited(s, w) && !s.events[e].state
    ensures Apply(s, Try(w)) ==
      Put(s, e, Joined(s.events[e], Registration(w, s.waits[w].next)), w, Enlisted(s.waits[w]))
  {
  }

  /** Putting the event and the call as they are one position later gives the later state. */
  lemma PutNext(s: State, c: Call, n: nat)
    requires n < |c.list| && Ready(s, c)
    ensures Put(Upto(s, c, n), c.list[n], Longer(s.events[c.list[n]], Queued(c, n + 1, c.list[n])), c.wait, Wanting(c, n + 1)) ==
      Upto(s, c, n + 1)
  {
    var ev := Longer(s.events[c.list[n]], Queued(c, n + 1, c.list[n]));
    forall e: nat | e < |s.events| && e != c.list[n] ensures Queued(c, n + 1, e) == Queued(c, n, e) {
    }
    assert Queues(s.events, c, n)[c.list[n] := ev] == Queues(s.events, c, n + 1);
  }

  lemma OneJoins(s: State, c: Call, n: nat)
    requires n < |c.list| && Ready(s, c) && Reachable(Upto(s, c, n))
    ensures Reachable(Upto(s, c, n + 1))
  {
    hide Reachable, Apply, Held;
    var e := c.list[n];
    var k := |Upto(s, c, n).events[e].registered|;
    Locked(s, c, n);
    Cleaned(s, c, n, k);
    var h := Held(s, c, n, k);
    HeldToTry(s, c, n);
    ReachableStep(h, Try(c.wait));
    TryJoins(h, c.wait, e);
    JoinedIsNext(s, c, n);
  }

  lemma HeldToTry(s: State, c: Call, n: nat)
    requires n < |c.list| && Ready(s, c)
    ensures var e := c.list[n];
      var h := Held(s, c, n, |Upto(s, c, n).events[e].registered|);
      Enabled(h, Try(c.wait)) && Visited(h, c.wait) == e && !h.events[e].state && h.waits[c.wait].next == n
  {
    assert CalmEvent(s.waits, s.events[c.list[n]]);
  }

  lemma JoinedIsNext(s: State, c: Call, n: nat)
    requires n < |c.list| && Ready(s, c)
    ensures var e := c.list[n];
      var h := Held(s, c, n, |Upto(s, c, n).events[e].registered|);
      Put(h, e, Joined(h.events[e], Registration(c.wait, n)), c.wait, Enlisted(h.waits[c.wait])) == Upto(s, c, n + 1)
  {
    var u, e := Upto(s, c, n), c.list[n];
    var h := Held(s, c, n, |u.events[e].registered|);
    assert CalmEvent(s.waits, s.events[e]);
    var ev, wt := Joined(h.events[e], Registration(c.wait, n)), Enlisted(h.waits[c.wait]);
    PutTwice(u, e, h.events[e], c.wait, h.waits[c.wait], ev, wt);
    assert ev == Longer(s.events[e], Queued(c, n + 1, e));
    PutNext(s, c, n);
  }

  lemma Begun(s: State, c: Call)
    requires Ready(s, c) && Reachable(s)
    ensures Reachable(Upto(s, c, 0))
  {
    ReachableStep(s, Begin(c.wait, c.list, c.all, Infinite));
    forall e | 0 <= e < |s.events| ensures Queues(s.events, c, 0)[e] == s.events[e] {
      assert s.events[e].registered + [] == s.events[e].registered;
    }
    assert Queues(s.events, c, 0) == s.events;
  }

  lemma {:induction false} UptoReachable(s: State, c: Call, n: nat)
    requires n <= |c.list| && Ready(s, c) && Reachable(s)
    ensures Reachable(Upto(s, c, n))
  {
    if n == 0 {
      Begun(s, c);
    } else {
      UptoReachable(s, c, n - 1);
      OneJoins(s, c, n - 1);
    }
  }

  /** The position at which the list first names an event. */
  lemma FirstNamed(list: seq<nat>, k: nat) returns (i: nat)
    requires k < |list|
    ensures i <= k && list[i] == list[k]
    ensures forall j :: 0 <= j < i ==> list[j] != list[k]
  {
    i := 0;
    while list[i] != list[k]
      invariant i <= k && forall j :: 0 <= j < i ==> list[j] != list[k]
      decreases k - i
    {
      i := i + 1;
    }
  }
}
