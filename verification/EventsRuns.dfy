/** Runs of the event machine. */
module EventsRuns {
  import opened Events

  /** Events as `CreateEvent` leaves them, and nobody waiting. */
  predicate Initial(s: State) {
    s.waits == map[] &&
    forall e :: 0 <= e < |s.events| ==>
      var ev := s.events[e];
      ev.registered == [] && ev.holder.Free? && ev.initial == ev.state &&
      ev.setCalls == 0 && ev.singles == 0 && ev.served == []
  }

  ghost predicate IsRun(run: seq<State>, steps: seq<Step>) {
    |run| == |steps| + 1 && Initial(run[0]) &&
    forall i :: 0 <= i < |steps| ==> Enabled(run[i], steps[i]) && run[i + 1] == Apply(run[i], steps[i])
  }

  ghost predicate Reachable(s: State) {
    exists run, steps :: IsRun(run, steps) && run[|steps|] == s
  }

  lemma ReachableStep(s: State, step: Step)
    requires Reachable(s) && Enabled(s, step)
    ensures Reachable(Apply(s, step))
  {
    var run, steps :| IsRun(run, steps) && run[|steps|] == s;
    assert IsRun(run + [Apply(s, step)], steps + [step]);
  }
}
