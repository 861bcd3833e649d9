/**
 Overlapping deploy ticks and one change: the missed-window pass lists first and appends later, outside the
 lease, so other ticks may list or append in between.
 */
module DeployOverlap {
  import opened Wrappers
  import opened DeployTick

  datatype Step =
    | List(tick: nat, now: int)    // the tick finds the change missed
    | Append(tick: nat)            // ... and appends window_missed
    | GiveUp(tick: nat)            // ... or raises before that
    | Other(event: Event)          // an operator, the CAB, a bridge

  datatype State = State(log: Log, listed: set<nat>)

  predicate Enabled(s: State, step: Step) {
    match step
    case List(tick, now) => tick !in s.listed && Missed(s.log, now)
    case Append(tick) => tick in s.listed
    case GiveUp(tick) => tick in s.listed
    case Other(e) => e != WindowMissed && e != StatusTo(Scheduled)
  }

  function After(s: State, step: Step): State {
    match step
    case List(tick, _) => s.(listed := s.listed + {tick})
    case Append(tick) => State(s.log + [WindowMissed], s.listed - {tick})
    case GiveUp(tick) => s.(listed := s.listed - {tick})
    case Other(e) => s.(log := s.log + [e])
  }

  function Run(s: State, steps: seq<Step>): State
    decreases |steps|
  {
    if steps == [] then s else After(Run(s, steps[..|steps| - 1]), steps[|steps| - 1])
  }

  ghost predicate Valid(s: State, steps: seq<Step>) {
    forall k {:trigger steps[k]} :: 0 <= k < |steps| ==> Enabled(Run(s, steps[..k]), steps[k])
  }

  /** Since it listed the change, another tick reported the miss and the change was not scheduled anew. */
  predicate Overtaken(steps: seq<Step>, tick: nat)
    decreases |steps|
  {
    steps != [] &&
    var front := steps[..|steps| - 1];
    match steps[|steps| - 1]
    case List(other, _) => other != tick && Overtaken(front, tick)
    case Append(other) => other != tick || Overtaken(front, tick)
    case GiveUp(_) => Overtaken(front, tick)
    case Other(e) => !e.Schedule? && Overtaken(front, tick)
  }

  /** No tick reports a miss that another tick has reported since it listed the change. */
  ghost predicate NoneOvertaken(steps: seq<Step>) {
    forall k {:trigger steps[k]} :: 0 <= k < |steps| && steps[k].Append? ==> !Overtaken(steps[..k], steps[k].tick)
  }

  /** Every missed window is followed by a scheduling. */
  ghost predicate Since(log: Log) {
    forall i :: 0 <= i < |log| && log[i] == WindowMissed ==> exists k :: i < k < |log| && log[k].Schedule?
  }

  lemma SinceAppend(log: Log, e: Event)
    ensures e.Schedule? ==> Since(log + [e])
    ensures e == WindowMissed ==> !Since(log + [e])
    ensures !e.Schedule? && e != WindowMissed ==> (Since(log + [e]) <==> Since(log))
  {
    var all := log + [e];
    assert all[|log|] == e;
    if e.Schedule? {
      assert Since(all);
    } else if e != WindowMissed {
      if Since(log) {
        forall i | 0 <= i < |all| && all[i] == WindowMissed ensures exists k :: i < k < |all| && all[k].Schedule? {
          var k :| i < k < |log| && log[k].Schedule?;
          assert all[k].Schedule?;
        }
      }
      if Since(all) {
        forall i | 0 <= i < |log| && log[i] == WindowMissed ensures exists k :: i < k < |log| && log[k].Schedule? {
          assert all[i] == WindowMissed;
          var k :| i < k < |all| && all[k].Schedule?;
          assert log[k].Schedule?;
        }
      }
    }
  }

  /** One more event keeps one report per scheduling, unless it reports a window already reported. */
  lemma OnceAppend(log: Log, e: Event)
    requires OncePerScheduling(log)
    ensures OncePerScheduling(log + [e]) <==> (e != WindowMissed || Since(log))
  {
    var all := log + [e];
    if e != WindowMissed || Since(log) {
      forall i, j | 0 <= i < j < |all| && all[i] == WindowMissed && all[j] == WindowMissed
        ensures exists k :: i < k < j && all[k].Schedule?
      {
        assert log[i] == WindowMissed;
        var k :| i < k < (if j < |log| then j else |log|) && log[k].Schedule?;
        assert all[k].Schedule?;
      }
    } else {
      var i :| 0 <= i < |log| && log[i] == WindowMissed && forall k :: i < k < |log| ==> !log[k].Schedule?;
      assert all[i] == WindowMissed && all[|log|] == WindowMissed;
      assert forall k :: i < k < |log| ==> all[k] == log[k];
    }
  }

  lemma RescheduledAppend(log: Log, e: Event)
    requires StatusOf(log) == Scheduled ==> Since(log)
    requires e != StatusTo(Scheduled)
    ensures StatusOf(log + [e]) == Scheduled ==> Since(log + [e])
  {
    assert (log + [e])[..|log + [e]| - 1] == log;
    SinceAppend(log, e);
  }

  /** A listed tick is overtaken exactly when some reported miss has no scheduling after it. */
  ghost predicate Linked(s: State, steps: seq<Step>) {
    && (StatusOf(s.log) == Scheduled ==> Since(s.log))
    && (forall tick :: tick in s.listed ==> (Overtaken(steps, tick) <==> !Since(s.log)))
  }

  lemma LinkedStep(s: State, steps: seq<Step>, step: Step)
    requires Linked(s, steps) && Enabled(s, step)
    ensures Linked(After(s, step), steps + [step])
  {
    hide Since, Missed;
    var t, all := After(s, step), steps + [step];
    assert all[..|all| - 1] == steps && all[|all| - 1] == step;
    match step
    case List(tick, now) =>
      MissedIsScheduled(s.log, now);
    case Append(_) =>
      SinceAppend(s.log, WindowMissed);
      RescheduledAppend(s.log, WindowMissed);
    case GiveUp(_) =>
    case Other(e) =>
      SinceAppend(s.log, e);
      RescheduledAppend(s.log, e);
  }

  lemma MissedIsScheduled(log: Log, now: int)
    requires Missed(log, now)
    ensures StatusOf(log) == Scheduled
  {
  }

  lemma {:induction false} RunLinked(s: State, steps: seq<Step>)
    requires s.listed == {} && (StatusOf(s.log) == Scheduled ==> Since(s.log)) && Valid(s, steps)
    ensures Linked(Run(s, steps), steps)
    decreases |steps|
  {
    if steps != [] {
      ValidFront(s, steps);
      var front, step := steps[..|steps| - 1], steps[|steps| - 1];
      RunLinked(s, front);
      LinkedStep(Run(s, front), front, step);
      assert front + [step] == steps;
    }
  }

  lemma ValidFront(s: State, steps: seq<Step>)
    requires Valid(s, steps) && steps != []
    ensures Valid(s, steps[..|steps| - 1]) && Enabled(Run(s, steps[..|steps| - 1]), steps[|steps| - 1])
  {
    var front := steps[..|steps| - 1];
    assert steps[|front|] == steps[|steps| - 1];
    forall k | 0 <= k < |front| ensures Enabled(Run(s, front[..k]), front[k]) {
      assert front[..k] == steps[..k] && front[k] == steps[k];
    }
  }

  ghost predicate OnceThroughout(s: State, steps: seq<Step>) {
    forall k :: 0 <= k <= |steps| ==> OncePerScheduling(Run(s, steps[..k]).log)
  }

  /**
   However ticks overlap: each scheduling gets at most one window_missed in every state of a run if and only if no
   tick appends after another has appended since it listed the change, unless it was scheduled anew in between.
   */
  lemma {:induction false} OneMissIffNoneOvertaken(s: State, steps: seq<Step>)
    requires s.listed == {} && (StatusOf(s.log) == Scheduled ==> Since(s.log)) && OncePerScheduling(s.log)
    requires Valid(s, steps)
    ensures OnceThroughout(s, steps) <==> NoneOvertaken(steps)
    decreases |steps|
  {
    if steps == [] {
      assert steps[..0] == [];
    } else {
      var front, step := steps[..|steps| - 1], steps[|steps| - 1];
      ValidFront(s, steps);
      OneMissIffNoneOvertaken(s, front);
      SplitLast(s, steps);
      if OnceThroughout(s, front) {
        assert front[..|front|] == front;
        RunLinked(s, front);
        OneStepOnce(Run(s, front), front, step);
      }
    }
  }

  lemma OneStepOnce(s: State, steps: seq<Step>, step: Step)
    requires Linked(s, steps) && Enabled(s, step) && OncePerScheduling(s.log)
    ensures OncePerScheduling(After(s, step).log) <==> !(step.Append? && Overtaken(steps, step.tick))
  {
    hide OncePerScheduling, Since, Overtaken, Missed;
    match step
    case Append(_) => OnceAppend(s.log, WindowMissed);
    case Other(e) => OnceAppend(s.log, e);
    case _ =>
  }

  /** Both sides of the theorem, taken apart at the last step. */
  lemma SplitLast(s: State, steps: seq<Step>)
    requires steps != []
    ensures var front, step := steps[..|steps| - 1], steps[|steps| - 1];
            && (OnceThroughout(s, steps) <==> OnceThroughout(s, front) && OncePerScheduling(Run(s, steps).log))
            && (NoneOvertaken(steps) <==> NoneOvertaken(front) && !(step.Append? && Overtaken(front, step.tick)))
  {
    hide OncePerScheduling, Overtaken, Run;
    var front := steps[..|steps| - 1];
    assert steps[..|steps|] == steps;
    assert forall k {:trigger steps[..k]} :: 0 <= k <= |front| ==> front[..k] == steps[..k];
    assert forall k {:trigger front[..k]} :: 0 <= k <= |front| ==> front[..k] == steps[..k];
    assert forall k {:trigger steps[k]} :: 0 <= k < |front| ==> front[k] == steps[k];
    assert forall k {:trigger front[k]} :: 0 <= k < |front| ==> front[k] == steps[k];
    if NoneOvertaken(steps) {
      forall k | 0 <= k < |front| && front[k].Append? ensures !Overtaken(front[..k], front[k].tick) {
        assert steps[k] == front[k];
      }
    }
    if NoneOvertaken(front) && !(steps[|front|].Append? && Overtaken(front, steps[|front|].tick)) {
      forall k | 0 <= k < |steps| && steps[k].Append? ensures !Overtaken(steps[..k], steps[k].tick) {
        if k < |front| { assert front[k] == steps[k]; }
      }
    }
    if OnceThroughout(s, front) && OncePerScheduling(Run(s, steps).log) {
      forall k | 0 <= k <= |steps| ensures OncePerScheduling(Run(s, steps[..k]).log) {
        if k <= |front| { assert front[..k] == steps[..k]; }
      }
    }
    if OnceThroughout(s, steps) {
      forall k | 0 <= k <= |front| ensures OncePerScheduling(Run(s, front[..k]).log) {
        assert front[..k] == steps[..k];
      }
    }
  }

  /** Ticks that never hold the change listed at the same time overtake nobody. */
  ghost predicate NoOverlap(s: State, steps: seq<Step>) {
    forall k {:trigger steps[k]} :: 0 <= k < |steps| && steps[k].List? ==> Run(s, steps[..k]).listed == {}
  }

  lemma {:induction false} NoOverlapNobodyOvertaken(s: State, steps: seq<Step>)
    requires s.listed == {} && Valid(s, steps) && NoOverlap(s, steps)
    ensures var t := Run(s, steps);
            |t.listed| <= 1 && forall tick :: tick in t.listed ==> t.listed == {tick} && !Overtaken(steps, tick)
    decreases |steps|
  {
    if steps != [] {
      ValidFront(s, steps);
      var front := steps[..|steps| - 1];
      forall k | 0 <= k < |front| && front[k].List? ensures Run(s, front[..k]).listed == {} {
        assert front[..k] == steps[..k] && front[k] == steps[k];
      }
      NoOverlapNobodyOvertaken(s, front);
      assert steps[|front|].List? ==> Run(s, steps[..|front|]).listed == {};
    }
  }

  lemma PrefixKeeps(s: State, steps: seq<Step>, k: nat)
    requires Valid(s, steps) && NoOverlap(s, steps) && k <= |steps|
    ensures Valid(s, steps[..k]) && NoOverlap(s, steps[..k])
  {
    hide Run, Enabled;
    var part := steps[..k];
    forall i | 0 <= i < k ensures Enabled(Run(s, part[..i]), part[i]) {
      assert part[..i] == steps[..i] && part[i] == steps[i];
    }
    forall i | 0 <= i < k && part[i].List? ensures Run(s, part[..i]).listed == {} {
      assert part[..i] == steps[..i] && part[i] == steps[i];
    }
  }

  /** So one tick at a time reports each miss once, however often others schedule in between. */
  lemma OneAtATimeReportsOnce(s: State, steps: seq<Step>)
    requires s.listed == {} && (StatusOf(s.log) == Scheduled ==> Since(s.log)) && OncePerScheduling(s.log)
    requires Valid(s, steps) && NoOverlap(s, steps)
    ensures OnceThroughout(s, steps)
  {
    hide OncePerScheduling, OnceThroughout, Since, Overtaken, NoOverlap;
    forall k | 0 <= k < |steps| && steps[k].Append? ensures !Overtaken(steps[..k], steps[k].tick) {
      PrefixKeeps(s, steps, k);
      NoOverlapNobodyOvertaken(s, steps[..k]);
      assert Enabled(Run(s, steps[..k]), steps[k]);
    }
    OneMissIffNoneOvertaken(s, steps);
  }

  /** Two ticks that both list before either appends report one miss twice. */
  lemma OverlapReportsTwice(s: State, now: int)
    requires s.listed == {} && Missed(s.log, now) && OncePerScheduling(s.log)
    ensures var steps := [List(0, now), List(1, now), Append(0), Append(1)];
            Valid(s, steps) && !OncePerScheduling(Run(s, steps).log)
  {
    hide Missed, OncePerScheduling;
    var a, b, c, d := List(0, now), List(1, now), Append(0), Append(1);
    var steps := [a, b, c, d];
    assert steps[..0] == [] && steps[..1] == [a] && steps[..2] == [a, b] && steps[..3] == [a, b, c];
    assert [a][..0] == [] && [a, b][..1] == [a] && [a, b, c][..2] == [a, b];
    var s1, s2 := After(s, a), After(After(s, a), b);
    var s3 := After(s2, c);
    assert Run(s, []) == s && Run(s, [a]) == s1 && Run(s, [a, b]) == s2 && Run(s, [a, b, c]) == s3;
    assert Run(s, steps) == After(s3, d);
    assert s3.log == s.log + [WindowMissed];
    TwiceInARow(s.log);
    forall k | 0 <= k < |steps| ensures Enabled(Run(s, steps[..k]), steps[k]) {
      if k == 0 {} else if k == 1 {} else if k == 2 {} else {}
    }
  }

  lemma TwiceInARow(log: Log)
    ensures !OncePerScheduling(log + [WindowMissed] + [WindowMissed])
  {
    var all := log + [WindowMissed] + [WindowMissed];
    assert all[|log|] == WindowMissed && all[|log| + 1] == WindowMissed;
  }
}
