/** The calls an operation makes into worker code, what they come back with, and when workers
    enter service, read off the log. */
module Milestones {
  import opened Basics
  import opened Lifecycle
  import opened RuntimeSteps
  import opened Interference
  import opened OperationSteps

  /** The milestones among the events, in commit order. */
  function Milestones(log: seq<Event>): seq<Event> {
    if log == [] then []
    else Milestones(log[..|log| - 1]) + if IsMilestone(log[|log| - 1]) then [log[|log| - 1]] else []
  }

  lemma {:induction false} MilestonesConcat(a: seq<Event>, b: seq<Event>)
    ensures Milestones(a + b) == Milestones(a) + Milestones(b)
  {
    if b == [] {
      assert a + b == a;
    } else {
      MilestonesConcat(a, b[..|b| - 1]);
      assert (a + b)[..|a + b| - 1] == a + b[..|b| - 1];
      assert (a + b)[|a + b| - 1] == b[|b| - 1];
    }
  }

  lemma {:induction false} NoMilestones(events: seq<Event>)
    requires forall e :: e in events ==> !IsMilestone(e)
    ensures Milestones(events) == []
  {
    if events != [] {
      NoMilestones(events[..|events| - 1]);
    }
  }

  lemma OneMilestone(e: Event)
    ensures Milestones([e]) == if IsMilestone(e) then [e] else []
  {
    assert [e][..|[e]| - 1] == [];
  }

  lemma {:induction false} AllMilestones(log: seq<Event>, e: Event)
    ensures e in Milestones(log) <==> e in log && IsMilestone(e)
  {
    if log != [] {
      AllMilestones(log[..|log| - 1], e);
      assert log == log[..|log| - 1] + [log[|log| - 1]];
    }
  }

  /** The milestones the log grew by since s. */
  function MilestonesSince(s: System, t: System): seq<Event>
    requires s.log <= t.log
  {
    Milestones(t.log[|s.log|..])
  }

  /** The log grew since s, and these are the milestones it grew by. */
  ghost predicate Passed(s: System, t: System, trace: seq<Event>) {
    s.log <= t.log && MilestonesSince(s, t) == trace
  }

  lemma PassedNothing(s: System)
    ensures Passed(s, s, [])
  {
  }

  lemma PassedOn(r: System, s: System, t: System, trace: seq<Event>, more: seq<Event>)
    requires Passed(r, s, trace) && Passed(s, t, more)
    ensures Passed(r, t, trace + more)
  {
    assert t.log[|r.log|..] == s.log[|r.log|..] + t.log[|s.log|..];
    MilestonesConcat(s.log[|r.log|..], t.log[|s.log|..]);
  }

  lemma PassedRely(r: System, s: System, t: System, trace: seq<Event>)
    requires Passed(r, s, trace) && Rely(s, t)
    ensures Passed(r, t, trace)
  {
    NoMilestones(t.log[|s.log|..]);
    PassedOn(r, s, t, trace, []);
    assert trace + [] == trace;
  }

  lemma PassedEvents(r: System, s: System, t: System, trace: seq<Event>, events: seq<Event>)
    requires Passed(r, s, trace) && t.log == s.log + events
    ensures Passed(r, t, trace + Milestones(events))
  {
    assert t.log[|s.log|..] == events;
    PassedOn(r, s, t, trace, Milestones(events));
  }

  // ---------------------------------------------------------------------------
  // The milestones of single steps.

  /** A Start that completes unreported brings its worker into service. */
  function EntersService(c: Core, name: Name): seq<Event> {
    if name in c.workers && !c.workers[name].failureReportedDuringStart
    then [Transition(OfWorker(name), Starting, Running)] else []
  }

  /** What a step of an operation on a worker makes known. */
  function StepMilestones(c: Core, l: Label): seq<Event>
    requires Enabled(c, l) && IsOperationStep(l)
  {
    match l
    case CallStart => Apply(c, l).events
    case CallStop => Apply(c, l).events
    case Answer(outcome) => [CallReturned(c.gate.activity.name, outcome)]
    case CompleteStart => EntersService(c, c.gate.activity.name)
    case _ => []
  }

  lemma SilentStepMilestones(c: Core, l: Label)
    requires Enabled(c, l) && IsOperationStep(l)
    requires !l.CallStart? && !l.CallStop? && !l.Answer? && !l.CompleteStart?
    ensures Milestones(Apply(c, l).events) == []
  {
    hide Observed, Commit, Milestones;
    NoMilestones(Apply(c, l).events);
  }

  lemma CallMilestones(c: Core, l: Label)
    requires Enabled(c, l) && (l.CallStart? || l.CallStop? || l.Answer?)
    ensures Milestones(Apply(c, l).events) == StepMilestones(c, l)
  {
    hide Milestones;
    assert |Apply(c, l).events| == 1;
    OneMilestone(Apply(c, l).events[0]);
    assert [Apply(c, l).events[0]] == Apply(c, l).events;
  }

  lemma ServiceMilestone(c: Core, name: Name, after: Worker)
    requires name in c.workers && c.workers[name].lifecycle == Starting && after.lifecycle == Running
    ensures Milestones(Observed(c, name, after, [], Done).events) == [Transition(OfWorker(name), Starting, Running)]
  {
    hide Commit, Milestones;
    var w, c' := c.workers[name], Commit(c, name, after);
    var first := TransitionEvents(OfWorker(name), Starting, Running);
    var rest := ReadinessEvents(OfWorker(name), w.ready, after.ready) + [] +
                TransitionEvents(OfRuntime, c.status.state, c'.status.state) +
                ReadinessEvents(OfRuntime, c.status.ready, c'.status.ready);
    assert Observed(c, name, after, [], Done).events == first + rest;
    NoMilestones(rest);
    OneMilestone(Transition(OfWorker(name), Starting, Running));
    MilestonesConcat(first, rest);
  }

  /** The gate holder's worker is in the matching generation. */
  predicate OnCurrent(c: Core) {
    Busy(c) && c.gate.activity.name in c.workers
        && c.workers[c.gate.activity.name].generation == c.gate.activity.generation
  }

  lemma CompleteStartMilestones(c: Core)
    requires Enabled(c, CompleteStart) && OnCurrent(c) && c.workers[c.gate.activity.name].lifecycle == Starting
    ensures Milestones(Apply(c, CompleteStart).events) == StepMilestones(c, CompleteStart)
  {
    hide Observed, Milestones;
    var a := c.gate.activity;
    var w, cfg := c.workers[a.name], c.configs[a.name];
    if w.failureReportedDuringStart {
      NoMilestones(Apply(c, CompleteStart).events);
    } else {
      var after := Moved(w, Running).(
                     ready := if w.readySetDuringStart then w.ready else cfg.readyOnStart,
                     acceptingWork := if w.acceptingWorkSetDuringStart then w.acceptingWork else cfg.acceptingWork,
                     failureReportedDuringStart := false,
                     lastFailure := None);
      ServiceMilestone(c, a.name, after);
    }
  }

  /** One more step of an operation. */
  lemma PassedStep(r: System, s: System, l: Label, trace: seq<Event>)
    requires Passed(r, s, trace) && Enabled(s.core, l) && IsOperationStep(l)
    requires l.CompleteStart? ==> OnCurrent(s.core) && s.core.workers[s.core.gate.activity.name].lifecycle == Starting
    ensures Passed(r, Next(s, l), trace + StepMilestones(s.core, l))
  {
    hide Passed, Apply, Milestones;
    if l.CallStart? || l.CallStop? || l.Answer? {
      CallMilestones(s.core, l);
    } else if l.CompleteStart? {
      CompleteStartMilestones(s.core);
    } else {
      SilentStepMilestones(s.core, l);
    }
    PassedEvents(r, s, Next(s, l), trace, Apply(s.core, l).events);
  }

  // ---------------------------------------------------------------------------
  // No worker enters service.

  /** Since s no worker has entered service. */
  ghost predicate NoneRevived(s: System, t: System) {
    s.log <= t.log && forall e :: e in t.log[|s.log|..] ==> !BeginsToRun(e)
  }

  lemma PassedRevivesNone(s: System, t: System, trace: seq<Event>)
    requires Passed(s, t, trace) && forall e :: e in trace ==> !BeginsToRun(e)
    ensures NoneRevived(s, t)
  {
    var events := t.log[|s.log|..];
    forall e | e in events
      ensures !BeginsToRun(e)
    {
      AllMilestones(events, e);
    }
  }

  lemma RelyRevivesNone(s: System, t: System)
    requires Rely(s, t)
    ensures NoneRevived(s, t)
  {
  }

  lemma RevivedTransitive(a: System, b: System, c: System)
    requires NoneRevived(a, b) && NoneRevived(b, c)
    ensures NoneRevived(a, c)
  {
    assert c.log[|a.log|..] == b.log[|a.log|..] + c.log[|b.log|..];
  }
}
