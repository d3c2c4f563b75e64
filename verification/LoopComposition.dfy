/** A runtime one of whose workers is a LoopWorker: the runtime's calls of Start and Stop are
    the loop's, and the loop's failure reports are the runtime's. */
module LoopComposition {
  import opened Basics
  import opened Lifecycle
  import opened RuntimeSteps
  import opened RuntimeTheorems
  import opened WorkerSight
  import Loops = LoopSteps
  import opened LoopInvariant
  import opened LoopResults

  datatype Joint = Joint(system: System, loop: Loops.Loop, name: Name)

  datatype JointStep =
    | OnRuntime(of: Label)
    | OnLoop(step: Loops.Step)
    | StartBoth
    | StopBoth
    | AnswerBoth(panic: int)
    | ReportBoth(epoch: nat, err: Error)

  function NewJoint(config: RuntimeConfig, name: Name, autoReady: bool, crashOnPanic: bool): Joint {
    Joint(NewSystem(config), Loops.NewLoop(autoReady, crashOnPanic), name)
  }

  /** What the runtime sees of a call's return; panic names the value of a panic. */
  function OutcomeOf(r: Loops.Return, panic: int): CallOutcome {
    match r
    case Nil => Returned(None)
    case Err(err) => Returned(Some(err))
    case Panic => Panicked(panic)
  }

  /** The steps that belong to both: the calls of the worker, their returns, and the reports of
      its loops. */
  predicate JointEnabled(j: Joint, s: JointStep) {
    var c, w := j.system.core, j.loop;
    match s
    case OnRuntime(l) => Enabled(c, l) && (l.CallStart? || l.CallStop? || l.Answer? ==> !OnIt(c, j.name))
    case OnLoop(l) => Loops.CanStep(w, l) && !l.CallLoopStart? && !l.CallLoopStop? && !l.TakeResult? && !l.Report?
    case StartBoth => Enabled(c, CallStart) && OnIt(c, j.name) && w.caller.NoCall?
    case StopBoth => Enabled(c, CallStop) && OnIt(c, j.name) && w.caller.NoCall?
    case AnswerBoth(panic) =>
      w.caller.Returned? && Enabled(c, Answer(OutcomeOf(w.caller.result, panic))) && OnIt(c, j.name)
    case ReportBoth(e, err) => Loops.CanStep(w, Loops.Report(e)) && Enabled(c, ReportFailure(w.lives[e].handle, err))
  }

  function JointNext(j: Joint, s: JointStep): Joint
    requires JointEnabled(j, s)
  {
    match s
    case OnRuntime(l) => j.(system := Next(j.system, l))
    case OnLoop(l) => j.(loop := Loops.Then(j.loop, l))
    case StartBoth =>
      j.(system := Next(j.system, CallStart),
         loop := Loops.Then(j.loop, Loops.CallLoopStart(Handle(j.name, j.system.core.gate.activity.generation))))
    case StopBoth => j.(system := Next(j.system, CallStop), loop := Loops.Then(j.loop, Loops.CallLoopStop))
    case AnswerBoth(panic) =>
      j.(system := Next(j.system, Answer(OutcomeOf(j.loop.caller.result, panic))),
          loop := Loops.Then(j.loop, Loops.TakeResult))
    case ReportBoth(e, err) =>
      j.(system := Next(j.system, ReportFailure(j.loop.lives[e].handle, err)),
          loop := Loops.Then(j.loop, Loops.Report(e)))
  }

  predicate IsJointRun(j: Joint, run: seq<JointStep>)
    decreases |run|
  {
    run == [] || (JointEnabled(j, run[0]) && IsJointRun(JointNext(j, run[0]), run[1..]))
  }

  function AfterJointRun(j: Joint, run: seq<JointStep>): Joint
    requires IsJointRun(j, run)
    decreases |run|
  {
    if run == [] then j else AfterJointRun(JointNext(j, run[0]), run[1..])
  }

  // ---------------------------------------------------------------------------
  // The invariant: what the worker's record says about the loop.

  predicate CallInStart(c: Loops.Caller) {
    match c
    case NoCall => false
    case InOnStart(_) | Spawning(_) | Readying(_) | Marking(_) => true
    case Cancelling(_, inStart) => inStart
    case Waiting(_, inStart) => inStart
    case Cleaning(inStart) => inStart
    case InHook(_, inStart) => inStart
    case Publishing(_, _, inStart) => inStart
    case Joining(_, inStart) => inStart
    case Returned(_, inStart) => inStart
  }

  /** The loop launched last serves this handle, and no stop was requested. */
  predicate Serves(w: Loops.Loop, h: Handle) {
    w.round.Some? && w.round.value < |w.lives| && w.lives[w.round.value].handle == h
        && !w.lives[w.round.value].requested
  }

  predicate HasReported(w: Loops.Loop) {
    w.round.Some? && w.round.value < |w.lives| && w.lives[w.round.value].reported
  }

  /** The call of the runtime came back with nil. */
  predicate AnsweredNil(call: Call) { call == Answered(Returned(None)) }

  /** The Start in progress has launched its loop and has not failed. */
  predicate Launched(w: Loops.Loop, call: Call) {
    w.caller.Spawning? || w.caller.Readying? || w.caller == Loops.Returned(Loops.Nil, true) || AnsweredNil(call)
  }

  /** The loop is called exactly while the runtime's call is in progress, for the same end. */
  predicate CallsFit(s: Sight, w: Loops.Loop) {
    && (s.call.InProgress? <==> !w.caller.NoCall?)
    && (s.call.InProgress? ==> s.lifecycle == if CallInStart(w.caller) then Starting else Stopping)
    && (!s.call.NotCalled? ==> s.lifecycle == Starting || s.lifecycle == Stopping)
  }

  ghost predicate LoopFits(s: Sight, name: Name, w: Loops.Loop) {
    && CallsFit(s, w)
    && (s.lifecycle == Stopped ==> Quiescent(w))
    && (s.lifecycle == Stopping && AnsweredNil(s.call) ==> Quiescent(w))
    && (s.lifecycle == Running || s.lifecycle == Draining ==> Serves(w, Handle(name, s.generation)) && !HasReported(w))
    && (s.lifecycle == Starting && Launched(w, s.call) ==>
          Serves(w, Handle(name, s.generation)) && (HasReported(w) ==> s.reported))
    && (w.caller.InOnStart? ==> w.caller.runtime == Handle(name, s.generation))
  }

  /** Every handle a loop was launched with is known to the runtime. */
  predicate HandlesFit(c: Core, w: Loops.Loop) {
    && (forall e :: 0 <= e < |w.lives| ==> w.lives[e].handle in c.handles)
    && (w.caller.InOnStart? ==> w.caller.runtime in c.handles)
  }

  ghost predicate JointOk(j: Joint) {
    && Reachable(j.system) && LoopReachable(j.loop)
    && LoopFits(SightOf(j.system.core, j.name), j.name, j.loop)
    && HandlesFit(j.system.core, j.loop)
  }

  lemma NewJointOk(config: RuntimeConfig, name: Name, autoReady: bool, crashOnPanic: bool)
    ensures JointOk(NewJoint(config, name, autoReady, crashOnPanic))
  {
    hide Reachable, LoopReachable;
    NewSystemReachable(config);
    NewLoopReachable(autoReady, crashOnPanic);
  }

  // ---------------------------------------------------------------------------
  // Steps of the runtime.

  lemma FreeMoveFits(a: Sight, b: Sight, name: Name, w: Loops.Loop)
    requires LoopFits(a, name, w) && FreelyMoved(a, b)
    ensures LoopFits(b, name, w)
  {
    hide Quiescent;
  }

  lemma BegunFits(a: Sight, b: Sight, name: Name, w: Loops.Loop)
    requires LoopFits(a, name, w) && a.call.NotCalled? && b.call.NotCalled?
    requires b.lifecycle == Starting || b.lifecycle == Stopping
             || (b.lifecycle == Draining && a.lifecycle in {Running, Draining} && b.generation == a.generation)
    ensures LoopFits(b, name, w)
  {
    hide Quiescent;
  }

  predicate EndsCall(l: Label) { l.CompleteStart? || l.CompleteStop? || l.FailOperation? || l.FailCleanup? }

  lemma EndedFits(a: Sight, b: Sight, name: Name, w: Loops.Loop, l: Label)
    requires LoopFits(a, name, w) && EndsCall(l) && a.call.Answered?
    requires b.generation == a.generation && b.call == NotCalled
    requires l.CompleteStart? ==>
               a.lifecycle == Starting && AnsweredNil(a.call) && b.lifecycle == if a.reported then Failed else Running
    requires l.CompleteStop? ==> a.lifecycle == Stopping && AnsweredNil(a.call) && b.lifecycle == Stopped
    requires l.FailOperation? || l.FailCleanup? ==> b.lifecycle == Failed
    ensures LoopFits(b, name, w)
  {
    hide Quiescent;
  }

  /** The runtime ends an operation only as its call came back. */
  lemma EndsAsAnswered(c: Core, l: Label, name: Name)
    requires Enabled(c, l) && EndsCall(l) && OnIt(c, name) && name in c.workers
    ensures SightOf(c, name).call.Answered?
    ensures l.CompleteStart? || l.CompleteStop? ==> AnsweredNil(SightOf(c, name).call)
  {
  }

  lemma RestIsNotCalled(c: Core, name: Name)
    requires !OnIt(c, name)
    ensures SightOf(c, name).call == NotCalled
  {
  }

  lemma RuntimeStepFits(j: Joint, l: Label)
    requires JointOk(j) && JointEnabled(j, OnRuntime(l))
    ensures LoopFits(SightOf(Next(j.system, l).core, j.name), j.name, j.loop)
  {
    hide Reachable, LoopReachable, LoopFits, Apply, Enabled, SightOf, HandlesFit;
    var s, name := j.system, j.name;
    var a, b := SightOf(s.core, name), SightOf(Next(s, l).core, name);
    SightOfActivity(s, name);
    if IsFreeStep(l) {
      FreeStepSight(s, l, name);
      FreeMoveFits(a, b, name, j.loop);
    } else if IsMidStep(l) && OnIt(s.core, name) {
      MidStepSight(s, l, name);
      if EndsCall(l) {
        EndsAsAnswered(s.core, l, name);
        EndedFits(a, b, name, j.loop, l);
      }
    } else if (l.BeginStart? || l.BeginStop? || l.BeginDrain?) && l.name == name {
      assert !OnIt(s.core, name) by { BeginsAtRest(s.core, l); }
      RestIsNotCalled(s.core, name);
      BeginStepSight(s, l);
      if b != a {
        BegunFits(a, b, name, j.loop);
      }
    } else {
      OtherStepSight(s, l, name);
    }
  }

  lemma BeginsAtRest(c: Core, l: Label)
    requires Enabled(c, l) && (l.BeginStart? || l.BeginStop? || l.BeginDrain?)
    ensures !Busy(c)
  {
  }

  // ---------------------------------------------------------------------------
  // Steps of the loop.

  /** Steps of the loop that touch neither the caller nor what its last loop is known for. */
  lemma RoutineStepFits(s: Sight, name: Name, w: Loops.Loop, l: Loops.Step)
    requires LoopReachable(w) && LoopFits(s, name, w)
    requires Loops.CanStep(w, l) && !Loops.IsCallerStep(l) && !l.Report?
    ensures LoopFits(s, name, Loops.Then(w, l))
  {
    hide LoopReachable, Quiescent, Loops.PublishAttempt, Loops.StartAttempt;
    if Quiescent(w) {
      QuiescenceLasts(w, l);
    }
  }

  /** Steps of the caller inside Start or Stop. */
  lemma CallerStepFits(s: Sight, name: Name, w: Loops.Loop, l: Loops.Step)
    requires LoopReachable(w) && LoopFits(s, name, w)
    requires Loops.CanStep(w, l) && Loops.IsCallerStep(l) && !l.CallLoopStart? && !l.CallLoopStop? && !l.TakeResult?
    ensures LoopFits(s, name, Loops.Then(w, l))
  {
    hide LoopReachable, Quiescent, Loops.PublishAttempt, Loops.StartAttempt;
    EpochIsRound(w);
  }

  lemma EpochIsRound(w: Loops.Loop)
    requires LoopReachable(w)
    ensures w.caller.Readying? || w.caller.Spawning? ==> w.round == Some(w.caller.epoch) && w.caller.epoch < |w.lives|
  {
    hide LoopReachable;
    LoopReachableOk(w);
  }

  lemma LoopStepFits(s: Sight, name: Name, w: Loops.Loop, l: Loops.Step)
    requires LoopReachable(w) && LoopFits(s, name, w)
    requires Loops.CanStep(w, l) && !l.CallLoopStart? && !l.CallLoopStop? && !l.TakeResult? && !l.Report?
    ensures LoopFits(s, name, Loops.Then(w, l))
  {
    hide LoopReachable, LoopFits, Loops.Then;
    if Loops.IsCallerStep(l) {
      CallerStepFits(s, name, w, l);
    } else {
      RoutineStepFits(s, name, w, l);
    }
  }

  lemma StartBothFits(a: Sight, b: Sight, name: Name, w: Loops.Loop)
    requires LoopFits(a, name, w) && w.caller.NoCall? && a.lifecycle == Starting && b == a.(call := InProgress)
    ensures LoopFits(b, name, Loops.Then(w, Loops.CallLoopStart(Handle(name, a.generation))))
  {
    hide Quiescent;
  }

  lemma StopBothFits(a: Sight, b: Sight, name: Name, w: Loops.Loop)
    requires LoopFits(a, name, w) && w.caller.NoCall? && a.lifecycle == Stopping && b == a.(call := InProgress)
    ensures LoopFits(b, name, Loops.Then(w, Loops.CallLoopStop))
  {
    hide Quiescent;
  }

  lemma AnswerBothFits(a: Sight, b: Sight, name: Name, w: Loops.Loop, panic: int)
    requires LoopReachable(w) && LoopFits(a, name, w) && w.caller.Returned?
    requires b == a.(call := Answered(OutcomeOf(w.caller.result, panic)))
    ensures LoopFits(b, name, Loops.Then(w, Loops.TakeResult))
  {
    hide LoopReachable, Quiescent;
    if w.caller == Loops.Returned(Loops.Nil, false) {
      StopNilMeansQuiescent(w);
      QuiescenceLasts(w, Loops.TakeResult);
    }
  }

  /** A report of the last loop reaches the record of its generation; one of an earlier loop
      cannot happen any more. */
  lemma ReportBothFits(a: Sight, b: Sight, name: Name, w: Loops.Loop, e: nat)
    requires LoopReachable(w) && LoopFits(a, name, w) && Loops.CanStep(w, Loops.Report(e))
    requires FreelyMoved(a, b)
    requires w.lives[e].handle == Handle(name, a.generation) ==>
             && (a.lifecycle == Running || a.lifecycle == Draining ==> b.lifecycle == Failed)
               && (a.lifecycle == Starting ==> b.reported)
    ensures LoopFits(b, name, Loops.Then(w, Loops.Report(e)))
  {
    hide LoopReachable, Quiescent;
    ReportingIsRound(w, e);
    if Quiescent(w) {
      QuiescenceLasts(w, Loops.Report(e));
    }
  }

  lemma ReportingIsRound(w: Loops.Loop, e: nat)
    requires LoopReachable(w) && Loops.CanStep(w, Loops.Report(e))
    ensures w.round == Some(e)
  {
    hide LoopReachable;
    LoopReachableOk(w);
  }

  // ---------------------------------------------------------------------------
  // Every joint step and run keeps the invariant.

  /** The loops keep the handles they were launched with. */
  ghost predicate SameHandles(w: Loops.Loop, w': Loops.Loop) {
    && |w'.lives| == |w.lives|
    && forall e :: 0 <= e < |w.lives| ==> w'.lives[e].handle == w.lives[e].handle
  }

  lemma RoutineKeepsHandles(w: Loops.Loop, l: Loops.Step)
    requires Loops.CanStep(w, l) && !Loops.IsCallerStep(l)
    ensures SameHandles(w, Loops.Then(w, l)) && Loops.Then(w, l).caller == w.caller
  {
    hide Loops.PublishAttempt, Loops.StartAttempt;
  }

  lemma CallerKeepsHandles(c: Core, w: Loops.Loop, l: Loops.Step)
    requires HandlesFit(c, w) && Loops.CanStep(w, l) && Loops.IsCallerStep(l)
    requires l.CallLoopStart? ==> l.runtime in c.handles
    ensures HandlesFit(c, Loops.Then(w, l))
  {
    hide Loops.PublishAttempt, Loops.StartAttempt;
  }

  lemma HandlesStayFit(c: Core, c': Core, w: Loops.Loop, l: Loops.Step)
    requires HandlesFit(c, w) && c.handles <= c'.handles && Loops.CanStep(w, l)
    requires l.CallLoopStart? ==> l.runtime in c'.handles
    ensures HandlesFit(c', Loops.Then(w, l))
  {
    hide Loops.Then, Loops.CanStep;
    if Loops.IsCallerStep(l) {
      CallerKeepsHandles(c', w, l);
    } else {
      RoutineKeepsHandles(w, l);
    }
  }

  lemma JointStepKeepsOk(j: Joint, s: JointStep)
    requires JointOk(j) && JointEnabled(j, s)
    ensures JointOk(JointNext(j, s))
  {
    hide Reachable, LoopReachable, LoopFits, HandlesFit, Apply, Enabled, SightOf, Loops.CanStep, Loops.Then;
    var c, name, w := j.system.core, j.name, j.loop;
    match s
    case OnRuntime(l) =>
      StepStaysReachable(j.system, l);
      RuntimeStepFits(j, l);
      HandlesStayKnown(c, l);
      MoreHandlesFit(c, Next(j.system, l).core, w);
    case OnLoop(l) =>
      LoopStepStaysReachable(w, l);
      LoopStepFits(SightOf(c, name), name, w, l);
      HandlesStayFit(c, c, w, l);
    case StartBoth => StartBothKeepsOk(j);
    case StopBoth => StopBothKeepsOk(j);
    case AnswerBoth(panic) => AnswerBothKeepsOk(j, panic);
    case ReportBoth(e, err) => ReportBothKeepsOk(j, e, err);
  }

  lemma MoreHandlesFit(c: Core, c': Core, w: Loops.Loop)
    requires HandlesFit(c, w) && c.handles <= c'.handles
    ensures HandlesFit(c', w)
  {
  }

  lemma CallStartHandle(c: Core)
    requires Enabled(c, CallStart)
    ensures Handle(c.gate.activity.name, c.gate.activity.generation) in Apply(c, CallStart).core.handles
    ensures c.gate.activity.StartingWorker?
  {
  }

  lemma CallStopActivity(c: Core)
    requires Enabled(c, CallStop)
    ensures c.gate.activity.StoppingWorker?
  {
  }

  lemma StartBothKeepsOk(j: Joint)
    requires JointOk(j) && JointEnabled(j, StartBoth)
    ensures JointOk(JointNext(j, StartBoth))
  {
    hide Reachable, LoopReachable, LoopFits, HandlesFit, Apply, Enabled, SightOf, Loops.Then;
    var c, name, w := j.system.core, j.name, j.loop;
    var h := Handle(name, c.gate.activity.generation);
    SightOfActivity(j.system, name);
    CallStartHandle(c);
    StepStaysReachable(j.system, CallStart);
    MidStepSight(j.system, CallStart, name);
    HandlesStayKnown(c, CallStart);
    LoopStepStaysReachable(w, Loops.CallLoopStart(h));
    StartBothFits(SightOf(c, name), SightOf(Next(j.system, CallStart).core, name), name, w);
    HandlesStayFit(c, Next(j.system, CallStart).core, w, Loops.CallLoopStart(h));
  }

  lemma StopBothKeepsOk(j: Joint)
    requires JointOk(j) && JointEnabled(j, StopBoth)
    ensures JointOk(JointNext(j, StopBoth))
  {
    hide Reachable, LoopReachable, LoopFits, HandlesFit, Apply, Enabled, SightOf, Loops.Then;
    var c, name, w := j.system.core, j.name, j.loop;
    SightOfActivity(j.system, name);
    CallStopActivity(c);
    StepStaysReachable(j.system, CallStop);
    MidStepSight(j.system, CallStop, name);
    HandlesStayKnown(c, CallStop);
    LoopStepStaysReachable(w, Loops.CallLoopStop);
    StopBothFits(SightOf(c, name), SightOf(Next(j.system, CallStop).core, name), name, w);
    HandlesStayFit(c, Next(j.system, CallStop).core, w, Loops.CallLoopStop);
  }

  lemma AnswerBothKeepsOk(j: Joint, panic: int)
    requires JointOk(j) && JointEnabled(j, AnswerBoth(panic))
    ensures JointOk(JointNext(j, AnswerBoth(panic)))
  {
    hide Reachable, LoopReachable, LoopFits, HandlesFit, Apply, Enabled, SightOf, Loops.Then;
    var c, name, w := j.system.core, j.name, j.loop;
    var l := Answer(OutcomeOf(w.caller.result, panic));
    StepStaysReachable(j.system, l);
    MidStepSight(j.system, l, name);
    HandlesStayKnown(c, l);
    LoopStepStaysReachable(w, Loops.TakeResult);
    AnswerBothFits(SightOf(c, name), SightOf(Next(j.system, l).core, name), name, w, panic);
    HandlesStayFit(c, Next(j.system, l).core, w, Loops.TakeResult);
  }

  lemma ReportBothKeepsOk(j: Joint, e: nat, err: Error)
    requires JointOk(j) && JointEnabled(j, ReportBoth(e, err))
    ensures JointOk(JointNext(j, ReportBoth(e, err)))
  {
    hide Reachable, LoopReachable, LoopFits, HandlesFit, Apply, Enabled, SightOf, Loops.Then;
    var c, name, w := j.system.core, j.name, j.loop;
    var l := ReportFailure(w.lives[e].handle, err);
    var a, b := SightOf(c, name), SightOf(Next(j.system, l).core, name);
    StepStaysReachable(j.system, l);
    FreeStepSight(j.system, l, name);
    if w.lives[e].handle == Handle(name, a.generation) {
      ReportSight(j.system, name, err);
    }
    HandlesStayKnown(c, l);
    LoopStepStaysReachable(w, Loops.Report(e));
    ReportBothFits(a, b, name, w, e);
    HandlesStayFit(c, Next(j.system, l).core, w, Loops.Report(e));
  }

  lemma {:induction false} JointRunKeepsOk(j: Joint, run: seq<JointStep>)
    requires JointOk(j) && IsJointRun(j, run)
    ensures JointOk(AfterJointRun(j, run))
    decreases |run|
  {
    hide JointOk, JointNext, JointEnabled;
    if run != [] {
      JointStepKeepsOk(j, run[0]);
      JointRunKeepsOk(JointNext(j, run[0]), run[1..]);
    }
  }

  // ---------------------------------------------------------------------------
  // What the runtime's record of the worker means for its loop.

  /** j is the state after some run of some runtime with a LoopWorker. */
  ghost predicate JointReachable(j: Joint) {
    exists config, autoReady, crash, run ::
      IsJointRun(NewJoint(config, j.name, autoReady, crash),
            run) && j == AfterJointRun(NewJoint(config, j.name, autoReady, crash), run)
  }

  lemma JointReachableOk(j: Joint)
    requires JointReachable(j)
    ensures JointOk(j)
  {
    hide JointOk, NewJoint;
    var config, autoReady, crash, run :|
      IsJointRun(NewJoint(config, j.name, autoReady, crash),
            run) && j == AfterJointRun(NewJoint(config, j.name, autoReady, crash), run);
    NewJointOk(config, j.name, autoReady, crash);
    JointRunKeepsOk(NewJoint(config, j.name, autoReady, crash), run);
  }

  /** A worker recorded as stopped is quiescent: every loop it ever launched has returned from
      its body, its exit reported unless it was requested, and cleaned up exactly once. */
  lemma StoppedMeansQuiescent(j: Joint)
    requires JointReachable(j) && j.name in j.system.core.workers
    requires j.system.core.workers[j.name].lifecycle == Stopped
    ensures Quiescent(j.loop) && j.loop.caller.NoCall?
  {
    hide JointReachable, Reachable, LoopReachable, Quiescent, HandlesFit;
    JointReachableOk(j);
    SightOfActivity(j.system, j.name);
  }

  /** A worker recorded as running or draining has its loop: launched for the current
      generation, not asked to stop, and still in its body or about to report its exit. */
  lemma RunningMeansAlive(j: Joint)
    requires JointReachable(j) && j.name in j.system.core.workers
    requires j.system.core.workers[j.name].lifecycle in {Running, Draining}
    ensures var w := j.loop;
            && w.round.Some? && w.round.value < |w.lives|
            && (w.lives[w.round.value].at.Body? || w.lives[w.round.value].at.Judging?
                || w.lives[w.round.value].at.Reporting?)
            && w.lives[w.round.value].handle == Handle(j.name, j.system.core.workers[j.name].generation)
  {
    hide JointReachable, Reachable, LoopReachable, Quiescent, HandlesFit;
    JointReachableOk(j);
    SightOfActivity(j.system, j.name);
    UnreportedIsAlive(j.loop, Handle(j.name, j.system.core.workers[j.name].generation));
  }

  lemma UnreportedIsAlive(w: Loops.Loop, h: Handle)
    requires LoopReachable(w) && w.caller.NoCall? && Serves(w, h) && !HasReported(w)
    ensures var r := w.lives[w.round.value].at; r.Body? || r.Judging? || r.Reporting?
  {
    hide LoopReachable;
    LoopReachableOk(w);
    assert LifeOk(w.lives[w.round.value]);
  }

  /** A loop that has to report its exit always can, and a call that came back is always
      answered. */
  lemma ReportsAreNeverStuck(j: Joint, e: nat, err: Error, panic: int)
    requires JointReachable(j)
    ensures Loops.CanStep(j.loop, Loops.Report(e)) ==> JointEnabled(j, ReportBoth(e, err))
    ensures j.loop.caller.Returned? ==> JointEnabled(j, AnswerBoth(panic))
  {
    hide JointReachable, Reachable, LoopReachable, Quiescent;
    JointReachableOk(j);
    SightOfActivity(j.system, j.name);
  }
}
