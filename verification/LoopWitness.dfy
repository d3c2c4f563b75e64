/** A run of a runtime with a LoopWorker in which the worker is recorded as running, and later
    as stopped. */
module LoopWitness {
  import opened Basics
  import opened Lifecycle
  import opened RuntimeSteps
  import opened LifecycleOperations
  import opened WorkerSight
  import opened LoopComposition

  lemma {:induction false} JointRunExtends(j: Joint, run: seq<JointStep>, s: JointStep)
    requires IsJointRun(j, run) && JointEnabled(AfterJointRun(j, run), s)
    ensures IsJointRun(j, run + [s]) && AfterJointRun(j, run + [s]) == JointNext(AfterJointRun(j, run), s)
    decreases |run|
  {
    hide JointEnabled, JointNext;
    if run == [] {
      assert run + [s] == [s];
      assert IsJointRun(JointNext(j, s), [s][1..]);
    } else {
      JointRunExtends(JointNext(j, run[0]), run[1..], s);
      assert (run + [s])[0] == run[0] && (run + [s])[1..] == run[1..] + [s];
    }
  }

  lemma NameStays(j: Joint, s: JointStep)
    requires JointEnabled(j, s)
    ensures JointNext(j, s).name == j.name
  {
  }

  /** One more joint step. */
  lemma Taken(j: Joint, s: JointStep) returns (j': Joint)
    requires JointReachable(j) && JointEnabled(j, s)
    ensures JointReachable(j') && j' == JointNext(j, s) && j'.name == j.name
  {
    hide JointEnabled, JointNext, NewJoint;
    NameStays(j, s);
    j' := JointNext(j, s);
    var config, autoReady, crash, run :|
      IsJointRun(NewJoint(config, j.name, autoReady, crash), run)
          && j == AfterJointRun(NewJoint(config, j.name, autoReady, crash), run);
    JointRunExtends(NewJoint(config, j.name, autoReady, crash), run, s);
    assert IsJointRun(NewJoint(config, j.name, autoReady, crash), run + [s]);
  }

  /** One more step of the loop alone. */
  lemma LoopTaken(j: Joint, l: Loops.Step) returns (j': Joint)
    requires JointReachable(j) && Loops.CanStep(j.loop, l)
    requires !l.CallLoopStart? && !l.CallLoopStop? && !l.TakeResult? && !l.Report?
    ensures JointReachable(j') && j' == j.(loop := Loops.Then(j.loop, l))
  {
    hide JointReachable, Loops.CanStep, Loops.Then;
    j' := Taken(j, OnLoop(l));
  }

  /** The worker is newly registered. */
  ghost predicate IsReady(c: Core, name: Name) {
    AtRest(c) && name in c.workers && name in c.configs && c.workers[name] == NewWorker
  }

  lemma Registers(config: RuntimeConfig, name: Name, crash: bool, cfg: WorkerConfig) returns (j: Joint)
    ensures JointReachable(j) && j.name == name && IsReady(j.system.core, name) && j.loop == Loops.NewLoop(false, crash)
  {
    hide JointReachable, Recompute;
    j := NewJoint(config, name, false, crash);
    assert JointReachable(j) by { NewIsReachable(config, name, crash); }
    j := Taken(j, OnRuntime(AcquireGate));
    j := Taken(j, OnRuntime(Register(name, cfg)));
  }

  lemma NewIsReachable(config: RuntimeConfig, name: Name, crash: bool)
    ensures JointReachable(NewJoint(config, name, false, crash))
  {
    assert IsJointRun(NewJoint(config, name, false, crash), []);
  }

  /** The runtime is in the middle of starting the worker, unreported, in generation one. */
  ghost predicate StartsWorker(c: Core, name: Name, call: Call) {
    MidStart(c, name, 1) && c.gate.call == call && SightOf(c, name) == Sight(Starting, 1, false, call)
  }

  lemma StartBegins(j: Joint) returns (j': Joint)
    requires JointReachable(j) && IsReady(j.system.core, j.name)
    ensures JointReachable(j') && j'.name == j.name && StartsWorker(j'.system.core, j.name, NotCalled)
            && j'.loop == j.loop
  {
    hide JointReachable, Observed;
    BeginStartBegins(j.system.core, j.name);
    j' := Taken(j, OnRuntime(BeginStart(j.name)));
  }

  lemma StartIsCalled(j: Joint, crash: bool) returns (j': Joint)
    requires JointReachable(j) && StartsWorker(j.system.core, j.name, NotCalled)
             && j.loop == Loops.NewLoop(false, crash)
    ensures JointReachable(j') && j'.name == j.name && StartsWorker(j'.system.core, j.name, InProgress)
    ensures j'.loop == Loops.Then(Loops.NewLoop(false, crash), Loops.CallLoopStart(Handle(j.name, 1)))
  {
    hide JointReachable, Observed;
    StartTurns(j.system.core, j.name, 1);
    MidStepsStay(j.system.core, CallStart, j.name, 1);
    j' := Taken(j, StartBoth);
  }

  /** The loop is in its body. */
  ghost predicate InBody(w: Loops.Loop, h: Handle) {
    && w.round == Some(0)
    && w.fields == Loops.FinishStart(Loops.BeginStart(Loops.NewFields), h, 0)
    && w.lives == [Loops.Life(h, Loops.Body, false, false, None, None, false, false)]
    && w.cleanups == [0] && w.attempts == []
  }

  lemma LoopComesUp(j: Joint, crash: bool, h: Handle) returns (j': Joint)
    requires JointReachable(j) && j.loop == Loops.Then(Loops.NewLoop(false, crash), Loops.CallLoopStart(h))
    ensures JointReachable(j') && j'.name == j.name && j'.system == j.system
    ensures InBody(j'.loop, h) && j'.loop.caller == Loops.Returned(Loops.Nil, true)
  {
    hide JointReachable;
    j' := LoopTaken(j, Loops.OnStart(Loops.Nil));
    j' := LoopTaken(j', Loops.Spawn);
  }

  lemma StartIsAnswered(j: Joint) returns (j': Joint)
    requires JointReachable(j) && StartsWorker(j.system.core, j.name, InProgress)
             && j.loop.caller == Loops.Returned(Loops.Nil, true)
    ensures JointReachable(j') && j'.name == j.name && StartsWorker(j'.system.core, j.name, Answered(Returned(None)))
    ensures j'.loop == j.loop.(caller := Loops.NoCall)
  {
    hide JointReachable;
    AnswerTurns(j.system.core, j.name, 1, Returned(None));
    MidStepsStay(j.system.core, Answer(Returned(None)), j.name, 1);
    j' := Taken(j, AnswerBoth(0));
  }

  /** The worker is recorded in this lifecycle, and the gate holder at rest. */
  ghost predicate Recorded(c: Core, name: Name, state: LifecycleState) {
    && AtRest(c) && name in c.workers && name in c.configs
    && c.workers[name].lifecycle == state && c.workers[name].generation == 1
  }

  lemma StartCompletes(j: Joint) returns (j': Joint)
    requires JointReachable(j) && StartsWorker(j.system.core, j.name, Answered(Returned(None)))
    ensures JointReachable(j') && j'.name == j.name && j'.loop == j.loop && Recorded(j'.system.core, j.name, Running)
  {
    hide JointReachable, Observed;
    StartTurns(j.system.core, j.name, 1);
    CompleteStartRests(j.system.core, j.name, 1);
    j' := Taken(j, OnRuntime(CompleteStart));
  }

  /** In some run the worker is recorded as running. */
  lemma RunningIsReached(config: RuntimeConfig, name: Name, cfg: WorkerConfig, crash: bool) returns (j: Joint)
    ensures JointReachable(j) && j.name == name && Recorded(j.system.core, name, Running)
    ensures InBody(j.loop, Handle(name, 1)) && j.loop.caller.NoCall?
  {
    hide JointReachable, IsReady, StartsWorker, Recorded, Loops.Then;
    j := Registers(config, name, crash, cfg);
    j := StartBegins(j);
    j := StartIsCalled(j, crash);
    j := LoopComesUp(j, crash, Handle(name, 1));
    j := StartIsAnswered(j);
    j := StartCompletes(j);
  }

  // ---------------------------------------------------------------------------
  // Stopping it again.

  /** The runtime is in the middle of stopping the worker. */
  ghost predicate StopsWorker(c: Core, name: Name, call: Call) {
    MidStop(c, name, 1) && c.gate.call == call
        && SightOf(c, name) == Sight(Stopping, 1, c.workers[name].failureReportedDuringStart, call)
  }

  lemma StopBegins(j: Joint) returns (j': Joint)
    requires JointReachable(j) && Recorded(j.system.core, j.name, Running)
    ensures JointReachable(j') && j'.name == j.name && StopsWorker(j'.system.core, j.name, NotCalled)
            && j'.loop == j.loop
  {
    hide JointReachable, Observed;
    BeginStopBegins(j.system.core, j.name);
    j' := Taken(j, OnRuntime(BeginStop(j.name)));
  }

  /** The loop was asked to stop, and its caller waits. */
  ghost predicate AskedToStop(w: Loops.Loop, h: Handle, at: Loops.Routine, exit: Option<Option<Error>>) {
    && w.caller == Loops.Waiting(0, false) && w.round == Some(0)
    && w.fields == Loops.BeginStop(Loops.FinishStart(Loops.BeginStart(Loops.NewFields), h, 0))
    && w.lives == [Loops.Life(h, at, true, true, exit, None, false, false)]
    && w.cleanups == [0] && w.attempts == []
  }

  lemma StopIsCalled(j: Joint, h: Handle) returns (j': Joint)
    requires JointReachable(j) && StopsWorker(j.system.core, j.name, NotCalled)
    requires InBody(j.loop, h) && j.loop.caller.NoCall?
    ensures JointReachable(j') && j'.name == j.name && StopsWorker(j'.system.core, j.name, InProgress)
    ensures j'.loop == Loops.Then(j.loop, Loops.CallLoopStop)
  {
    hide JointReachable;
    StopTurns(j.system.core, j.name, 1);
    MidStepsStay(j.system.core, CallStop, j.name, 1);
    j' := Taken(j, StopBoth);
  }

  lemma LoopIsCancelled(j: Joint, w: Loops.Loop, h: Handle) returns (j': Joint)
    requires JointReachable(j) && InBody(w, h) && w.caller.NoCall? && j.loop == Loops.Then(w, Loops.CallLoopStop)
    ensures JointReachable(j') && j'.name == j.name && j'.system == j.system
    ensures AskedToStop(j'.loop, h, Loops.Judging, Some(Some(ContextDone)))
  {
    hide JointReachable;
    j' := LoopTaken(j, Loops.Cancel);
    j' := LoopTaken(j', Loops.BodyReturns(0, Some(ContextDone)));
  }

  /** The loop is over, and its cleanup still to be done. */
  ghost predicate GivenUp(w: Loops.Loop, h: Handle) {
    && w.caller == Loops.Waiting(0, false) && w.round == Some(0)
    && w.fields == Loops.NewFields.(state := Loops.LoopStopped)
    && w.lives == [Loops.Life(h, Loops.Exited, true, true, Some(Some(ContextDone)), Some(true), false, true)]
    && w.cleanups == [0] && w.attempts == []
  }

  lemma LoopIsGivenUp(j: Joint, h: Handle) returns (j': Joint)
    requires JointReachable(j) && AskedToStop(j.loop, h, Loops.Judging, Some(Some(ContextDone)))
    ensures JointReachable(j') && j'.name == j.name && j'.system == j.system && GivenUp(j'.loop, h)
  {
    hide JointReachable;
    j' := LoopTaken(j, Loops.Judge(0));
    j' := LoopTaken(j', Loops.Finish(0));
    j' := LoopTaken(j', Loops.Close(0));
  }

  lemma LoopIsCleanedUp(j: Joint, h: Handle) returns (j': Joint)
    requires JointReachable(j) && GivenUp(j.loop, h)
    ensures JointReachable(j') && j'.name == j.name && j'.system == j.system
    ensures j'.loop.caller == Loops.Returned(Loops.Nil, false)
  {
    hide JointReachable;
    j' := LoopTaken(j, Loops.SeeDone);
    j' := LoopTaken(j', Loops.BeginHook);
    j' := LoopTaken(j', Loops.HookReturns(Loops.Nil));
    j' := LoopTaken(j', Loops.PublishHook);
  }

  lemma StopIsAnswered(j: Joint) returns (j': Joint)
    requires JointReachable(j) && StopsWorker(j.system.core, j.name, InProgress)
    requires j.loop.caller == Loops.Returned(Loops.Nil, false)
    ensures JointReachable(j') && j'.name == j.name && StopsWorker(j'.system.core, j.name, Answered(Returned(None)))
  {
    hide JointReachable;
    AnswerTurns(j.system.core, j.name, 1, Returned(None));
    MidStepsStay(j.system.core, Answer(Returned(None)), j.name, 1);
    j' := Taken(j, AnswerBoth(0));
  }

  lemma StopCompletes(j: Joint) returns (j': Joint)
    requires JointReachable(j) && StopsWorker(j.system.core, j.name, Answered(Returned(None)))
    ensures JointReachable(j') && j'.name == j.name && Recorded(j'.system.core, j.name, Stopped)
  {
    hide JointReachable, Observed;
    StopTurns(j.system.core, j.name, 1);
    CompleteStopRests(j.system.core, j.name, 1);
    j' := Taken(j, OnRuntime(CompleteStop));
  }

  /** In some run the worker is recorded as stopped after it ran. */
  lemma StoppedIsReached(config: RuntimeConfig, name: Name, cfg: WorkerConfig, crash: bool) returns (j: Joint)
    ensures JointReachable(j) && j.name == name && Recorded(j.system.core, name, Stopped)
  {
    hide JointReachable, StopsWorker, Recorded, Loops.Then, InBody, AskedToStop, GivenUp;
    var h := Handle(name, 1);
    j := RunningIsReached(config, name, cfg, crash);
    j := StopBegins(j);
    var w := j.loop;
    j := StopIsCalled(j, h);
    j := LoopIsCancelled(j, w, h);
    j := LoopIsGivenUp(j, h);
    j := LoopIsCleanedUp(j, h);
    j := StopIsAnswered(j);
    j := StopCompletes(j);
  }
}
