/** One worker's record as the code behind the worker can know it, and how each runtime step
    moves it. */
module WorkerSight {
  import opened Basics
  import opened Lifecycle
  import opened RuntimeSteps
  import opened RuntimeInvariant
  import opened RuntimeSafety
  import opened Interference
  import opened RuntimeTheorems
  import opened OperationSteps
  import opened LifecycleOperations

  /** Lifecycle, generation, whether a failure was reported during start, and how far the call
      into the worker has got. */
  datatype Sight = Sight(lifecycle: LifecycleState, generation: nat, reported: bool, call: Call)

  function SightOf(c: Core, name: Name): Sight {
    if name in c.workers
    then Sight(c.workers[name].lifecycle, c.workers[name].generation, c.workers[name].failureReportedDuringStart,
        CallOf(c, name))
    else Sight(Registered, 0, false, NotCalled)
  }

  /** The call of the operation on this worker, if there is one. */
  function CallOf(c: Core, name: Name): Call {
    if OnIt(c, name) then c.gate.call else NotCalled
  }

  /** The gate holder is in the middle of starting or stopping the worker. */
  predicate OnIt(c: Core, name: Name) { Busy(c) && c.gate.activity.name == name }

  predicate IsMidStep(l: Label) {
    l.CallStart? || l.CallStop? || l.Answer? || l.RecordFailure?
    || l.CompleteStart? || l.CompleteStop? || l.FailOperation? || l.FailCleanup?
  }

  /** The lifecycle tells whether the gate holder is on the worker, and at what. */
  lemma SightOfActivity(s: System, name: Name)
    requires Reachable(s)
    ensures OnIt(s.core, name) <==> SightOf(s.core, name).lifecycle in {Starting, Stopping}
    ensures OnIt(s.core, name) ==>
            && s.core.gate.activity.generation == SightOf(s.core, name).generation
              && (s.core.gate.activity.StartingWorker? <==> SightOf(s.core, name).lifecycle == Starting)
              && name in s.core.workers
  {
    hide Reachable, UngatedOk, LogOk, AccountOk;
    ReachableInv(s);
  }

  /** A free step at most fails a serving worker, or reports a failure during its start. */
  predicate FreelyMoved(a: Sight, b: Sight) {
    && b.generation == a.generation && b.call == a.call
    && (b.lifecycle == a.lifecycle || ((a.lifecycle == Running || a.lifecycle == Draining) && b.lifecycle == Failed))
    && (a.lifecycle == Starting && a.reported ==> b.reported)
  }

  lemma FreeStepSight(s: System, l: Label, name: Name)
    requires Enabled(s.core, l) && IsFreeStep(l)
    ensures FreelyMoved(SightOf(s.core, name), SightOf(Next(s, l).core, name))
  {
    hide Apply;
    FreeStepRelies(s, l);
  }

  /** A failure reported for the current generation fails a serving worker, or the start in
      progress. */
  lemma ReportSight(s: System, name: Name, err: Error)
    requires Enabled(s.core, ReportFailure(Handle(name, SightOf(s.core, name).generation), err))
    ensures var a, b := SightOf(s.core, name), SightOf(Next(s,
          ReportFailure(Handle(name, SightOf(s.core, name).generation), err)).core, name);
            && (a.lifecycle == Running || a.lifecycle == Draining ==> b.lifecycle == Failed)
            && (a.lifecycle == Starting ==> b.reported)
  {
    hide Observed;
  }

  lemma GrowsElsewhere(c: Core, c': Core, n: Name, name: Name)
    requires GrowsAtMost(c, c', n) && name != n
    requires CallOf(c', name) == CallOf(c, name)
    ensures SightOf(c', name) == SightOf(c, name)
  {
    hide CallOf;
  }

  /** Lifecycle steps on other workers do not get the gate holder onto this one. */
  lemma OtherStepCall(c: Core, l: Label, name: Name)
    requires Enabled(c, l) && !IsFreeStep(l)
    requires l.BeginStart? || l.BeginStop? || l.BeginDrain? ==> l.name != name
    requires IsMidStep(l) ==> !OnIt(c, name)
    ensures CallOf(Apply(c, l).core, name) == CallOf(c, name)
  {
    hide Observed, Commit, Recompute;
  }

  /** Lifecycle steps on other workers leave this one alone. */
  lemma OtherStepSight(s: System, l: Label, name: Name)
    requires Reachable(s) && Enabled(s.core, l) && !IsFreeStep(l)
    requires l.BeginStart? || l.BeginStop? || l.BeginDrain? ==> l.name != name
    requires IsMidStep(l) ==> !OnIt(s.core, name)
    ensures SightOf(Next(s, l).core, name) == SightOf(s.core, name)
  {
    hide Reachable, LogOk, AccountOk, CoreOk, SightOf, GrowsAtMost, Apply, CallOf;
    ReachableInv(s);
    var c, c' := s.core, Apply(s.core, l).core;
    OtherStepCall(c, l, name);
    if l.Register? {
      RegisterSight(c, l.name, l.config, name);
    } else if IsOperationStep(l) {
      OperationGrows(c, l);
      OperatesElsewhere(c, l, name);
      GrowsElsewhere(c, c', OperatesOn(c, l), name);
    } else {
      GateStepWorkers(c, l);
      SameSight(c, c', name);
    }
  }

  lemma SameSight(c: Core, c': Core, name: Name)
    requires c'.workers == c.workers && CallOf(c', name) == CallOf(c, name)
    ensures SightOf(c', name) == SightOf(c, name)
  {
  }

  lemma OperatesElsewhere(c: Core, l: Label, name: Name)
    requires Enabled(c, l) && IsOperationStep(l)
    requires l.BeginStart? || l.BeginStop? || l.BeginDrain? ==> l.name != name
    requires IsMidStep(l) ==> !OnIt(c, name)
    ensures OperatesOn(c, l) != name
  {
  }

  lemma RegisterSight(c: Core, n: Name, config: WorkerConfig, name: Name)
    requires CoreOk(c) && AtRest(c)
    ensures SightOf(Apply(c, Register(n, config)).core, name) == SightOf(c, name)
  {
    hide Recompute, UngatedOk, GateOk;
    KeysMatch(c);
  }

  lemma BeginStepSight(s: System, l: Label)
    requires Reachable(s) && Enabled(s.core, l) && (l.BeginStart? || l.BeginStop? || l.BeginDrain?)
    ensures var a, b := SightOf(s.core, l.name), SightOf(Next(s, l).core, l.name);
            || b == a
            || (b.call.NotCalled? && l.BeginStart? && b.lifecycle == Starting)
            || (b.call.NotCalled? && l.BeginStop? && b.lifecycle == Stopping)
            || (b.call.NotCalled? && l.BeginDrain? && b.lifecycle == Draining && a.lifecycle in {Running, Draining}
                && b.generation == a.generation)
  {
    hide Reachable, Apply, MidStart, MidStop;
    var c, name := s.core, l.name;
    ReachableNames(s);
    if name in c.workers {
      match l
      case BeginStart(_) => BeginStartBegins(c, name); MidSight(Apply(c, l).core, name, c.workers[name].generation + 1);
      case BeginStop(_) => BeginStopBegins(c, name); MidSight(Apply(c, l).core, name, c.workers[name].generation);
      case BeginDrain(_) => BeginDrainDrains(c, name);
    } else {
      UnknownBegins(c, l);
    }
  }

  lemma MidSight(c: Core, name: Name, generation: nat)
    ensures MidStart(c, name, generation)
            ==> SightOf(c, name).lifecycle == Starting && SightOf(c, name).call == c.gate.call
    ensures MidStop(c, name, generation)
            ==> SightOf(c, name).lifecycle == Stopping && SightOf(c, name).call == c.gate.call
  {
  }

  lemma UnknownBegins(c: Core, l: Label)
    requires Enabled(c, l) && (l.BeginStart? || l.BeginStop? || l.BeginDrain?) && l.name !in c.workers
    ensures Apply(c, l).core == c
  {
  }

  /** What the steps in the middle of its own start or stop do to the worker. */
  lemma MidStepSight(s: System, l: Label, name: Name)
    requires Reachable(s) && Enabled(s.core, l) && IsMidStep(l) && OnIt(s.core, name)
    ensures var a, b := SightOf(s.core, name), SightOf(Next(s, l).core, name);
            && b.generation == a.generation
            && match l
               case CompleteStart =>
                 a.lifecycle == Starting && b.lifecycle == (if a.reported then Failed else Running)
                     && b.call == NotCalled
               case CompleteStop => a.lifecycle == Stopping && b.lifecycle == Stopped && b.call == NotCalled
               case FailOperation(_, _) => b.lifecycle == Failed && b.call == NotCalled
               case FailCleanup(_) => b.lifecycle == Failed && b.call == NotCalled
               case CallStart => b == a.(call := InProgress)
               case CallStop => b == a.(call := InProgress)
               case Answer(outcome) => b == a.(call := Answered(outcome))
               case _ => b == a
  {
    hide Reachable, LogOk, AccountOk, CoreOk, Apply, SightOf;
    ReachableInv(s);
    SightOfActivity(s, name);
    var c, a := s.core, s.core.gate.activity;
    BusyRecord(c);
    BusyMid(c, name);
    SightRecord(c, name);
    if l.CompleteStart? {
      CompleteStartRests(c, name, a.generation);
    } else if l.CompleteStop? {
      CompleteStopRests(c, name, a.generation);
    } else if l.FailOperation? || l.FailCleanup? {
      FailingRests(c, l, name, a.generation);
    } else {
      SilentMidStep(c, l, name);
    }
    RestSight(Apply(c, l).core, name);
  }

  lemma BusyMid(c: Core, name: Name)
    requires OnIt(c, name) && name in c.workers && name in c.configs
    requires c.workers[name].generation == c.gate.activity.generation
    requires c.workers[name].lifecycle == if c.gate.activity.StartingWorker? then Starting else Stopping
    ensures if c.gate.activity.StartingWorker? then MidStart(c, name, c.gate.activity.generation)
            else MidStop(c, name, c.gate.activity.generation)
  {
  }

  lemma SightRecord(c: Core, name: Name)
    requires name in c.workers
    ensures SightOf(c, name).lifecycle == c.workers[name].lifecycle
    ensures SightOf(c, name).generation == c.workers[name].generation
    ensures SightOf(c, name).reported == c.workers[name].failureReportedDuringStart
  {
  }

  lemma RestSight(c: Core, name: Name)
    ensures AtRest(c) ==> SightOf(c, name).call == NotCalled
    ensures name in c.workers ==>
              SightOf(c, name).lifecycle == c.workers[name].lifecycle
                  && SightOf(c, name).generation == c.workers[name].generation
  {
  }

  lemma SilentMidStep(c: Core, l: Label, name: Name)
    requires Enabled(c, l) && OnIt(c, name) && name in c.workers
    requires l.CallStart? || l.CallStop? || l.Answer? || l.RecordFailure?
    ensures var a, b := SightOf(c, name), SightOf(Apply(c, l).core, name);
            b == match l
                 case Answer(outcome) => a.(call := Answered(outcome))
                 case RecordFailure(_) => a
                 case _ => a.(call := InProgress)
  {
  }

  // ---------------------------------------------------------------------------
  // Handles stay known.

  lemma OperationKeepsHandles(c: Core, l: Label)
    requires Enabled(c, l) && IsOperationStep(l)
    ensures c.handles <= Apply(c, l).core.handles
  {
    hide Apply, OperatesOn, OneRecord;
    StepOperates(c, l);
  }

  lemma RestStepsKeepHandles(c: Core, l: Label)
    requires Enabled(c, l) && !IsFreeStep(l) && !IsOperationStep(l)
    ensures c.handles <= Apply(c, l).core.handles
  {
    hide Recompute;
  }

  lemma HandleStepsKeepHandles(c: Core, l: Label)
    requires Enabled(c, l) && IsHandleStep(l)
    ensures c.handles <= Apply(c, l).core.handles
  {
    hide SetWorkerReady, SetWorkerAcceptingWork, ReportWorkerFailure;
  }

  lemma DispatchStepsKeepHandles(c: Core, l: Label)
    requires Enabled(c, l) && IsDispatchStep(l)
    ensures c.handles <= Apply(c, l).core.handles
  {
    hide RecordCommandFailure, RecordCommandPanic, AdmitCommand, ReleaseCommandSlot;
    match l
    case NewDispatch =>
    case Admit(_, _) =>
    case CallHandler(_) | HandlerReturns(_, _) | EndObservation(_, _, _) =>
    case CommandFailed(_, _) =>
    case CommandPanicked(_, _) =>
    case Release(_) =>
  }

  lemma HandlesStayKnown(c: Core, l: Label)
    requires Enabled(c, l)
    ensures c.handles <= Apply(c, l).core.handles
  {
    hide Apply;
    if IsDispatchStep(l) {
      DispatchStepsKeepHandles(c, l);
    } else if IsHandleStep(l) {
      HandleStepsKeepHandles(c, l);
    } else if IsOperationStep(l) {
      OperationKeepsHandles(c, l);
    } else {
      RestStepsKeepHandles(c, l);
    }
  }
}
