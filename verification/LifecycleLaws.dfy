/** When a lifecycle operation may begin, which calls of worker code it makes, and which handles
    that gives out. */
module LifecycleLaws {
  import opened Lifecycle
  import opened RuntimeSteps
  import opened RuntimeInvariant
  import opened RuntimeSafety
  import opened OperationSteps
  import opened RuntimeTheorems

  /** The record of one worker is in this lifecycle and generation now, neither ready nor
      accepting work, and otherwise as before; no other record changed. */
  ghost predicate BegunAs(c: Core, c': Core, n: Name, generation: nat, state: LifecycleState) {
    && n in c.workers && n in c'.workers && c'.workers == c.workers[n := c'.workers[n]]
    && c'.workers[n] == c.workers[n].(generation := generation, lifecycle := state, ready := false,
                                      acceptingWork := false, lastTransition := c'.workers[n].lastTransition)
  }

  predicate NoFlags(w: Worker) {
    !w.readySetDuringStart && !w.acceptingWorkSetDuringStart && !w.failureReportedDuringStart
  }

  /** The flags of a Start are down while nobody starts. */
  lemma AtRestRecord(c: Core, n: Name)
    requires AtRest(c) && n in c.workers
    requires CoreOk(c)
    ensures var w := c.workers[n];
            NoFlags(w)
  {
    assert RecordOk(c.workers[n]);
  }

  lemma ReachableRest(s: System, n: Name)
    requires Reachable(s) && AtRest(s.core)
    ensures n in s.core.workers ==> NoFlags(s.core.workers[n])
  {
    hide Inv, CoreOk, Reachable;
    ReachableInv(s);
    InvCore(s);
    if n in s.core.workers {
      AtRestRecord(s.core, n);
    }
  }

  /** A Start begins exactly from registered, stopped and failed, with the next generation. A
      refused one changes nothing and says why. */
  lemma StartsExactly(s: System, n: Name)
    requires Reachable(s) && AtRest(s.core)
    ensures var c, t, result := s.core, Next(s, BeginStart(n)), Apply(s.core, BeginStart(n)).result;
            if n !in c.workers then result == NotFound && t == s
            else if c.workers[n].lifecycle !in {Registered, Stopped, Failed} then result == InvalidState && t == s
            else
              var generation := c.workers[n].generation + 1;
              && result == Began(generation) && BegunAs(c, t.core, n, generation, Starting)
              && t.core.gate == c.gate.(activity := StartingWorker(n, generation), call := NotCalled)
  {
    hide Reachable, Observed;
    ReachableRest(s, n);
    assert s.log + [] == s.log;
  }

  /** A Stop begins exactly from running, draining and failed. */
  lemma StopsExactly(s: System, n: Name)
    requires Reachable(s) && AtRest(s.core)
    ensures var c, t, result := s.core, Next(s, BeginStop(n)), Apply(s.core, BeginStop(n)).result;
            if n !in c.workers then result == NotFound && t == s
            else if c.workers[n].lifecycle !in {Running, Draining, Failed} then result == InvalidState && t == s
            else
              var generation := c.workers[n].generation;
              && result == Began(generation) && BegunAs(c, t.core, n, generation, Stopping)
              && t.core.gate == c.gate.(activity := StoppingWorker(n, generation), call := NotCalled)
  {
    hide Reachable, Observed;
    ReachableRest(s, n);
    assert s.log + [] == s.log;
  }

  /** A Drain is done exactly from running and draining. */
  lemma DrainsExactly(s: System, n: Name)
    requires Reachable(s) && AtRest(s.core)
    ensures var c, t, result := s.core, Next(s, BeginDrain(n)), Apply(s.core, BeginDrain(n)).result;
            if n !in c.workers then result == NotFound && t == s
            else if c.workers[n].lifecycle !in {Running, Draining} then result == InvalidState && t == s
            else result == Done && BegunAs(c, t.core, n, c.workers[n].generation, Draining) && t.core.gate == c.gate
  {
    hide Reachable, Observed, Commit;
    ReachableRest(s, n);
    assert s.log + [] == s.log;
  }

  // ---------------------------------------------------------------------------
  // Calls of worker code.

  /** A call of Worker.Start or Worker.Stop is of the gate holder's worker, in its current
      generation, and tells the in-flight counts it finds. */
  lemma CallsTell(s: System, l: Label)
    requires Reachable(s) && Enabled(s.core, l) && (l.CallStart? || l.CallStop?)
    ensures var c, n := s.core, s.core.gate.activity.name;
            && n in c.workers
            && Apply(c, l).events
               == [if l.CallStart? then StartCalled(n, c.workers[n].generation)
                   else StopCalled(n, c.workers[n].generation, c.status.inFlight, c.workers[n].inFlight)]
  {
    hide Reachable, Inv, CoreOk;
    ReachableInv(s);
    InvCore(s);
    BusyRecord(s.core);
  }

  /** The handles a step gives to worker code: a Start or Stop gets one of the current
      generation, a command handler the one its dispatch was admitted with. */
  ghost function HandedOut(c: Core, l: Label): set<Handle>
    requires Enabled(c, l)
  {
    match l
    case CallStart | CallStop =>
      var n := c.gate.activity.name;
      if n in c.workers then {Handle(n, c.workers[n].generation)} else {}
    case CallHandler(id) => {c.dispatches[id]}
    case _ => {}
  }

  lemma CallHandsOut(c: Core, l: Label)
    requires Enabled(c, l) && (l.CallStart? || l.CallStop? || l.Answer? || l.RecordFailure?)
    requires CoreOk(c)
    ensures Apply(c, l).core.handles == c.handles + HandedOut(c, l)
  {
    hide UngatedOk, GateOk;
    BusyRecord(c);
  }

  lemma OperationHandsOut(c: Core, l: Label)
    requires Enabled(c, l) && IsOperationStep(l) && !l.CallStart? && !l.CallStop? && !l.Answer? && !l.RecordFailure?
    ensures Apply(c, l).core.handles == c.handles
  {
    hide BeginWorkerStart, BeginWorkerStop, BeginWorkerDrain, CompleteWorkerStart, CompleteWorkerStop, FailWorker,
         FailLoopCleanup;
    match l
    case BeginStart(_) | BeginStop(_) | BeginDrain(_) =>
    case CompleteStart =>
    case CompleteStop =>
    case FailOperation(_, _) =>
    case FailCleanup(_) =>
  }

  lemma HandleStepHandsOut(c: Core, l: Label)
    requires Enabled(c, l) && IsHandleStep(l)
    ensures Apply(c, l).core.handles == c.handles
  {
    hide SetWorkerReady, SetWorkerAcceptingWork, ReportWorkerFailure;
    match l
    case SetReady(_, _) | SetAcceptingWork(_, _) | ReportFailure(_, _) | ObserveCleanup(_, _, _) =>
  }

  lemma DispatchStepHandsOut(c: Core, l: Label)
    requires Enabled(c, l) && IsDispatchStep(l) && !l.CommandFailed? && !l.CommandPanicked?
    ensures Apply(c, l).core.handles == c.handles + HandedOut(c, l)
  {
    hide AdmitCommand, ReleaseCommandSlot;
    match l
    case NewDispatch | Admit(_, _) | CallHandler(_) | HandlerReturns(_, _) =>
    case Release(_) | EndObservation(_, _, _) =>
  }

  lemma CommandStepHandsOut(c: Core, l: Label)
    requires Enabled(c, l) && (l.CommandFailed? || l.CommandPanicked?)
    ensures Apply(c, l).core.handles == c.handles
  {
    hide RecordCommandFailure, RecordCommandPanic;
  }

  lemma GateHandsOut(c: Core, l: Label)
    requires Enabled(c, l) && !IsFreeStep(l) && !IsOperationStep(l)
    ensures Apply(c, l).core.handles == c.handles
  {
    hide Recompute;
  }

  lemma StepHandsOut(s: System, l: Label)
    requires Reachable(s) && Enabled(s.core, l)
    ensures Next(s, l).core.handles == s.core.handles + HandedOut(s.core, l)
  {
    hide Reachable, Inv, CoreOk, Apply;
    ReachableInv(s);
    InvCore(s);
    if IsHandleStep(l) {
      HandleStepHandsOut(s.core, l);
    } else if l.CommandFailed? || l.CommandPanicked? {
      CommandStepHandsOut(s.core, l);
    } else if IsDispatchStep(l) {
      DispatchStepHandsOut(s.core, l);
    } else if !IsOperationStep(l) {
      GateHandsOut(s.core, l);
    } else if l.CallStart? || l.CallStop? || l.Answer? || l.RecordFailure? {
      CallHandsOut(s.core, l);
    } else {
      OperationHandsOut(s.core, l);
    }
  }

  ghost function HandedOutOver(s: System, run: seq<Label>): set<Handle>
    requires IsRun(s, run)
    decreases |run|
  {
    if run == [] then {} else HandedOut(s.core, run[0]) + HandedOutOver(Next(s, run[0]), run[1..])
  }

  /** The handles outstanding are exactly those given to worker code. */
  lemma {:induction false} HandlesAreHandedOut(s: System, run: seq<Label>)
    requires Reachable(s) && IsRun(s, run)
    ensures After(s, run).core.handles == s.core.handles + HandedOutOver(s, run)
    decreases |run|
  {
    hide Reachable, Next, HandedOut;
    if run != [] {
      StepHandsOut(s, run[0]);
      StepStaysReachable(s, run[0]);
      HandlesAreHandedOut(Next(s, run[0]), run[1..]);
    }
  }
}
