/** Concrete runs to the two surprises of the aggregate status: a runtime that is stopping
    although no worker is, and an unready one with nothing to show for it. */
module StatusWitness {
  import opened Basics
  import opened Lifecycle
  import opened RuntimeStatus
  import opened RuntimeSteps
  import opened RuntimeTheorems
  import opened OperationSteps
  import opened OperationEffects
  import opened LifecycleOperations
  import opened Opskit

  lemma Taken(s: System, l: Label) returns (s': System)
    requires Reachable(s) && Enabled(s.core, l)
    ensures Reachable(s') && s' == Next(s, l)
  {
    hide Reachable, Enabled, Next;
    StepStaysReachable(s, l);
    s' := Next(s, l);
  }

  /** Two workers, the second newly registered. */
  ghost predicate TwoWorkers(c: Core, a: Name, b: Name) {
    && a != b && c.workers.Keys == c.configs.Keys == {a, b}
    && b in c.workers && c.workers[b].lifecycle == Registered
  }

  /** A step of an operation on the first worker. */
  lemma FirstTaken(s: System, l: Label, a: Name, b: Name) returns (s': System)
    requires Reachable(s) && TwoWorkers(s.core, a, b)
    requires Enabled(s.core, l) && IsOperationStep(l) && OperatesOn(s.core, l) == a
    ensures Reachable(s') && s' == Next(s, l) && TwoWorkers(s'.core, a, b)
    ensures s.core.gate.Held? && s'.core.gate.Held? && s'.core.gate.cutoff == s.core.gate.cutoff
  {
    hide Reachable, Enabled, Apply, StopsCalled;
    s' := Taken(s, l);
    StepEffect(s, l);
  }

  lemma BothRegister(config: RuntimeConfig, a: Name, b: Name, cfg: WorkerConfig) returns (s: System)
    requires a != b
    ensures Reachable(s) && TwoWorkers(s.core, a, b) && AtRest(s.core)
    ensures a in s.core.workers && s.core.workers[a] == NewWorker && s.core.gate.cutoff.None?
  {
    hide Reachable, DeriveState, DeriveReady, FactsOf;
    s := NewSystem(config);
    NewSystemReachable(config);
    s := Taken(s, AcquireGate);
    s := Taken(s, Register(a, cfg));
    assert s.core.status.state == Registered by { OneRegistered(s); }
    s := Taken(s, Register(b, cfg));
  }

  lemma OneRegistered(s: System)
    requires Reachable(s) && forall n :: n in s.core.workers ==> s.core.workers[n].lifecycle == Registered
    ensures s.core.status.state == Registered
  {
    CachedStatusIsAggregate(s);
    assert !FailedUnder(s.core.workers, s.core.configs, FailRuntime);
  }

  /** The first worker is started. */
  lemma FirstStarts(s: System, a: Name, b: Name) returns (s': System)
    requires Reachable(s) && TwoWorkers(s.core, a, b) && AtRest(s.core)
    requires a in s.core.workers && s.core.workers[a] == NewWorker && s.core.gate.cutoff.None?
    ensures Reachable(s') && TwoWorkers(s'.core, a, b) && a in s'.core.workers
    ensures RestsAt(s'.core, a, s'.core.workers[a].lifecycle, 1) && Stoppable(s'.core.workers[a].lifecycle)
    ensures s'.core.gate.cutoff.None?
  {
    hide Reachable, Apply, TwoWorkers, Enabled;
    BeginTurns(s.core, a);
    assert a in s.core.configs by { ReachableNames(s); }
    BeginStartBegins(s.core, a);
    s' := FirstTaken(s, BeginStart(a), a, b);
    s' := FirstCalls(s', a, b, CallStart);
    s' := FirstCompletes(s', a, b);
  }

  lemma BeginTurns(c: Core, name: Name)
    requires AtRest(c)
    ensures Enabled(c, BeginStart(name)) && Enabled(c, BeginStop(name))
  {
  }

  lemma FirstCalls(s: System, a: Name, b: Name, call: Label) returns (s': System)
    requires Reachable(s) && TwoWorkers(s.core, a, b) && s.core.gate.Held? && s.core.gate.call.NotCalled?
    requires if call == CallStart then MidStart(s.core, a, 1) else call == CallStop && MidStop(s.core, a, 1)
    ensures Reachable(s') && TwoWorkers(s'.core, a, b) && s'.core.gate.Held?
    ensures s'.core.gate.cutoff == s.core.gate.cutoff && s'.core.gate.call == Answered(Returned(None))
    ensures if call == CallStart then MidStart(s'.core, a, 1) else MidStop(s'.core, a, 1)
  {
    hide Reachable, TwoWorkers;
    if call == CallStart {
      StartTurns(s.core, a, 1);
    } else {
      StopTurns(s.core, a, 1);
    }
    MidStepsStay(s.core, call, a, 1);
    s' := FirstTaken(s, call, a, b);
    AnswerTurns(s'.core, a, 1, Returned(None));
    MidStepsStay(s'.core, Answer(Returned(None)), a, 1);
    s' := FirstTaken(s', Answer(Returned(None)), a, b);
  }

  lemma FirstCompletes(s: System, a: Name, b: Name) returns (s': System)
    requires Reachable(s) && TwoWorkers(s.core, a, b) && MidStart(s.core, a, 1)
    requires s.core.gate.call == Answered(Returned(None)) && s.core.gate.cutoff.None?
    ensures Reachable(s') && TwoWorkers(s'.core, a, b) && a in s'.core.workers
    ensures RestsAt(s'.core, a, s'.core.workers[a].lifecycle, 1) && Stoppable(s'.core.workers[a].lifecycle)
    ensures s'.core.gate.cutoff.None?
  {
    hide Reachable, TwoWorkers, Observed;
    StartTurns(s.core, a, 1);
    CompleteStartRests(s.core, a, 1);
    s' := FirstTaken(s, CompleteStart, a, b);
  }

  /** And stopped again. */
  lemma FirstStops(s: System, a: Name, b: Name) returns (s': System)
    requires Reachable(s) && TwoWorkers(s.core, a, b) && a in s.core.workers
    requires RestsAt(s.core, a, s.core.workers[a].lifecycle, 1) && Stoppable(s.core.workers[a].lifecycle)
    requires s.core.gate.cutoff.None?
    ensures Reachable(s') && TwoWorkers(s'.core, a, b) && RestsAt(s'.core, a, Stopped, 1) && s'.core.gate.cutoff.None?
  {
    hide Reachable, Apply, TwoWorkers, Enabled;
    assert a in s.core.configs by { ReachableNames(s); }
    BeginTurns(s.core, a);
    BeginStopBegins(s.core, a);
    s' := FirstTaken(s, BeginStop(a), a, b);
    s' := FirstCalls(s', a, b, CallStop);
    StopTurns(s'.core, a, 1);
    CompleteStopRests(s'.core, a, 1);
    s' := FirstTaken(s', CompleteStop, a, b);
  }

  /** Two workers registered, one of them started and stopped: with the gate free again, the
      aggregate is stopping, and no worker is. */
  lemma StoppingIsReached(config: RuntimeConfig, a: Name, b: Name, cfg: WorkerConfig) returns (s: System)
    requires a != b
    ensures Reachable(s) && s.core.gate.Free?
    ensures s.core.status.state == Stopping && !Any(s.core.workers, Stopping) && s.core.workers.Keys == {a, b}
  {
    hide Reachable, RestsAt;
    s := BothRegister(config, a, b, cfg);
    s := FirstStarts(s, a, b);
    s := FirstStops(s, a, b);
    assert AtRest(s.core) && a in s.core.workers && s.core.workers[a].lifecycle == Stopped by { RestsFacts(s.core, a); }
    s := Taken(s, ReleaseGate);
    OneOfEach(s.core, a, b);
    StoppingWithoutAStop(s);
  }

  lemma RestsFacts(c: Core, a: Name)
    requires RestsAt(c, a, Stopped, 1)
    ensures AtRest(c) && a in c.workers && c.workers[a].lifecycle == Stopped
  {
  }

  lemma OneOfEach(c: Core, a: Name, b: Name)
    requires TwoWorkers(c, a, b) && a in c.workers && c.workers[a].lifecycle == Stopped
    ensures MixedInactive(c.workers)
  {
    assert a in c.workers && b in c.workers;
  }

  // ---------------------------------------------------------------------------
  // Readiness without an explanation.

  /** One registered worker that does not contribute to readiness: under the default policy the
      runtime is unready, and its one item is not blocking. */
  lemma IdleRuntimeIsUnexplained(config: RuntimeConfig, name: Name, cfg: WorkerConfig) returns (s: System)
    requires config.readinessPolicy == ContributingWorkers
    requires !cfg.contributesToReadiness && cfg.failurePolicy == Isolate
    ensures Reachable(s) && !s.core.status.ready && s.core.workers != map[]
    ensures forall items :: AreItemsOf(s.core, items) ==> |items| == 1 && BlockingReady(items)
  {
    hide Reachable, DeriveState, DeriveReady, FactsOf;
    s := NewSystem(config);
    NewSystemReachable(config);
    s := Taken(s, AcquireGate);
    s := Taken(s, Register(name, cfg));
    NobodyReady(s);
    assert name in s.core.workers && s.core.order == [name];
    forall items | AreItemsOf(s.core, items)
      ensures |items| == 1 && BlockingReady(items)
    {
      assert items[0] == ItemOf(s.core, name);
    }
  }

  lemma NobodyReady(s: System)
    requires Reachable(s) && forall n :: n in s.core.workers ==> s.core.workers[n].lifecycle == Registered
    requires Contributors(s.core.workers, s.core.configs) == {} && s.core.config.readinessPolicy == ContributingWorkers
    ensures !s.core.status.ready
  {
    CachedStatusIsAggregate(s);
  }
}
