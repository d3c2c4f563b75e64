/** What holds in every reachable state, and over every run, of the runtime. */
module RuntimeTheorems {
  import opened Basics
  import opened Lifecycle
  import opened RuntimeStatus
  import opened EventLog
  import opened RuntimeSteps
  import opened RuntimeInvariant
  import opened RuntimeSafety
  import opened StartAccounting
  import opened Interference
  import opened OperationSteps

  // ---------------------------------------------------------------------------
  // Runs keep the invariant.

  lemma NewSystemInv(config: RuntimeConfig)
    ensures Inv(NewSystem(config))
  {
    var c := NewCore(config);
    AllRegistered(c.workers, c.configs);
    assert HandlesOk(c) && RecordsOk(c) && SlotsOk(c) && KeysOk(c) && StatusOk(c);
  }

  lemma StepKeepsInv(s: System, l: Label)
    requires Inv(s) && Enabled(s.core, l)
    ensures Inv(Next(s, l))
  {
    hide CoreOk, AccountOk, Apply, Play;
    var o := Apply(s.core, l);
    StepKeepsCore(s.core, l);
    StepKeepsAccount(s, l);
    forall subject
      ensures Play(subject, Origin, s.log + o.events) == Some(Current(o.core, subject))
    {
      PlayOnto(subject, Origin, s.log, Current(s.core, subject), o.events, Current(o.core, subject));
    }
  }

  lemma {:induction false} RunKeepsInv(s: System, run: seq<Label>)
    requires Inv(s) && IsRun(s, run)
    ensures Inv(After(s, run))
    decreases |run|
  {
    hide Inv, Next;
    if run != [] {
      StepKeepsInv(s, run[0]);
      RunKeepsInv(Next(s, run[0]), run[1..]);
    }
  }

  /** s is the state of some runtime after some run. */
  ghost predicate Reachable(s: System) {
    exists config, run :: IsRun(NewSystem(config), run) && s == After(NewSystem(config), run)
  }

  lemma ReachableInv(s: System)
    requires Reachable(s)
    ensures Inv(s)
  {
    hide Inv;
    var config, run :| IsRun(NewSystem(config), run) && s == After(NewSystem(config), run);
    NewSystemInv(config);
    RunKeepsInv(NewSystem(config), run);
  }

  lemma {:induction false} RunExtends(s: System, run: seq<Label>, l: Label)
    requires IsRun(s, run) && Enabled(After(s, run).core, l)
    ensures IsRun(s, run + [l]) && After(s, run + [l]) == Next(After(s, run), l)
    decreases |run|
  {
    if run == [] {
      assert run + [l] == [l];
      assert IsRun(Next(s, l), [l][1..]);
    } else {
      RunExtends(Next(s, run[0]), run[1..], l);
      assert (run + [l])[0] == run[0] && (run + [l])[1..] == run[1..] + [l];
    }
  }

  lemma NewSystemReachable(config: RuntimeConfig)
    ensures Reachable(NewSystem(config))
  {
    assert IsRun(NewSystem(config), []);
  }

  lemma StepStaysReachable(s: System, l: Label)
    requires Reachable(s) && Enabled(s.core, l)
    ensures Reachable(Next(s, l))
  {
    hide Enabled, Next;
    var config, run :| IsRun(NewSystem(config), run) && s == After(NewSystem(config), run);
    RunExtends(NewSystem(config), run, l);
    assert IsRun(NewSystem(config), run + [l]);
  }

  lemma ReachableNames(s: System)
    requires Reachable(s)
    ensures s.core.workers.Keys == s.core.configs.Keys
  {
    ReachableInv(s);
  }

  // ---------------------------------------------------------------------------
  // The aggregate status and registration.

  /** The cached state, readiness and worker count are a function of the worker records and
      configurations; no trace of the previous status is left in them. */
  lemma CachedStatusIsAggregate(s: System)
    requires Reachable(s)
    ensures var c := s.core;
            && c.status.state == AggregateState(c.workers, c.configs)
            && c.status.ready == AggregateReady(c.workers, c.configs, c.config.readinessPolicy)
            && c.status.workers == |c.workers|
  {
    ReachableInv(s);
  }

  /** The aggregate is stopping without any worker stopping exactly when some workers are
      registered, some stopped, and no others. */
  lemma StoppingWithoutAStop(s: System)
    requires Reachable(s)
    ensures s.core.status.state == Stopping && !Any(s.core.workers, Stopping) <==> MixedInactive(s.core.workers)
  {
    hide Reachable;
    CachedStatusIsAggregate(s);
    MixedMeansNeitherAll(s.core.workers);
    DeriveStateHistory(s.core.workers, s.core.configs, Registered);
    FailedIsFailed(s.core.workers, s.core.configs);
  }

  lemma FailedIsFailed(ws: map<Name, Worker>, cs: map<Name, WorkerConfig>)
    ensures forall policy :: FailedUnder(ws, cs, policy) ==> Any(ws, Failed)
  {
  }

  /** Some worker has been started at least once. */
  ghost predicate EverStarted(c: Core) {
    exists n :: n in c.workers && c.workers[n].generation > 0
  }

  lemma StartedIsNotRegistered(c: Core)
    requires CoreOk(c) && EverStarted(c)
    ensures c.status.state != Registered
  {
    var n :| n in c.workers && c.workers[n].generation > 0;
    TheRecord(c, n);
    if AggregateState(c.workers, c.configs) == Registered {
      RegisteredMeansAll(c.workers, c.configs);
    }
  }

  /** Registration is open exactly while no worker has ever been started, for a fresh name. */
  lemma RegistrationIsOpenUntilFirstStart(s: System, name: Name, config: WorkerConfig)
    requires Reachable(s)
    ensures RegisterWorker(s.core, name, config).result
         == if EverStarted(s.core) then InvalidState else if name in s.core.configs then AlreadyRegistered else Done
  {
    ReachableInv(s);
    var c := s.core;
    if EverStarted(c) {
      StartedIsNotRegistered(c);
    } else {
      forall n | n in c.workers
        ensures c.workers[n].lifecycle == Registered
      {
        TheRecord(c, n);
      }
      AllRegistered(c.workers, c.configs);
    }
  }

  /** Records persist and generations only grow. */
  ghost predicate GrewFrom(c: Core, c': Core) {
    forall n :: n in c.workers ==> n in c'.workers && c.workers[n].generation <= c'.workers[n].generation
  }

  /** Each lifecycle step replaces at most one record, by one of no older generation and the
      same in-flight count. */
  ghost predicate GrowsAtMost(c: Core, c': Core, n: Name) {
    || c'.workers == c.workers
    || (n in c'.workers && c'.workers == c.workers[n := c'.workers[n]]
        && (n in c.workers ==>
              && c.workers[n].generation <= c'.workers[n].generation
              && c.workers[n].inFlight == c'.workers[n].inFlight))
  }

  ghost predicate SameCounters(c: Core, c': Core) {
    c'.status.inFlight == c.status.inFlight && c'.admissionClosed == c.admissionClosed
  }

  lemma GrowsAtMostGrows(c: Core, c': Core, n: Name)
    requires GrowsAtMost(c, c', n)
    ensures GrewFrom(c, c')
  {
  }

  lemma RegisterGrows(c: Core, l: Label)
    requires KeysOk(c) && Enabled(c, l) && l.Register?
    ensures GrowsAtMost(c, Apply(c, l).core, l.name) && SameCounters(c, Apply(c, l).core)
  {
    hide Recompute;
  }

  lemma OperationGrows(c: Core, l: Label)
    requires Enabled(c, l) && IsOperationStep(l)
    ensures GrowsAtMost(c, Apply(c, l).core, OperatesOn(c, l)) && SameCounters(c, Apply(c, l).core)
  {
    hide Apply, OperatesOn;
    StepOperates(c, l);
  }

  /** The steps of the gate itself and of the cutoff. */
  lemma GateStepWorkers(c: Core, l: Label)
    requires Enabled(c, l) && !IsFreeStep(l) && !l.Register? && !IsOperationStep(l)
    ensures Apply(c, l).core.workers == c.workers && Apply(c, l).core.status == c.status
  {
  }

  lemma KeysMatch(c: Core)
    requires CoreOk(c)
    ensures KeysOk(c)
  {
  }

  lemma StepGrows(c: Core, l: Label)
    requires CoreOk(c) && Enabled(c, l)
    ensures GrewFrom(c, Apply(c, l).core)
  {
    hide CoreOk, GrowsAtMost, GrewFrom, TouchesAtMost;
    var c' := Apply(c, l).core;
    if IsHandleStep(l) {
      HandleStepTouches(c, l);
      TouchGrows(c, c', Target(c, l));
    } else if IsDispatchStep(l) {
      DispatchStepTouches(c, l);
      TouchGrows(c, c', Target(c, l));
    } else if l.Register? {
      KeysMatch(c);
      RegisterGrows(c, l);
      GrowsAtMostGrows(c, c', l.name);
    } else if IsOperationStep(l) {
      OperationGrows(c, l);
      GrowsAtMostGrows(c, c', OperatesOn(c, l));
    } else {
      GateStepWorkers(c, l);
      SameWorkersGrew(c, c');
    }
  }

  lemma SameWorkersGrew(c: Core, c': Core)
    requires c'.workers == c.workers
    ensures GrewFrom(c, c')
  {
  }

  lemma TouchGrows(c: Core, c': Core, n: Name)
    requires TouchesAtMost(c, c', n)
    ensures GrewFrom(c, c')
  {
  }

  lemma {:induction false} GenerationsGrow(s: System, run: seq<Label>)
    requires Inv(s) && IsRun(s, run)
    ensures GrewFrom(s.core, After(s, run).core)
    decreases |run|
  {
    hide Inv, Apply, GrewFrom;
    if run != [] {
      var l := run[0];
      assert CoreOk(s.core) by { InvCore(s); }
      StepKeepsInv(s, l);
      StepGrows(s.core, l);
      GenerationsGrow(Next(s, l), run[1..]);
      GrewFromTransitive(s.core, Next(s, l).core, After(s, run).core);
    } else {
      GrewFromItself(s.core);
    }
  }

  lemma InvCore(s: System)
    requires Inv(s)
    ensures CoreOk(s.core)
  {
  }

  lemma GrewFromItself(a: Core)
    ensures GrewFrom(a, a)
  {
  }

  lemma GrewFromTransitive(a: Core, b: Core, c: Core)
    requires GrewFrom(a, b) && GrewFrom(b, c)
    ensures GrewFrom(a, c)
  {
  }

  /** Once some worker has been started, no later state accepts a registration. */
  lemma RegistrationNeverReopens(s: System, run: seq<Label>, name: Name, config: WorkerConfig)
    requires Reachable(s) && EverStarted(s.core) && IsRun(s, run)
    ensures RegisterWorker(After(s, run).core, name, config).result == InvalidState
  {
    hide Inv, CoreOk, IsRun, After;
    ReachableInv(s);
    RunKeepsInv(s, run);
    GenerationsGrow(s, run);
    var t := After(s, run);
    var n :| n in s.core.workers && s.core.workers[n].generation > 0;
    assert n in t.core.workers && t.core.workers[n].generation > 0;
    InvCore(t);
    StartedIsNotRegistered(t.core);
  }
}
