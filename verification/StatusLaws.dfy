/** The cached status in every reachable state, said of the worker records and configurations
    alone. */
module StatusLaws {
  import opened Lifecycle
  import opened RuntimeStatus
  import opened RuntimeSteps
  import opened RuntimeTheorems

  /** Some worker is in this lifecycle. */
  ghost predicate Some1(c: Core, state: LifecycleState) {
    exists n :: n in c.workers && c.workers[n].lifecycle == state
  }

  /** Some worker has failed whose failure policy is this one. */
  ghost predicate SomeFailedUnder(c: Core, policy: FailurePolicy) {
    exists n :: n in c.workers && n in c.configs && c.workers[n].lifecycle == Failed
        && c.configs[n].failurePolicy == policy
  }

  ghost predicate Contributes(c: Core, n: Name) {
    n in c.workers && n in c.configs && c.configs[n].contributesToReadiness
  }

  ghost predicate RunsReady(c: Core, n: Name) {
    n in c.workers && c.workers[n].lifecycle == Running && c.workers[n].ready
  }

  /** A failed worker that is to mark the runtime unready, or to fail it, does so under either
      readiness policy. */
  lemma FailureMeansUnready(s: System)
    requires Reachable(s)
    ensures SomeFailedUnder(s.core, MarkRuntimeUnready) || SomeFailedUnder(s.core, FailRuntime) ==> !s.core.status.ready
  {
    hide Reachable, AggregateState;
    var c := s.core;
    CachedStatusIsAggregate(s);
    FailuresAre(c);
  }

  lemma FailuresAre(c: Core)
    ensures forall policy :: SomeFailedUnder(c, policy) <==> FailedUnder(c.workers, c.configs, policy)
    ensures forall state :: Some1(c, state) <==> Any(c.workers, state)
  {
  }

  /** When the runtime is ready. Under the all-workers policy: there are workers, and all run
      ready. Under the default policy: no failure forbids it, and either all contributors run
      ready, or, without contributors, some worker runs and none is in a transition. */
  lemma ReadyExactly(s: System)
    requires Reachable(s)
    ensures var c := s.core;
            c.status.ready <==>
              && !SomeFailedUnder(c, MarkRuntimeUnready) && !SomeFailedUnder(c, FailRuntime)
              && match c.config.readinessPolicy
                 case AllWorkers => c.workers != map[] && forall n :: n in c.workers ==> RunsReady(c, n)
                 case ContributingWorkers =>
                   if exists n :: Contributes(c, n) then forall n :: Contributes(c, n) ==> RunsReady(c, n)
                   else Some1(c, Running) && forall n :: n in c.workers ==>
                          c.workers[n].lifecycle !in {Starting, Draining, Stopping}
  {
    hide Reachable, AggregateState;
    var c := s.core;
    CachedStatusIsAggregate(s);
    FailuresAre(c);
    match c.config.readinessPolicy
    case AllWorkers => AllReadyExactly(c);
    case ContributingWorkers => ContributorsReadyExactly(c);
  }

  lemma AllReadyExactly(c: Core)
    ensures AggregateReady(c.workers, c.configs, AllWorkers) <==>
              && !FailedUnder(c.workers, c.configs, MarkRuntimeUnready)
                 && !FailedUnder(c.workers, c.configs, FailRuntime)
              && c.workers != map[] && forall n :: n in c.workers ==> RunsReady(c, n)
  {
    if |c.workers| == 0 {
      assert c.workers == map[];
    }
  }

  lemma ContributorsReadyExactly(c: Core)
    ensures AggregateReady(c.workers, c.configs, ContributingWorkers) <==>
              && !FailedUnder(c.workers, c.configs, MarkRuntimeUnready)
                 && !FailedUnder(c.workers, c.configs, FailRuntime)
              && if exists n :: Contributes(c, n) then forall n :: Contributes(c, n) ==> RunsReady(c, n)
                 else Some1(c, Running) && forall n :: n in c.workers ==>
                        c.workers[n].lifecycle !in {Starting, Draining, Stopping}
  {
    hide FailedUnder;
    var contributors := Contributors(c.workers, c.configs);
    assert forall n :: n in contributors <==> Contributes(c, n);
    if exists n :: Contributes(c, n) {
      var n :| Contributes(c, n);
      assert n in contributors && contributors != {};
    } else {
      assert contributors == {};
      FailuresAre(c);
    }
  }

  /** The aggregate state by precedence: a failure that fails the runtime, then the transitions,
      starting before draining before stopping, then running, then any failure, then rest; a mix
      of registered and stopped workers counts as stopping. */
  lemma StateExactly(s: System)
    requires Reachable(s)
    ensures var c, state := s.core, s.core.status.state;
            var forced := SomeFailedUnder(c, FailRuntime);
            var moving := Some1(c, Starting) || Some1(c, Draining) || Some1(c, Stopping);
            && (state == Failed <==> forced || (Some1(c, Failed) && !moving && !Some1(c, Running)))
            && (state == Starting <==> !forced && Some1(c, Starting))
            && (state == Draining <==> !forced && !Some1(c, Starting) && Some1(c, Draining))
            && (state == Stopping <==>
                  && !forced && !Some1(c, Starting) && !Some1(c, Draining)
                  && (Some1(c, Stopping)
                      || (Some1(c, Registered) && Some1(c, Stopped) && !Some1(c, Running) && !Some1(c, Failed))))
            && (state == Running <==> !forced && !moving && Some1(c, Running))
            && (state == Registered <==> forall n :: n in c.workers ==> c.workers[n].lifecycle == Registered)
            && (state == Stopped <==>
                  c.workers != map[] && forall n :: n in c.workers ==> c.workers[n].lifecycle == Stopped)
  {
    hide Reachable, AggregateReady;
    var c := s.core;
    CachedStatusIsAggregate(s);
    FailuresAre(c);
    AggregateExactly(c);
  }

  lemma AggregateExactly(c: Core)
    ensures var state := AggregateState(c.workers, c.configs);
            var ws, forced := c.workers, FailedUnder(c.workers, c.configs, FailRuntime);
            var moving := Any(ws, Starting) || Any(ws, Draining) || Any(ws, Stopping);
            && (state == Failed <==> forced || (Any(ws, Failed) && !moving && !Any(ws, Running)))
            && (state == Starting <==> !forced && Any(ws, Starting))
            && (state == Draining <==> !forced && !Any(ws, Starting) && Any(ws, Draining))
            && (state == Stopping <==>
                  && !forced && !Any(ws, Starting) && !Any(ws, Draining)
                  && (Any(ws, Stopping)
                      || (Any(ws, Registered) && Any(ws, Stopped) && !Any(ws, Running) && !Any(ws, Failed))))
            && (state == Running <==> !forced && !moving && Any(ws, Running))
            && (state == Registered <==> forall n :: n in ws ==> ws[n].lifecycle == Registered)
            && (state == Stopped <==> ws != map[] && forall n :: n in ws ==> ws[n].lifecycle == Stopped)
  {
    FailedIsFailed(c.workers, c.configs);
    MixedMeansNeitherAll(c.workers);
    if c.workers != map[] {
      var n :| n in c.workers;
      assert Any(c.workers, c.workers[n].lifecycle);
    }
  }
}
