/** opskit.go: the readiness snapshot of a runtime, and how far its items explain it. */
module Opskit {
  import opened Basics
  import opened Lifecycle
  import opened RuntimeStatus
  import opened RuntimeSteps
  import opened RuntimeInvariant
  import opened RuntimeTheorems
  import opened WorkerkitRuntime

  datatype ComponentState = Initializing | Ready | NotReady | ComponentStopped | ComponentFailed

  datatype Impact = Blocking | NonBlocking

  datatype ReadinessItem = ReadinessItem(name: Name, impact: Impact, ready: bool, state: ComponentState)

  function ReadinessImpact(policy: ReadinessPolicy, cfg: Option<WorkerConfig>): Impact {
    if policy == AllWorkers then Blocking
    else if cfg.Some? && (cfg.value.contributesToReadiness || cfg.value.failurePolicy == MarkRuntimeUnready
                          || cfg.value.failurePolicy == FailRuntime)
    then Blocking
    else NonBlocking
  }

  function StateFrom(state: LifecycleState, ready: bool): ComponentState {
    match state
    case Registered => ComponentStopped
    case Starting => Initializing
    case Running => if ready then Ready else NotReady
    case Draining | Stopping => NotReady
    case Stopped => ComponentStopped
    case Failed => ComponentFailed
  }

  function ConfigOf(c: Core, name: Name): Option<WorkerConfig> {
    if name in c.configs then Some(c.configs[name]) else None
  }

  function ItemOf(c: Core, name: Name): ReadinessItem
    requires name in c.workers
  {
    var w := c.workers[name];
    var ready := w.lifecycle == Running && w.ready;
    ReadinessItem(name, ReadinessImpact(c.config.readinessPolicy, ConfigOf(c, name)), ready,
        StateFrom(w.lifecycle, ready))
  }

  /** One item for each registered worker, in registration order. */
  predicate AreItemsOf(c: Core, items: seq<ReadinessItem>) {
    && |items| == |c.order|
    && forall i :: 0 <= i < |items| ==> c.order[i] in c.workers && items[i] == ItemOf(c, c.order[i])
  }

  /** What an item says, of the record and the configuration of its worker; each registered
      worker has exactly one item, at its place in the registration order. */
  lemma ItemsTell(s: System, items: seq<ReadinessItem>, i: nat)
    requires Reachable(s) && AreItemsOf(s.core, items) && i < |items|
    ensures var c, item := s.core, items[i];
            && item.name in c.workers && item.name in c.configs
            && var w, cfg := c.workers[item.name], c.configs[item.name];
               && (item.ready <==> w.lifecycle == Running && w.ready)
               && (item.impact == Blocking <==>
                     || c.config.readinessPolicy == AllWorkers || cfg.contributesToReadiness
                     || cfg.failurePolicy in {MarkRuntimeUnready, FailRuntime})
               && (item.state == Ready <==> item.ready)
               && (item.state == Initializing <==> w.lifecycle == Starting)
               && (item.state == ComponentFailed <==> w.lifecycle == Failed)
               && (item.state == ComponentStopped <==> w.lifecycle in {Registered, Stopped})
               && (item.state == NotReady <==>
                     w.lifecycle in {Draining, Stopping} || (w.lifecycle == Running && !w.ready))
    ensures forall j :: 0 <= j < |items| && items[j].name == items[i].name ==> j == i
    ensures forall n :: n in s.core.workers ==> exists j :: 0 <= j < |items| && items[j].name == n
  {
    hide Reachable;
    KeysAreOk(s);
    forall n | n in s.core.workers
      ensures exists j :: 0 <= j < |items| && items[j].name == n
    {
      var j :| 0 <= j < |s.core.order| && s.core.order[j] == n;
      assert items[j].name == n;
    }
  }

  predicate BlockingReady(items: seq<ReadinessItem>) {
    forall i :: 0 <= i < |items| && items[i].impact.Blocking? ==> items[i].ready
  }

  /** Nothing is in a lifecycle transition and something runs. */
  predicate RunsQuietly(ws: map<Name, Worker>) {
    Any(ws, Running) && !Any(ws, Starting) && !Any(ws, Draining) && !Any(ws, Stopping)
  }

  predicate Blocks(c: Core, name: Name) {
    ReadinessImpact(c.config.readinessPolicy, ConfigOf(c, name)).Blocking?
  }

  /** Blocking items being ready, said of the worker records. */
  lemma BlockingReadyWorkers(c: Core, items: seq<ReadinessItem>)
    requires KeysOk(c) && AreItemsOf(c, items)
    ensures BlockingReady(items) <==>
              forall n :: n in c.workers && Blocks(c, n) ==> ServingReady(c.workers[n])
  {
    if BlockingReady(items) {
      forall n | n in c.workers && Blocks(c, n)
        ensures ServingReady(c.workers[n])
      {
        var i :| 0 <= i < |c.order| && c.order[i] == n;
        assert items[i] == ItemOf(c, n);
      }
    }
  }

  /** An unready snapshot has no blocking unready item in exactly two cases: no worker is
      registered, or under the default policy no worker contributes to readiness and the
      runtime is not quietly running. */
  lemma ReadinessIsExplained(s: System, items: seq<ReadinessItem>)
    requires Reachable(s) && AreItemsOf(s.core, items)
    ensures var c := s.core;
            !c.status.ready && BlockingReady(items) <==>
              && BlockingReady(items)
              && (c.workers == map[]
                  || (c.config.readinessPolicy == ContributingWorkers && Contributors(c.workers,
                        c.configs) == {} && !RunsQuietly(c.workers)))
  {
    hide Reachable, AggregateReady, AggregateState, RunsQuietly, FailedUnder, KeysOk, AreItemsOf;
    var c := s.core;
    CachedStatusIsAggregate(s);
    KeysAreOk(s);
    BlockingReadyWorkers(c, items);
    AllWorkersReadiness(c.workers, c.configs);
    if BlockingReady(items) {
      NoBlockingFailure(c, items);
      ContributingReadiness(c.workers, c.configs);
      NobodyRuns();
      match c.config.readinessPolicy
      case AllWorkers => assert EveryoneReady(c.workers);
      case ContributingWorkers =>
        assert ContributorsReady(c.workers, c.configs);
        assert c.workers == map[] ==> Contributors(c.workers, c.configs) == {};
    }
  }

  lemma KeysAreOk(s: System)
    requires Reachable(s)
    ensures KeysOk(s.core)
  {
    ReachableInv(s);
  }

  lemma NobodyRuns()
    ensures !RunsQuietly(map[])
  {
  }

  lemma NoBlockingFailure(c: Core, items: seq<ReadinessItem>)
    requires KeysOk(c) && AreItemsOf(c, items) && BlockingReady(items)
    ensures !FailedUnder(c.workers, c.configs, FailRuntime) && !FailedUnder(c.workers, c.configs, MarkRuntimeUnready)
  {
    BlockingReadyWorkers(c, items);
  }

  /** Under the all-workers policy: some worker, and all of them running and ready. */
  lemma AllWorkersReadiness(ws: map<Name, Worker>, cs: map<Name, WorkerConfig>)
    ensures AggregateReady(ws, cs, AllWorkers) <==> ws != map[] && EveryoneReady(ws)
  {
    if |ws| == 0 {
      assert ws == map[];
    }
  }

  /** Under the default policy: no blocking failure, and every contributor ready, or quiet
      running when there is none. */
  lemma ContributingReadiness(ws: map<Name, Worker>, cs: map<Name, WorkerConfig>)
    requires !FailedUnder(ws, cs, FailRuntime) && !FailedUnder(ws, cs, MarkRuntimeUnready)
    ensures AggregateReady(ws, cs, ContributingWorkers)
         == if Contributors(ws, cs) == {} then RunsQuietly(ws) else ContributorsReady(ws, cs)
  {
    hide Any, FailedUnder, Contributors, ContributorsReady, EveryoneReady;
  }

  /** With the all-workers policy and some worker, or with some contributing worker: ready
      blocking items mean a ready runtime, so an unready one has an item to blame. */
  lemma UnreadyHasABlockingItem(s: System, items: seq<ReadinessItem>)
    requires Reachable(s) && AreItemsOf(s.core, items) && !s.core.status.ready
    requires s.core.workers != map[]
    requires s.core.config.readinessPolicy == AllWorkers || Contributors(s.core.workers, s.core.configs) != {}
    ensures exists i :: 0 <= i < |items| && items[i].impact.Blocking? && !items[i].ready
  {
    hide Reachable;
    ReadinessIsExplained(s, items);
  }

  /** Under the all-workers policy the items decide readiness. */
  lemma AllWorkersItemsDecide(s: System, items: seq<ReadinessItem>)
    requires Reachable(s) && AreItemsOf(s.core, items) && s.core.config.readinessPolicy == AllWorkers
    ensures s.core.status.ready <==> items != [] && forall i :: 0 <= i < |items| ==> items[i].ready
  {
    hide Reachable, AggregateReady;
    var c := s.core;
    CachedStatusIsAggregate(s);
    KeysAreOk(s);
    BlockingReadyWorkers(c, items);
    AllWorkersReadiness(c.workers, c.configs);
    OrderEmpty(c);
  }

  lemma OrderEmpty(c: Core)
    requires KeysOk(c)
    ensures c.order == [] <==> c.workers == map[]
  {
    if c.order != [] {
      var n := c.order[0];
      assert n in c.order && n in c.workers;
    } else {
      assert forall n :: n !in c.workers;
    }
  }

  /** A runtime without workers is unready and has nothing to show for it. */
  lemma EmptyRuntimeIsUnexplained(config: RuntimeConfig)
    ensures Reachable(NewSystem(config)) && !NewSystem(config).core.status.ready
    ensures AreItemsOf(NewSystem(config).core, []) && BlockingReady([])
  {
    hide Reachable;
    NewSystemReachable(config);
  }

  /** The snapshot: the cached status with its items, taken under one lock. */
  method ReadinessSnapshot(r: Runtime) returns (status: Status, items: seq<ReadinessItem>)
    requires r.Valid()
    ensures status == r.status && AreItemsOf(r.CoreView(), items)
    ensures status.ready || !BlockingReady(items) || r.workerStates == map[]
            || (r.config.readinessPolicy == ContributingWorkers && Contributors(r.workerStates, r.workerConfigs) == {}
                && !RunsQuietly(r.workerStates))
  {
    hide Reachable, Contributors, RunsQuietly;
    KeysAreOk(r.View());
    status := r.status;
    items := [];
    for i := 0 to |r.workerOrder|
      invariant |items| == i
      invariant forall k :: 0 <= k < i ==> r.workerOrder[k] in r.workerStates && items[k] == ItemOf(r.CoreView(),
            r.workerOrder[k])
    {
      var name := r.workerOrder[i];
      var worker := r.workerStates[name];
      var ready := worker.lifecycle == Running && worker.ready;
      var cfg := if name in r.workerConfigs then Some(r.workerConfigs[name]) else None;
      items := items + [ReadinessItem(name, ReadinessImpact(r.config.readinessPolicy, cfg), ready,
            StateFrom(worker.lifecycle, ready))];
    }
    ReadinessIsExplained(r.View(), items);
  }
}
