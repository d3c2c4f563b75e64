/** The aggregate status: runtime_status.go. */
module RuntimeStatus {
  import opened Basics
  import opened Lifecycle

  /** What the aggregate rules look at; one field per field of the source's statusFacts. */
  datatype Facts = Facts(
    hasWorkers: bool,
    anyStarting: bool,
    anyDraining: bool,
    anyStopping: bool,
    anyRunning: bool,
    anyFailed: bool,
    allRegistered: bool,
    allStopped: bool,
    hasRuntimeFailedWorker: bool,
    hasRuntimeUnreadyFailure: bool,
    readinessWorkers: nat,
    allContributingWorkersReady: bool,
    allWorkersReady: bool)

  // The aggregate lifecycle rules. The last arm keeps the previous aggregate state.
  function DeriveState(f: Facts, previous: LifecycleState): LifecycleState {
    if !f.hasWorkers then Registered
    else if f.hasRuntimeFailedWorker then Failed
    else if f.anyStarting then Starting
    else if f.anyDraining then Draining
    else if f.anyStopping then Stopping
    else if f.anyRunning then Running
    else if f.anyFailed then Failed
    else if f.allStopped then Stopped
    else if f.allRegistered then Registered
    else previous
  }

  function DeriveReady(f: Facts, policy: ReadinessPolicy): bool {
    if f.hasRuntimeFailedWorker || f.hasRuntimeUnreadyFailure then false
    else match policy
      case AllWorkers =>
        f.hasWorkers && !f.anyStarting && !f.anyDraining && !f.anyStopping && !f.anyFailed && f.allWorkersReady
      case ContributingWorkers =>
        if f.readinessWorkers == 0
        then f.anyRunning && !f.anyStarting && !f.anyDraining && !f.anyStopping
        else f.allContributingWorkersReady
  }

  function DeriveChange(previous: LifecycleState, next: LifecycleState, last: Option<Change>): Option<Change> {
    if previous == next then last else Some(Change(previous, next))
  }

  // ---------------------------------------------------------------------------
  // The facts, said of the worker records directly. A worker without a configuration counts
  // as the source's zero configuration: it does not contribute and has no failure policy.

  predicate Any(ws: map<Name, Worker>, state: LifecycleState) {
    exists n :: n in ws && ws[n].lifecycle == state
  }

  predicate All(ws: map<Name, Worker>, state: LifecycleState) {
    forall n :: n in ws ==> ws[n].lifecycle == state
  }

  predicate FailedUnder(ws: map<Name, Worker>, cs: map<Name, WorkerConfig>, policy: FailurePolicy) {
    exists n :: n in ws && ws[n].lifecycle == Failed && n in cs && cs[n].failurePolicy == policy
  }

  predicate ServingReady(w: Worker) {
    w.lifecycle == Running && w.ready
  }

  function Contributors(ws: map<Name, Worker>, cs: map<Name, WorkerConfig>): set<Name> {
    set n | n in ws && n in cs && cs[n].contributesToReadiness
  }

  predicate ContributorsReady(ws: map<Name, Worker>, cs: map<Name, WorkerConfig>) {
    forall n :: n in Contributors(ws, cs) ==> ServingReady(ws[n])
  }

  predicate EveryoneReady(ws: map<Name, Worker>) {
    forall n :: n in ws ==> ServingReady(ws[n])
  }

  function FactsOf(ws: map<Name, Worker>, cs: map<Name, WorkerConfig>): Facts {
    Facts(
      |ws| > 0,
      Any(ws, Starting),
      Any(ws, Draining),
      Any(ws, Stopping),
      Any(ws, Running),
      Any(ws, Failed),
      |ws| > 0 && All(ws, Registered),
      |ws| > 0 && All(ws, Stopped),
      FailedUnder(ws, cs, FailRuntime),
      FailedUnder(ws, cs, MarkRuntimeUnready),
      |Contributors(ws, cs)|,
      ContributorsReady(ws, cs),
      EveryoneReady(ws))
  }

  // ---------------------------------------------------------------------------
  // The aggregate state without history.

  /** The aggregate state as a function of the worker records and configurations alone. */
  function AggregateState(ws: map<Name, Worker>, cs: map<Name, WorkerConfig>): LifecycleState {
    if FailedUnder(ws, cs, FailRuntime) then Failed
    else if Any(ws, Starting) then Starting
    else if Any(ws, Draining) then Draining
    else if Any(ws, Stopping) then Stopping
    else if Any(ws, Running) then Running
    else if Any(ws, Failed) then Failed
    else if All(ws, Registered) then Registered
    else if All(ws, Stopped) then Stopped
    else Stopping  // registered and stopped workers mixed
  }

  function AggregateReady(ws: map<Name, Worker>, cs: map<Name, WorkerConfig>, policy: ReadinessPolicy): bool {
    DeriveReady(FactsOf(ws, cs), policy)
  }

  /** Some workers registered, some stopped, and no others. */
  predicate MixedInactive(ws: map<Name, Worker>) {
    && (forall n :: n in ws ==> ws[n].lifecycle == Registered || ws[n].lifecycle == Stopped)
    && Any(ws, Registered)
    && Any(ws, Stopped)
  }

  predicate NothingActive(ws: map<Name, Worker>) {
    !Any(ws, Starting) && !Any(ws, Draining) && !Any(ws, Stopping) && !Any(ws, Running) && !Any(ws, Failed)
  }

  lemma MixedMeansNeitherAll(ws: map<Name, Worker>)
    ensures MixedInactive(ws) <==> NothingActive(ws) && !All(ws, Registered) && !All(ws, Stopped)
  {
    if NothingActive(ws) && !All(ws, Registered) && !All(ws, Stopped) {
      forall n | n in ws
        ensures ws[n].lifecycle == Registered || ws[n].lifecycle == Stopped
      {
        assert Any(ws, ws[n].lifecycle);
      }
    }
  }

  /** The history-dependent arm is taken exactly on a mix of registered and stopped workers;
      everywhere else the derived state is the history-free one. */
  lemma DeriveStateHistory(ws: map<Name, Worker>, cs: map<Name, WorkerConfig>, previous: LifecycleState)
    ensures DeriveState(FactsOf(ws, cs), previous)
         == if MixedInactive(ws) then previous else AggregateState(ws, cs)
    ensures MixedInactive(ws) ==> AggregateState(ws, cs) == Stopping
  {
    MixedMeansNeitherAll(ws);
    assert FailedUnder(ws, cs, FailRuntime) ==> Any(ws, Failed);
    if |ws| == 0 {
      assert ws == map[];
    } else {
      var n :| n in ws;
      assert All(ws, Registered) ==> ws[n].lifecycle == Registered;
    }
  }

  /** One worker's record changes to a lifecycle that is not registered, and is stopped only
      when it was stopping: then deriving from the history-free aggregate gives the
      history-free aggregate again. */
  lemma DeriveStateStep(ws: map<Name, Worker>, cs: map<Name, WorkerConfig>, name: Name, after: Worker)
    requires name in ws
    requires after.lifecycle == Registered ==> ws[name].lifecycle == Registered
    requires after.lifecycle == Stopped ==> ws[name].lifecycle == Stopping || ws[name].lifecycle == Stopped
    ensures DeriveState(FactsOf(ws[name := after], cs), AggregateState(ws, cs))
         == AggregateState(ws[name := after], cs)
  {
    hide FactsOf, DeriveState;
    var ws' := ws[name := after];
    DeriveStateHistory(ws', cs, AggregateState(ws, cs));
    if MixedInactive(ws') {
      forall n | n in ws && n != name
        ensures ws[n].lifecycle == Registered || ws[n].lifecycle == Stopped
      {
        assert ws'[n] == ws[n];
      }
      if ws[name].lifecycle == Stopping {
        assert Any(ws, Stopping);
      } else {
        var r :| r in ws' && ws'[r].lifecycle == Registered;
        var s :| s in ws' && ws'[s].lifecycle == Stopped;
        assert ws[r].lifecycle == Registered && ws[s].lifecycle == Stopped;
        assert MixedInactive(ws);
        DeriveStateHistory(ws, cs, Registered);
      }
    }
  }

  /** Readiness under the all-workers policy implies readiness under the default policy. */
  lemma AllWorkersReadyIsStronger(ws: map<Name, Worker>, cs: map<Name, WorkerConfig>)
    requires AggregateReady(ws, cs, AllWorkers)
    ensures AggregateReady(ws, cs, ContributingWorkers)
  {
    var n :| n in ws;
    assert ServingReady(ws[n]);
    assert Any(ws, Running);
  }

  // ---------------------------------------------------------------------------
  // Collecting the facts one worker after the other.

  /** The facts after one more worker: what the body of the pass sets and what it leaves. */
  function Noted(f: Facts, name: Name, w: Worker, cs: map<Name, WorkerConfig>): Facts {
    var failsUnder := (policy: FailurePolicy) =>
      w.lifecycle == Failed && name in cs && cs[name].failurePolicy == policy;
    var contributes := name in cs && cs[name].contributesToReadiness;
    Facts(
      f.hasWorkers,
      f.anyStarting || w.lifecycle == Starting,
      f.anyDraining || w.lifecycle == Draining,
      f.anyStopping || w.lifecycle == Stopping,
      f.anyRunning || w.lifecycle == Running,
      f.anyFailed || w.lifecycle == Failed,
      f.allRegistered && w.lifecycle == Registered,
      f.allStopped && w.lifecycle == Stopped,
      f.hasRuntimeFailedWorker || failsUnder(FailRuntime),
      f.hasRuntimeUnreadyFailure || failsUnder(MarkRuntimeUnready),
      f.readinessWorkers + (if contributes then 1 else 0),
      f.allContributingWorkersReady && (contributes ==> ServingReady(w)),
      f.allWorkersReady && ServingReady(w))
  }

  /** The facts of the workers visited so far, out of a worker map that is empty or not. */
  ghost function FactsSoFar(any: bool, ws: map<Name, Worker>, cs: map<Name, WorkerConfig>): Facts {
    FactsOf(ws, cs).(hasWorkers := any, allRegistered := any && All(ws, Registered),
                     allStopped := any && All(ws, Stopped))
  }

  lemma FactsSoFarEnds(ws: map<Name, Worker>, cs: map<Name, WorkerConfig>)
    ensures FactsSoFar(|ws| > 0, ws, cs) == FactsOf(ws, cs)
    ensures FactsSoFar(|ws| > 0, map[], cs)
         == Facts(|ws| > 0, false, false, false, false, false, |ws| > 0, |ws| > 0, false, false, 0, true, true)
  {
    FactsOfNone(cs);
  }

  lemma NotedExtends(any: bool, ws: map<Name, Worker>, cs: map<Name, WorkerConfig>, name: Name, w: Worker)
    requires name !in ws
    ensures FactsSoFar(any, ws[name := w], cs) == Noted(FactsSoFar(any, ws, cs), name, w, cs)
  {
    LifecyclesOfOneMore(ws, name, w);
    PoliciesOfOneMore(ws, cs, name, w);
    ContributorsOfOneMore(ws, cs, name, w);
    ContributorsReadyOfOneMore(ws, cs, name, w);
    hide Any, All, FailedUnder, Contributors, ContributorsReady, EveryoneReady;
  }

  lemma FactsOfNone(cs: map<Name, WorkerConfig>)
    ensures forall state :: !Any(map[], state) && All(map[], state)
    ensures forall policy :: !FailedUnder(map[], cs, policy)
    ensures Contributors(map[], cs) == {} && ContributorsReady(map[], cs) && EveryoneReady(map[])
  {
  }

  /** What one more record adds to each fact. */
  lemma LifecyclesOfOneMore(ws: map<Name, Worker>, name: Name, w: Worker)
    requires name !in ws
    ensures forall state :: Any(ws[name := w], state) == (Any(ws, state) || w.lifecycle == state)
    ensures forall state :: All(ws[name := w], state) == (All(ws, state) && w.lifecycle == state)
    ensures EveryoneReady(ws[name := w]) == (EveryoneReady(ws) && ServingReady(w))
  {
    var ws' := ws[name := w];
    assert ws'[name] == w && forall n :: n in ws ==> n in ws' && ws'[n] == ws[n];
  }

  lemma PoliciesOfOneMore(ws: map<Name, Worker>, cs: map<Name, WorkerConfig>, name: Name, w: Worker)
    requires name !in ws
    ensures forall policy :: FailedUnder(ws[name := w], cs, policy)
                          == (FailedUnder(ws, cs, policy)
                              || (w.lifecycle == Failed && name in cs && cs[name].failurePolicy == policy))
  {
    var ws' := ws[name := w];
    forall policy
      ensures FailedUnder(ws', cs, policy)
           == (FailedUnder(ws, cs, policy) || (w.lifecycle == Failed && name in cs && cs[name].failurePolicy == policy))
    {
      if FailedUnder(ws, cs, policy) {
        var n :| n in ws && ws[n].lifecycle == Failed && n in cs && cs[n].failurePolicy == policy;
        assert n in ws' && ws'[n] == ws[n];
      }
      assert ws'[name] == w;
    }
  }

  lemma ContributorsOfOneMore(ws: map<Name, Worker>, cs: map<Name, WorkerConfig>, name: Name, w: Worker)
    requires name !in ws
    ensures Contributors(ws[name := w], cs)
         == Contributors(ws, cs) + if name in cs && cs[name].contributesToReadiness then {name} else {}
    ensures name !in Contributors(ws, cs)
  {
  }

  lemma ContributorsReadyOfOneMore(ws: map<Name, Worker>, cs: map<Name, WorkerConfig>, name: Name, w: Worker)
    requires name !in ws
    ensures var counts := name in cs && cs[name].contributesToReadiness;
            ContributorsReady(ws[name := w], cs) == (ContributorsReady(ws, cs) && (counts ==> ServingReady(w)))
  {
    ContributorsOfOneMore(ws, cs, name, w);
    hide Contributors;
    assert forall n :: n in ws ==> ws[name := w][n] == ws[n];
  }

  /** The records already visited, when those named in todo are not. */
  ghost function Visited(ws: map<Name, Worker>, todo: set<Name>): map<Name, Worker> {
    map n | n in ws && n !in todo :: ws[n]
  }

  lemma VisitedEnds(ws: map<Name, Worker>)
    ensures Visited(ws, ws.Keys) == map[] && Visited(ws, {}) == ws
  {
  }

  lemma VisitedGrows(ws: map<Name, Worker>, todo: set<Name>, name: Name)
    requires name in todo && name in ws
    ensures name !in Visited(ws, todo)
    ensures Visited(ws, todo - {name}) == Visited(ws, todo)[name := ws[name]]
  {
  }
}
