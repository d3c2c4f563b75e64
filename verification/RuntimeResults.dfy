/** The main results about the runtime, for every reachable state and every step or run
    from it. */
module RuntimeResults {
  import opened Basics
  import opened Lifecycle
  import opened RuntimeStatus
  import opened EventLog
  import opened RuntimeSteps
  import opened RuntimeInvariant
  import opened RuntimeSafety
  import opened StartAccounting
  import opened Interference
  import opened RuntimeTheorems
  import opened OperationSteps

  // ---------------------------------------------------------------------------
  // Gate ownership.

  /** At most one worker is starting or stopping, and none while the gate is free. */
  lemma OneTransitionAtATime(s: System, m: Name, n: Name)
    requires Reachable(s) && m in s.core.workers && n in s.core.workers
    requires s.core.workers[m].lifecycle == Starting || s.core.workers[m].lifecycle == Stopping
    ensures s.core.gate.Held? && s.core.gate.activity != Idle
    ensures s.core.workers[n].lifecycle == Starting || s.core.workers[n].lifecycle == Stopping ==> n == m
  {
    ReachableInv(s);
  }

  /** The completions of the gate holder never meet a stale generation or a wrong state. */
  lemma CompletionsAlwaysApply(s: System, err: Error, panicked: bool, ready: bool, accepting: bool)
    requires Reachable(s) && Busy(s.core)
    ensures var c, a := s.core, s.core.gate.activity;
            && a.name in c.workers
            && (a.StartingWorker? ==> CompleteWorkerStart(c, a.name, a.generation, ready, accepting).result == Done)
            && (a.StoppingWorker? ==> CompleteWorkerStop(c, a.name, a.generation).result == Done)
            && FailWorker(c, a.name, a.generation, err, panicked).result == Done
            && FailLoopCleanup(c, a.name, a.generation, err).result == Done
            && RecordWorkerFailureStatus(c, a.name, a.generation, err).result == Done
  {
    hide Inv, CoreOk, Observed, Commit;
    ReachableInv(s);
    InvCore(s);
    BusyRecord(s.core);
  }

  /** No step outside the gate takes a worker into or out of starting and stopping. */
  lemma FreeStepsKeepTransitions(s: System, l: Label, n: Name)
    requires Reachable(s) && Enabled(s.core, l) && IsFreeStep(l) && n in s.core.workers
    ensures n in Next(s, l).core.workers
    ensures var before, after := s.core.workers[n].lifecycle, Next(s, l).core.workers[n].lifecycle;
            && (before == Starting <==> after == Starting)
            && (before == Stopping <==> after == Stopping)
  {
    hide Apply;
    FreeStepRelies(s, l);
  }

  // ---------------------------------------------------------------------------
  // Admission and shutdown.

  /** Admission decided from the cached status is admission decided from the worker records:
      no cutoff, no failed worker that fails the runtime, a running accepting target, and
      room in both scopes. */
  lemma AdmissionIsExact(s: System, id: nat, name: Name)
    requires Reachable(s)
    ensures var c := s.core;
            AdmitCommand(c, id, name).result.Began? <==>
              && !c.admissionClosed
              && !FailedUnder(c.workers, c.configs, FailRuntime)
              && name in c.workers
              && c.workers[name].lifecycle == Running
              && c.workers[name].acceptingWork
              && (c.config.commandConcurrency > 0 ==> c.status.inFlight < c.config.commandConcurrency)
              && (name in c.configs && c.configs[name].commandConcurrency > 0 ==>
                    c.workers[name].inFlight < c.configs[name].commandConcurrency)
  {
    hide FailedUnder, AggregateState, AggregateReady, Reachable;
    CachedStatusIsAggregate(s);
    var c := s.core;
    if name in c.workers && c.workers[name].lifecycle == Running {
      RunningAggregate(c.workers, c.configs, name);
    }
  }

  lemma RunningAggregate(ws: map<Name, Worker>, cs: map<Name, WorkerConfig>, name: Name)
    requires name in ws && ws[name].lifecycle == Running
    ensures AggregateState(ws, cs) in {Failed, Stopped, Registered} <==> FailedUnder(ws, cs, FailRuntime)
  {
    assert Any(ws, Running);
  }

  /** Admission is closed and no in-flight count has grown. */
  ghost predicate Shrunk(c: Core, c': Core) {
    && c'.admissionClosed
    && c'.status.inFlight <= c.status.inFlight
    && (forall n :: n in c.workers ==> n in c'.workers && c'.workers[n].inFlight <= c.workers[n].inFlight)
  }

  lemma ShrunkTransitive(a: Core, b: Core, c: Core)
    requires Shrunk(a, b) && Shrunk(b, c)
    ensures Shrunk(a, c)
  {
  }

  lemma CountersShrink(c: Core, c': Core, n: Name)
    requires c.admissionClosed && GrowsAtMost(c, c', n) && SameCounters(c, c')
    ensures Shrunk(c, c')
  {
  }

  lemma LifecycleStepShrinks(c: Core, l: Label)
    requires CoreOk(c) && c.admissionClosed && Enabled(c, l) && !IsFreeStep(l) && !l.RestoreAdmission?
    ensures Shrunk(c, Apply(c, l).core)
  {
    hide CoreOk, GrowsAtMost, SameCounters;
    var c' := Apply(c, l).core;
    if l.Register? {
      KeysMatch(c);
      RegisterGrows(c, l);
      CountersShrink(c, c', l.name);
    } else if IsOperationStep(l) {
      OperationGrows(c, l);
      CountersShrink(c, c', OperatesOn(c, l));
    } else {
      ClosedGateStep(c, l);
    }
  }

  lemma StepShrinks(s: System, l: Label)
    requires CoreOk(s.core) && s.core.admissionClosed && Enabled(s.core, l) && !l.RestoreAdmission?
    ensures Shrunk(s.core, Next(s, l).core)
  {
    hide Apply, CoreOk;
    if IsFreeStep(l) {
      FreeStepRelies(s, l);
    } else {
      LifecycleStepShrinks(s.core, l);
    }
  }

  /** While admission stays closed, no in-flight count ever grows. */
  lemma {:induction false} InFlightShrinksWhileClosed(s: System, run: seq<Label>)
    requires Inv(s) && s.core.admissionClosed && IsRun(s, run)
    requires forall l :: l in run ==> !l.RestoreAdmission?
    ensures Shrunk(s.core, After(s, run).core)
    decreases |run|
  {
    if run == [] {
      assert Shrunk(s.core, s.core);
    } else {
      hide Inv, Apply, Shrunk;
      InvCore(s);
      StepShrinks(s, run[0]);
      StepKeepsInv(s, run[0]);
      assert Next(s, run[0]).core.admissionClosed by { ShrunkIsClosed(s.core, Next(s, run[0]).core); }
      InFlightShrinksWhileClosed(Next(s, run[0]), run[1..]);
      ShrunkTransitive(s.core, Next(s, run[0]).core, After(s, run).core);
    }
  }

  lemma ShrunkIsClosed(c: Core, c': Core)
    requires Shrunk(c, c')
    ensures c'.admissionClosed
  {
  }

  /** After the holder of a cutoff has seen the runtime idle, every Stop call it goes on to
      make finds the runtime and the worker idle, whatever dispatches race with it. */
  lemma StopCallsAreIdleOnceClosed(s: System, run: seq<Label>)
    requires Reachable(s) && s.core.admissionClosed && s.core.status.inFlight == 0
    requires IsRun(s, run) && forall l :: l in run ==> !l.RestoreAdmission?
    requires Enabled(After(s, run).core, CallStop)
    ensures var c := After(s, run).core;
            var a := c.gate.activity;
            Apply(c, CallStop).events == [StopCalled(a.name, a.generation, 0, 0)]
  {
    hide Inv, CoreOk, Shrunk, IsRun, After;
    ReachableInv(s);
    RunKeepsInv(s, run);
    InFlightShrinksWhileClosed(s, run);
    var t := After(s, run);
    InvCore(t);
    ShrunkCount(s.core, t.core);
    IdleWorkers(t.core, t.core.gate.activity.name);
  }

  lemma ShrunkCount(c: Core, c': Core)
    requires Shrunk(c, c')
    ensures c'.status.inFlight <= c.status.inFlight
  {
  }

  /** An idle runtime has only idle workers. */
  lemma IdleWorkers(c: Core, name: Name)
    requires CoreOk(c) && c.status.inFlight <= 0 && name in c.workers
    ensures c.status.inFlight == 0 && c.workers[name].inFlight == 0
  {
    assert c.dispatches == map[];
    assert HeldBy(c.dispatches, name) == {};
  }

  // ---------------------------------------------------------------------------
  // Slots.

  function SumInFlight(names: seq<Name>, ws: map<Name, Worker>): int
    requires forall n :: n in names ==> n in ws
  {
    if names == [] then 0 else SumInFlight(names[..|names| - 1], ws) + ws[names[|names| - 1]].inFlight
  }

  function HeldByAny(dispatches: map<nat, Handle>, names: seq<Name>): set<nat> {
    set id | id in dispatches && dispatches[id].worker in names
  }

  lemma {:induction false} SumIsHeld(c: Core, k: nat)
    requires KeysOk(c) && SlotsOk(c) && k <= |c.order|
    ensures SumInFlight(c.order[..k], c.workers) == |HeldByAny(c.dispatches, c.order[..k])|
  {
    if k == 0 {
      assert HeldByAny(c.dispatches, []) == {};
    } else {
      SumIsHeld(c, k - 1);
      var n := c.order[k - 1];
      assert c.order[..k][..k - 1] == c.order[..k - 1];
      assert n !in c.order[..k - 1];
      assert c.order[..k] == c.order[..k - 1] + [n];
      assert HeldByAny(c.dispatches, c.order[..k])
          == HeldByAny(c.dispatches, c.order[..k - 1]) + HeldBy(c.dispatches, n);
      assert HeldByAny(c.dispatches, c.order[..k - 1]) !! HeldBy(c.dispatches, n);
    }
  }

  /** The runtime count is the sum of the worker counts is the number of admitted dispatches
      not yet released; both caps hold. */
  lemma SlotsAreConserved(s: System)
    requires Reachable(s)
    ensures var c := s.core;
            && (forall n :: n in c.order ==> n in c.workers && n in c.configs)
            && c.status.inFlight == |c.dispatches| == SumInFlight(c.order, c.workers)
            && (c.config.commandConcurrency > 0 ==> c.status.inFlight <= c.config.commandConcurrency)
            && (forall n :: n in c.order && c.configs[n].commandConcurrency > 0 ==>
                  c.workers[n].inFlight <= c.configs[n].commandConcurrency)
  {
    hide Reachable, KeysOk, SlotsOk, HandlesOk, SumInFlight;
    ReachableSlots(s);
    SlotsConserved(s.core);
  }

  lemma ReachableSlots(s: System)
    requires Reachable(s)
    ensures KeysOk(s.core) && SlotsOk(s.core) && HandlesOk(s.core)
  {
    hide KeysOk, SlotsOk, HandlesOk, RecordsOk, StatusOk, GateOk, LogOk, AccountOk;
    ReachableInv(s);
  }

  /** Every dispatch is held by a registered worker. */
  lemma AllAreHeld(c: Core)
    requires KeysOk(c) && HandlesOk(c)
    ensures HeldByAny(c.dispatches, c.order) == c.dispatches.Keys
  {
    hide RecordOk;
    forall id | id in c.dispatches
      ensures c.dispatches[id].worker in c.order
    {
      assert Issued(c, c.dispatches[id]);
    }
  }

  lemma CapsHold(c: Core)
    requires KeysOk(c) && SlotsOk(c)
    ensures forall n :: n in c.order ==> n in c.workers && n in c.configs
    ensures c.config.commandConcurrency > 0 ==> c.status.inFlight <= c.config.commandConcurrency
    ensures forall n :: n in c.order && c.configs[n].commandConcurrency > 0 ==>
              c.workers[n].inFlight <= c.configs[n].commandConcurrency
  {
    hide HeldBy;
  }

  lemma SlotsConserved(c: Core)
    requires KeysOk(c) && SlotsOk(c) && HandlesOk(c)
    ensures forall n :: n in c.order ==> n in c.workers && n in c.configs
    ensures c.status.inFlight == |c.dispatches| == SumInFlight(c.order, c.workers)
    ensures c.config.commandConcurrency > 0 ==> c.status.inFlight <= c.config.commandConcurrency
    ensures forall n :: n in c.order && c.configs[n].commandConcurrency > 0 ==>
              c.workers[n].inFlight <= c.configs[n].commandConcurrency
  {
    hide HandlesOk, KeysOk, HeldBy, HeldByAny;
    SumIsHeld(c, |c.order|);
    assert c.order[..|c.order|] == c.order;
    AllAreHeld(c);
    CapsHold(c);
    assert |c.dispatches.Keys| == |c.dispatches|;
  }

  lemma HeldIsPositive(c: Core, id: nat)
    requires SlotsOk(c) && HandlesOk(c) && id in c.dispatches
    ensures var n := c.dispatches[id].worker;
            n in c.workers && c.workers[n].inFlight > 0 && c.status.inFlight > 0
  {
    assert Issued(c, c.dispatches[id]);
    HeldByShrinks(c.dispatches, id, c.dispatches[id].worker);
  }

  /** A release always finds both counters positive and takes one off each. */
  lemma ReleaseTakesOneSlot(s: System, id: nat)
    requires Reachable(s) && Enabled(s.core, Release(id))
    ensures var c, c' := s.core, Next(s, Release(id)).core;
            var n := c.dispatches[id].worker;
            && n in c.workers && n in c'.workers
            && c'.workers[n].inFlight == c.workers[n].inFlight - 1 >= 0
            && c'.status.inFlight == c.status.inFlight - 1 >= 0
            && c'.workers == c.workers[n := c.workers[n].(inFlight := c.workers[n].inFlight - 1)]
            && id !in c'.dispatches
  {
    hide Reachable, KeysOk, SlotsOk, HandlesOk;
    ReachableSlots(s);
    HeldIsPositive(s.core, id);
  }

  /** The releases among the steps. */
  function Releases(run: seq<Label>): nat {
    if run == [] then 0 else (if run[0].Release? then 1 else 0) + Releases(run[1..])
  }

  /** While admission is closed, exactly the releases change the in-flight count, each by one. */
  lemma ReleasesAreAllThatChanges(s: System, l: Label)
    requires Reachable(s) && s.core.admissionClosed && Enabled(s.core, l) && !l.RestoreAdmission?
    ensures Next(s, l).core.status.inFlight + (if l.Release? then 1 else 0) == s.core.status.inFlight
    ensures Next(s, l).core.admissionClosed
  {
    hide Reachable, CoreOk, Apply, SumInFlight;
    ReachableInv(s);
    var c, c' := s.core, Apply(s.core, l).core;
    if l.Release? {
      ReleaseTakesOneSlot(s, l.id);
      DispatchStepTouches(c, l);
    } else if IsHandleStep(l) {
      HandleStepTouches(c, l);
    } else if IsDispatchStep(l) {
      ClosedDispatchStep(c, l);
    } else if l.Register? {
      InvCore(s);
      KeysMatch(c);
      RegisterGrows(c, l);
    } else if IsOperationStep(l) {
      OperationGrows(c, l);
    } else {
      ClosedGateStep(c, l);
    }
  }

  lemma ClosedDispatchStep(c: Core, l: Label)
    requires c.admissionClosed && Enabled(c, l) && IsDispatchStep(l) && !l.Release?
    ensures var c' := Apply(c, l).core; c'.status.inFlight == c.status.inFlight && c'.admissionClosed
  {
    hide Observed;
  }

  lemma ClosedGateStep(c: Core, l: Label)
    requires c.admissionClosed && Enabled(c, l) && (l.AcquireGate? || l.ReleaseGate? || l.CloseAdmission?)
    ensures var c' := Apply(c, l).core;
            c'.status.inFlight == c.status.inFlight && c'.admissionClosed && c'.workers == c.workers
  {
  }

  /** Over any run with admission closed the count falls by exactly the releases of the run. So
      as many releases are still to come as commands are in flight, the runtime is idle exactly
      after that many, and stays idle. */
  lemma {:induction false} ReleasesDrainTheRuntime(s: System, run: seq<Label>)
    requires Reachable(s) && s.core.admissionClosed && IsRun(s, run)
    requires forall l :: l in run ==> !l.RestoreAdmission?
    ensures var t := After(s, run).core;
            && t.admissionClosed
            && t.status.inFlight + Releases(run) == s.core.status.inFlight == |s.core.dispatches|
            && Releases(run) <= |s.core.dispatches|
            && (t.status.inFlight == 0 <==> Releases(run) == |s.core.dispatches|)
    decreases |run|
  {
    hide Reachable, Apply, SumInFlight;
    SlotsAreConserved(s);
    if run != [] {
      ReleasesAreAllThatChanges(s, run[0]);
      StepStaysReachable(s, run[0]);
      SlotsAreConserved(Next(s, run[0]));
      ReleasesDrainTheRuntime(Next(s, run[0]), run[1..]);
    }
  }

  // ---------------------------------------------------------------------------
  // Events.

  /** Replaying the committed transition and readiness events from the initial values gives
      the current lifecycle and readiness of every worker and of the runtime; every worker
      transition on the way was a legal one leaving the state it was in. */
  lemma EventsReplay(s: System, subject: Subject)
    requires Reachable(s)
    ensures Play(subject, Origin, s.log) == Some(Current(s.core, subject))
  {
    ReachableInv(s);
  }

  /** The steps that derive the status without observing it change no lifecycle and no
      readiness, of a worker or of the runtime. */
  lemma UnobservedStepsAreSilent(s: System, l: Label, subject: Subject)
    requires Reachable(s) && Enabled(s.core, l)
    requires l.Register? || l.SetAcceptingWork?
             || (l.BeginDrain? && l.name in s.core.workers && s.core.workers[l.name].lifecycle == Draining)
    ensures Current(Next(s, l).core, subject) == Current(s.core, subject)
  {
    hide Inv, CoreOk, Play, Recompute, Commit, FactsOf;
    ReachableInv(s);
    InvCore(s);
    StepKeepsCore(s.core, l);
    assert Apply(s.core, l).events == [];
    PlayNothing(subject, Current(s.core, subject));
  }

  lemma PlayNothing(subject: Subject, at: Point)
    ensures Play(subject, at, []) == Some(at)
  {
  }

  // ---------------------------------------------------------------------------
  // Worker records and one Start.

  /** The record of every worker in every reachable state. */
  lemma RecordsAreConsistent(s: System, n: Name)
    requires Reachable(s) && n in s.core.workers
    ensures var w := s.core.workers[n];
            && (w.lifecycle == Registered <==> w.generation == 0)
            && (w.ready || w.acceptingWork ==> w.lifecycle == Starting || w.lifecycle == Running)
            && (w.readySetDuringStart || w.acceptingWorkSetDuringStart || w.failureReportedDuringStart
                ==> w.lifecycle == Starting)
            && (w.lifecycle == Failed ==> w.lastFailure.Some?)
            && (w.lifecycle == Registered || w.lifecycle == Running || w.lifecycle == Draining ==> w.lastFailure.None?)
  {
    hide Reachable;
    ReachableInv(s);
    TheRecord(s.core, n);
  }

  /** The failure reports accepted since the Start or Stop in progress began. */
  function ReportsSinceBegin(s: System): nat
    requires s.mark <= |s.log| && Busy(s.core)
  {
    Count(s.log[s.mark..], IsReport(s.core.gate.activity.name))
  }

  /** The failure events of the Start or Stop in progress, in the given log. */
  function FailureEvents(s: System, log: seq<Event>): nat
    requires s.mark <= |log| && Busy(s.core)
  {
    Count(log[s.mark..], IsLifecycleFailure(s.core.gate.activity.name))
  }

  predicate EndsActivity(s: System, l: Label) {
    Enabled(s.core, l) && Busy(s.core) && (l.CompleteStart? || l.CompleteStop? || l.FailOperation? || l.FailCleanup?)
  }

  predicate EndsStart(s: System, l: Label) {
    EndsActivity(s, l) && s.core.gate.activity.StartingWorker?
  }

  predicate EndsStop(s: System, l: Label) {
    EndsActivity(s, l) && s.core.gate.activity.StoppingWorker?
  }

  /** The record of a Start in progress. */
  ghost predicate InStart(c: Core, n: Name, generation: nat) {
    n in c.workers && c.workers[n].lifecycle == Starting && c.workers[n].generation == generation
    && (c.workers[n].failureReportedDuringStart ==> c.workers[n].lastFailure.Some?)
  }

  lemma CompleteStartEvents(c: Core, n: Name, generation: nat, ready: bool, accepting: bool)
    requires InStart(c, n, generation)
    ensures var o := CompleteWorkerStart(c, n, generation, ready, accepting);
            && n in o.core.workers
            && o.core.workers[n].lifecycle == (if c.workers[n].failureReportedDuringStart then Failed else Running)
            && Count(o.events, IsLifecycleFailure(n)) == 0
  {
    hide Observed;
    CountNone(CompleteWorkerStart(c, n, generation, ready, accepting).events, IsLifecycleFailure(n));
  }

  lemma FailOperationEvents(c: Core, n: Name, generation: nat, err: Error, panicked: bool)
    requires InStart(c, n, generation)
    ensures var o := FailWorker(c, n, generation, err, panicked);
            && n in o.core.workers
            && o.core.workers[n].lifecycle == Failed
            && Count(o.events, IsLifecycleFailure(n)) == if c.workers[n].failureReportedDuringStart then 0 else 1
  {
    hide Commit, ChangeEvents;
    var w, o := c.workers[n], FailWorker(c, n, generation, err, panicked);
    var failure := if w.failureReportedDuringStart then [] else [Failure(n, Operation, err, panicked)];
    CountChange(n, w, MovedToFailed(w, Some(err)), failure, c.status, o.core.status, IsLifecycleFailure(n));
    CountOne(Failure(n, Operation, err, panicked), IsLifecycleFailure(n));
  }

  lemma FailCleanupEvents(c: Core, n: Name, generation: nat, err: Error)
    requires n in c.workers && c.workers[n].generation == generation
    ensures var o := FailLoopCleanup(c, n, generation, err);
            && n in o.core.workers
            && o.core.workers[n].lifecycle == Failed
            && (c.workers[n].lastFailure.Some? ==> o.core.workers[n].lastFailure == c.workers[n].lastFailure)
            && Count(o.events, IsLifecycleFailure(n)) == 1
  {
    hide Commit, ChangeEvents;
    var w, o := c.workers[n], FailLoopCleanup(c, n, generation, err);
    var after := MovedToFailed(w, if w.lastFailure.None? then Some(err) else w.lastFailure);
    CountChange(n, w, after, [Failure(n, CleanupPending, err, false)], c.status, o.core.status, IsLifecycleFailure(n));
    CountOne(Failure(n, CleanupPending, err, false), IsLifecycleFailure(n));
  }

  lemma BusyInStart(c: Core)
    requires CoreOk(c) && Busy(c) && c.gate.activity.StartingWorker?
    ensures InStart(c, c.gate.activity.name, c.gate.activity.generation) && c.gate.activity.name in c.configs
  {
    hide UngatedOk, GateOk;
    BusyRecord(c);
  }

  lemma InStartRecord(c: Core, n: Name, generation: nat)
    requires InStart(c, n, generation)
    ensures n in c.workers && c.workers[n].generation == generation
  {
  }

  /** How one Start ends, and how many failure events it committed. With k accepted reports:
      a completed Start ends failed iff k > 0, with k events; a failed one has k events, or
      one when k is zero; a rejection for pending cleanup adds exactly one event and keeps an
      earlier failure. Attempts that failed before the last one add none. */
  lemma StartFailureEvents(s: System, l: Label)
    requires Reachable(s) && EndsStart(s, l)
    ensures s.mark <= |s.log|
    ensures var n, k, t := s.core.gate.activity.name, ReportsSinceBegin(s), Next(s, l);
            && n in s.core.workers && n in t.core.workers
            && (l.CompleteStart? ==>
                  t.core.workers[n].lifecycle == (if k > 0 then Failed else Running) && FailureEvents(s, t.log) == k)
            && (l.FailOperation? ==>
                  t.core.workers[n].lifecycle == Failed && FailureEvents(s, t.log) == if k > 0 then k else 1)
            && (l.FailCleanup? ==>
                  t.core.workers[n].lifecycle == Failed && FailureEvents(s, t.log) == k + 1
                  && (s.core.workers[n].lastFailure.Some? ==>
                        t.core.workers[n].lastFailure == s.core.workers[n].lastFailure))
  {
    hide Reachable, LogOk, CoreOk, CompleteWorkerStart, FailWorker, FailLoopCleanup, InStart, Count,
         IsLifecycleFailure, IsReport;
    ReachableInv(s);
    BusyInStart(s.core);
    var n, g, o := s.core.gate.activity.name, s.core.gate.activity.generation, Apply(s.core, l);
    assert (s.log + o.events)[s.mark..] == s.log[s.mark..] + o.events;
    CountConcat(s.log[s.mark..], o.events, IsLifecycleFailure(n));
    InStartRecord(s.core, n, g);
    match l
    case CompleteStart =>
      CompleteStartEvents(s.core, n, g, s.core.configs[n].readyOnStart, s.core.configs[n].acceptingWork);
    case FailOperation(err, panicked) => FailOperationEvents(s.core, n, g, err, panicked);
    case FailCleanup(err) => FailCleanupEvents(s.core, n, g, err);
  }

  lemma EndsReportNothing(c: Core, l: Label, n: Name)
    requires Enabled(c, l) && (l.CompleteStart? || l.CompleteStop? || l.FailOperation? || l.FailCleanup?)
    ensures Count(Apply(c, l).events, IsReport(n)) == 0
  {
    hide Observed;
    CountNone(Apply(c, l).events, IsReport(n));
  }

  /** Ending a Start or Stop is no report. */
  lemma EndReportEvents(s: System, l: Label)
    requires Reachable(s) && EndsActivity(s, l)
    ensures s.mark <= |s.log| && Next(s, l).mark == s.mark
    ensures Count(Next(s, l).log[s.mark..], IsReport(s.core.gate.activity.name)) == ReportsSinceBegin(s)
  {
    hide Reachable, LogOk, CoreOk, Apply, Count, IsReport;
    ReachableInv(s);
    var n, o := s.core.gate.activity.name, Apply(s.core, l);
    assert (s.log + o.events)[s.mark..] == s.log[s.mark..] + o.events;
    CountConcat(s.log[s.mark..], o.events, IsReport(n));
    EndsReportNothing(s.core, l, n);
  }

  /** The record of a Stop in progress. */
  ghost predicate InStop(c: Core, n: Name, generation: nat) {
    n in c.workers && c.workers[n].lifecycle == Stopping && c.workers[n].generation == generation
    && !c.workers[n].failureReportedDuringStart
  }

  lemma CompleteStopEvents(c: Core, n: Name, generation: nat)
    requires InStop(c, n, generation)
    ensures var o := CompleteWorkerStop(c, n, generation);
            n in o.core.workers && o.core.workers[n].lifecycle == Stopped && Count(o.events, IsLifecycleFailure(n)) == 0
  {
    hide Observed;
    CountNone(CompleteWorkerStop(c, n, generation).events, IsLifecycleFailure(n));
  }

  /** The terminal failure of a Stop is never suppressed. */
  lemma FailStopEvents(c: Core, n: Name, generation: nat, err: Error, panicked: bool)
    requires InStop(c, n, generation)
    ensures var o := FailWorker(c, n, generation, err, panicked);
            n in o.core.workers && o.core.workers[n].lifecycle == Failed && Count(o.events, IsLifecycleFailure(n)) == 1
  {
    hide Commit, ChangeEvents;
    var w, o := c.workers[n], FailWorker(c, n, generation, err, panicked);
    var failure := Failure(n, Operation, err, panicked);
    CountChange(n, w, MovedToFailed(w, Some(err)), [failure], c.status, o.core.status, IsLifecycleFailure(n));
    CountOne(failure, IsLifecycleFailure(n));
  }

  lemma BusyInStop(c: Core)
    requires CoreOk(c) && Busy(c) && c.gate.activity.StoppingWorker?
    ensures InStop(c, c.gate.activity.name, c.gate.activity.generation)
  {
    hide UngatedOk, GateOk;
    BusyRecord(c);
  }

  /** How one Stop ends, and how many failure events it committed: one for each report
      accepted meanwhile, and exactly one more if it fails. */
  lemma StopFailureEvents(s: System, l: Label)
    requires Reachable(s) && EndsStop(s, l)
    ensures s.mark <= |s.log|
    ensures var n, k, t := s.core.gate.activity.name, ReportsSinceBegin(s), Next(s, l);
            && n in t.core.workers
            && (l.CompleteStop? ==> t.core.workers[n].lifecycle == Stopped && FailureEvents(s, t.log) == k)
            && (!l.CompleteStop? ==> t.core.workers[n].lifecycle == Failed && FailureEvents(s, t.log) == k + 1)
  {
    hide Reachable, LogOk, CoreOk, CompleteWorkerStop, FailWorker, FailLoopCleanup, InStop, Count, IsLifecycleFailure,
         IsReport;
    ReachableInv(s);
    BusyInStop(s.core);
    var n, g, o := s.core.gate.activity.name, s.core.gate.activity.generation, Apply(s.core, l);
    assert (s.log + o.events)[s.mark..] == s.log[s.mark..] + o.events;
    CountConcat(s.log[s.mark..], o.events, IsLifecycleFailure(n));
    InStopRecord(s.core, n, g);
    match l
    case CompleteStop => CompleteStopEvents(s.core, n, g);
    case FailOperation(err, panicked) => FailStopEvents(s.core, n, g, err, panicked);
    case FailCleanup(err) => FailCleanupEvents(s.core, n, g, err);
  }

  lemma InStopRecord(c: Core, n: Name, generation: nat)
    requires InStop(c, n, generation)
    ensures n in c.workers && c.workers[n].generation == generation
  {
  }

  // ---------------------------------------------------------------------------
  // Stale generations.

  ghost predicate IsStale(c: Core, h: Handle) {
    h.worker !in c.workers || c.workers[h.worker].generation != h.generation
  }

  /** A step of a handle, or a recorded command failure, of an older generation. */
  ghost predicate IsStaleStep(c: Core, l: Label)
    requires Enabled(c, l)
  {
    match l
    case SetReady(h, _) => IsStale(c, h)
    case SetAcceptingWork(h, _) => IsStale(c, h)
    case ReportFailure(h, _) => IsStale(c, h)
    case ObserveCleanup(h, _, _) => IsStale(c, h)
    case CommandFailed(id, _) => IsStale(c, c.dispatches[id])
    case CommandPanicked(id, _) => IsStale(c, c.dispatches[id])
    case _ => false
  }

  /** Every handle and every admitted command carries a generation between one and the
      worker's current one. */
  lemma OutstandingGenerations(s: System, h: Handle)
    requires Reachable(s)
    requires h in s.core.handles || h in s.core.dispatches.Values
    ensures h.worker in s.core.workers && 1 <= h.generation <= s.core.workers[h.worker].generation
  {
    ReachableInv(s);
    assert Issued(s.core, h);
  }

  /** A stale step changes no record, no status and nothing else of the runtime. */
  lemma StaleStepChangesNothing(c: Core, l: Label)
    requires Enabled(c, l) && IsStaleStep(c, l)
    ensures Apply(c, l).core == c
  {
    hide Observed, Commit;
  }

  /** A run without its stale steps. */
  ghost function Erase(s: System, run: seq<Label>): seq<Label>
    requires IsRun(s, run)
    decreases |run|
  {
    if run == [] then []
    else if IsStaleStep(s.core, run[0]) then Erase(Next(s, run[0]), run[1..])
    else [run[0]] + Erase(Next(s, run[0]), run[1..])
  }

  /** Erasing the stale steps from a run leaves a run that ends in the same runtime state;
      only the log may differ, as stale command failures are still observed. */
  lemma {:induction false} StaleStepsCanBeErased(s: System, t: System, run: seq<Label>)
    requires IsRun(s, run) && t.core == s.core
    ensures IsRun(t, Erase(s, run)) && After(t, Erase(s, run)).core == After(s, run).core
    decreases |run|
  {
    hide Apply, IsStaleStep, Enabled;
    if run != [] {
      var l, rest := run[0], run[1..];
      if IsStaleStep(s.core, l) {
        StaleStepChangesNothing(s.core, l);
        StaleStepsCanBeErased(Next(s, l), t, rest);
      } else {
        StaleStepsCanBeErased(Next(s, l), Next(t, l), rest);
        var erased := Erase(s, run);
        assert erased[0] == l && erased[1..] == Erase(Next(s, l), rest);
      }
    }
  }
}
