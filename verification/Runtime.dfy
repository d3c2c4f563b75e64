/** runtime.go as code: the Runtime class and its mutex-guarded steps. The operations made of
    them are in LifecycleOperations, BulkOperations, Shutdown and CommandDispatch. */
module WorkerkitRuntime {
  import opened Basics
  import opened Lifecycle
  import opened RuntimeStatus
  import opened RuntimeSafety
  import opened RuntimeTheorems
  import Steps = RuntimeSteps

  class Runtime {
    const config: RuntimeConfig
    var workerOrder: seq<Name>
    var workerConfigs: map<Name, WorkerConfig>
    var workerStates: map<Name, Worker>
    var status: Status
    var commandAdmissionClosed: bool
    var commandDispatchSeq: nat

    // Who holds the lifecycle gate, and which handles and dispatches are outstanding. The source
    // keeps these in goroutines and closures; here Interfere and LetEveryone read them to choose
    // what the other parties do next.
    var gate: Steps.Gate
    var handles: set<Steps.Handle>
    var pending: set<nat>
    var dispatches: map<nat, Steps.Handle>
    var replies: map<nat, Steps.Call>

    // The committed events, and where the Start or Stop in progress began.
    ghost var log: seq<Event>
    ghost var mark: nat

    function CoreView(): Steps.Core
      reads this
    {
      Steps.Core(config, workerOrder, workerStates, workerConfigs, status, commandAdmissionClosed,
                 gate, handles, pending, dispatches, commandDispatchSeq, replies)
    }

    ghost function View(): Steps.System
      reads this
    {
      Steps.System(CoreView(), log, mark)
    }

    /** The object is in a state some run of the step system reaches. */
    ghost predicate Valid()
      reads this
    {
      Reachable(View())
    }

    /** The state is s with one outcome committed. */
    ghost predicate Now(s: Steps.System, o: Steps.Outcome)
      reads this
    {
      View() == Steps.System(o.core, s.log + o.events, s.mark)
    }

    constructor (config: RuntimeConfig)
      ensures Valid() && View() == Steps.NewSystem(config)
    {
      NewSystemReachable(config);
      this.config := config;
      workerOrder, workerConfigs, workerStates := [], map[], map[];
      status := Status(Registered, false, 0, 0, None);
      commandAdmissionClosed, commandDispatchSeq := false, 0;
      gate, handles, pending, dispatches, replies := Steps.Free, {}, {}, map[], map[];
      log, mark := [], 0;
    }

    // -------------------------------------------------------------------------
    // The aggregate status.

    /** One pass over the worker map, in any order, collects exactly the declared facts. */
    method StatusFacts() returns (facts: Facts)
      ensures facts == FactsOf(workerStates, workerConfigs)
    {
      hide Noted, FactsSoFar, FactsOf, Visited;
      var any := |workerStates| > 0;
      facts := Facts(any, false, false, false, false, false, any, any, false, false, 0, true, true);
      var todo := workerStates.Keys;
      VisitedEnds(workerStates);
      FactsSoFarEnds(workerStates, workerConfigs);
      while todo != {}
        invariant todo <= workerStates.Keys
        invariant facts == FactsSoFar(any, Visited(workerStates, todo), workerConfigs)
      {
        var name :| name in todo;
        VisitedGrows(workerStates, todo, name);
        NotedExtends(any, Visited(workerStates, todo), workerConfigs, name, workerStates[name]);
        facts := Noted(facts, name, workerStates[name], workerConfigs);
        todo := todo - {name};
      }
    }

    method RecomputeStatus()
      modifies this`status
      ensures CoreView() == Steps.Recompute(old(CoreView()))
    {
      hide FactsOf;
      var facts := StatusFacts();
      var next := DeriveState(facts, status.state);
      status := status.(state := next,
                        ready := DeriveReady(facts, config.readinessPolicy),
                        workers := |workerStates|,
                        lastTransition := DeriveChange(status.state, next, status.lastTransition));
    }

    /** Stores a record, derives the status anew, and commits the events of the change. */
    method CommitWorkerState(name: Name, after: Worker, ghost failure: seq<Event>)
      requires name in workerStates
      modifies this`workerStates, this`status, this`log
      ensures Now(old(View()), Steps.Observed(old(CoreView()), name, after, failure, Steps.Done))
    {
      hide Steps.Recompute;
      ghost var before, prev := workerStates[name], status;
      workerStates := workerStates[name := after];
      RecomputeStatus();
      log := log + Steps.ChangeEvents(name, before, after, failure, prev, status);
    }

    // -------------------------------------------------------------------------
    // Registration and lifecycle steps.

    method RegisterWorker(name: Name, config: WorkerConfig) returns (result: Steps.Result)
      modifies this
      ensures var o := Steps.RegisterWorker(old(CoreView()), name, config); Now(old(View()), o) && result == o.result
    {
      hide Steps.Recompute;
      if status.state != Registered {
        return Steps.InvalidState;
      }
      if name in workerConfigs {
        return Steps.AlreadyRegistered;
      }
      workerOrder := workerOrder + [name];
      workerConfigs := workerConfigs[name := config];
      workerStates := workerStates[name := NewWorker];
      RecomputeStatus();
      return Steps.Done;
    }

    method BeginWorkerStart(name: Name) returns (result: Steps.Result)
      modifies this
      ensures var o := Steps.BeginWorkerStart(old(CoreView()), name); Now(old(View()), o) && result == o.result
    {
      hide Steps.Observed, Steps.BeginWorkerStart;
      BeginStartCases(CoreView(), name);
      if name !in workerStates {
        return Steps.NotFound;
      }
      var state := workerStates[name];
      match state.lifecycle {
        case Registered | Stopped | Failed =>
        case _ => return Steps.InvalidState;
      }
      state := state.(generation := state.generation + 1);
      state := state.(lastTransition := Some(Change(state.lifecycle, Starting)));
      state := state.(lifecycle := Starting, ready := false, acceptingWork := false);
      state := state.(readySetDuringStart := false, acceptingWorkSetDuringStart := false,
                      failureReportedDuringStart := false);
      ResultAside(CoreView(), name, state, Steps.Began(state.generation));
      CommitWorkerState(name, state, []);
      return Steps.Began(state.generation);
    }

    method BeginWorkerStop(name: Name) returns (result: Steps.Result)
      modifies this
      ensures var o := Steps.BeginWorkerStop(old(CoreView()), name); Now(old(View()), o) && result == o.result
    {
      hide Steps.Observed, Steps.BeginWorkerStop;
      BeginStopCases(CoreView(), name);
      if name !in workerStates {
        return Steps.NotFound;
      }
      var state := workerStates[name];
      match state.lifecycle {
        case Running | Draining | Failed =>
        case _ => return Steps.InvalidState;
      }
      state := state.(lastTransition := Some(Change(state.lifecycle, Stopping)));
      state := state.(lifecycle := Stopping, ready := false, acceptingWork := false);
      state := state.(readySetDuringStart := false, acceptingWorkSetDuringStart := false);
      ResultAside(CoreView(), name, state, Steps.Began(state.generation));
      CommitWorkerState(name, state, []);
      return Steps.Began(state.generation);
    }

    method BeginWorkerDrain(name: Name) returns (result: Steps.Result)
      modifies this
      ensures var o := Steps.BeginWorkerDrain(old(CoreView()), name); Now(old(View()), o) && result == o.result
    {
      hide Steps.Observed, Steps.Recompute;
      if name !in workerStates {
        return Steps.NotFound;
      }
      var state := workerStates[name];
      match state.lifecycle {
        case Draining =>
          state := state.(ready := false, acceptingWork := false);
          workerStates := workerStates[name := state];
          RecomputeStatus();
          return Steps.Done;
        case Running =>
        case _ => return Steps.InvalidState;
      }
      state := state.(lastTransition := Some(Change(state.lifecycle, Draining)));
      state := state.(lifecycle := Draining, ready := false, acceptingWork := false);
      CommitWorkerState(name, state, []);
      return Steps.Done;
    }

    method CompleteWorkerStop(name: Name, generation: nat) returns (result: Steps.Result)
      requires name in workerStates
      modifies this
      ensures var o := Steps.CompleteWorkerStop(old(CoreView()), name, generation);
              Now(old(View()), o) && result == o.result
    {
      hide Steps.Observed;
      var state := workerStates[name];
      result := Steps.Done;
      if state.generation != generation {
        result := Steps.StaleGeneration;
      } else if state.lifecycle != Stopping {
        result := Steps.InvalidState;
      } else {
        state := state.(lastTransition := Some(Change(state.lifecycle, Stopped)));
        state := state.(lifecycle := Stopped, ready := false, acceptingWork := false);
        state := state.(readySetDuringStart := false, acceptingWorkSetDuringStart := false);
        CommitWorkerState(name, state, []);
      }
    }

    method CompleteWorkerStart(name: Name, generation: nat, defaultReady: bool, defaultAcceptingWork: bool)
      returns (result: Steps.Result)
      requires name in workerStates
      modifies this
      ensures var o := Steps.CompleteWorkerStart(old(CoreView()), name, generation, defaultReady, defaultAcceptingWork);
              Now(old(View()), o) && result == o.result
    {
      hide Steps.Observed;
      var state := workerStates[name];
      result := Steps.Done;
      if state.generation != generation {
        result := Steps.StaleGeneration;
      } else if state.lifecycle != Starting {
        result := Steps.InvalidState;
      } else if state.failureReportedDuringStart {
        state := state.(lastTransition := Some(Change(state.lifecycle, Failed)));
        state := state.(lifecycle := Failed, ready := false, acceptingWork := false);
        state := state.(readySetDuringStart := false, acceptingWorkSetDuringStart := false,
                        failureReportedDuringStart := false);
        CommitWorkerState(name, state, []);
      } else {
        state := state.(lastTransition := Some(Change(state.lifecycle, Running)));
        state := state.(lifecycle := Running);
        if !state.readySetDuringStart {
          state := state.(ready := defaultReady);
        }
        if !state.acceptingWorkSetDuringStart {
          state := state.(acceptingWork := defaultAcceptingWork);
        }
        state := state.(readySetDuringStart := false, acceptingWorkSetDuringStart := false,
                        failureReportedDuringStart := false, lastFailure := None);
        CommitWorkerState(name, state, []);
      }
    }

    method FailWorker(name: Name, generation: nat, err: Error, panicked: bool)
      requires name in workerStates
      modifies this
      ensures Now(old(View()), Steps.FailWorker(old(CoreView()), name, generation, err, panicked))
    {
      hide Steps.Observed, Steps.FailWorker;
      FailCases(CoreView(), name, generation, err, panicked);
      var state := workerStates[name];
      if state.generation == generation {
        var suppressFailureEvent := state.lastFailure.Some?
            && (state.lifecycle == Failed || state.failureReportedDuringStart);
        state := state.(lastTransition := Some(Change(state.lifecycle, Failed)));
        state := state.(lifecycle := Failed, ready := false, acceptingWork := false);
        state := state.(readySetDuringStart := false, acceptingWorkSetDuringStart := false,
                        failureReportedDuringStart := false, lastFailure := Some(err));
        CommitWorkerState(name, state, if suppressFailureEvent then [] else [Failure(name, Operation, err, panicked)]);
      }
    }

    method FailLoopCleanup(name: Name, generation: nat, err: Error)
      requires name in workerStates
      modifies this
      ensures Now(old(View()), Steps.FailLoopCleanup(old(CoreView()), name, generation, err))
    {
      hide Steps.Observed;
      var state := workerStates[name];
      if state.generation == generation {
        state := state.(lastTransition := Some(Change(state.lifecycle, Failed)));
        state := state.(lifecycle := Failed, ready := false, acceptingWork := false);
        state := state.(readySetDuringStart := false, acceptingWorkSetDuringStart := false,
                        failureReportedDuringStart := false);
        if state.lastFailure.None? {
          state := state.(lastFailure := Some(err));
        }
        CommitWorkerState(name, state, [Failure(name, CleanupPending, err, false)]);
      }
    }

    /** Records a failed attempt without an event and without deriving the status. */
    method RecordWorkerFailureStatus(name: Name, generation: nat, err: Error)
      requires name in workerStates
      modifies this
      ensures Now(old(View()), Steps.RecordWorkerFailureStatus(old(CoreView()), name, generation, err))
    {
      var state := workerStates[name];
      if state.generation == generation {
        workerStates := workerStates[name := state.(lastFailure := Some(err))];
      }
    }

    // -------------------------------------------------------------------------
    // Steps of worker handles.

    method SetWorkerReady(name: Name, generation: nat, ready: bool) returns (result: Steps.Result)
      modifies this
      ensures var o := Steps.SetWorkerReady(old(CoreView()), name, generation, ready);
              Now(old(View()), o) && result == o.result
    {
      hide Steps.Observed;
      if name !in workerStates {
        return Steps.NotFound;
      }
      var state := workerStates[name];
      if state.generation != generation {
        return Steps.StaleGeneration;
      }
      if !AllowsRuntimeMutation(state.lifecycle) {
        return Steps.InvalidState;
      }
      if ready && !AllowsPositiveSignal(state.lifecycle) {
        return Steps.InvalidState;
      }
      state := state.(ready := ready);
      if state.lifecycle == Starting {
        state := state.(readySetDuringStart := true);
      }
      CommitWorkerState(name, state, []);
      return Steps.Done;
    }

    method SetWorkerAcceptingWork(name: Name, generation: nat, accepting: bool) returns (result: Steps.Result)
      modifies this`workerStates, this`status
      ensures var o := Steps.SetWorkerAcceptingWork(old(CoreView()), name, generation, accepting);
              CoreView() == o.core && result == o.result
    {
      hide Steps.Recompute;
      if name !in workerStates {
        return Steps.NotFound;
      }
      var state := workerStates[name];
      if state.generation != generation {
        return Steps.StaleGeneration;
      }
      if !AllowsRuntimeMutation(state.lifecycle) {
        return Steps.InvalidState;
      }
      if accepting && !AllowsPositiveSignal(state.lifecycle) {
        return Steps.InvalidState;
      }
      state := state.(acceptingWork := accepting);
      if state.lifecycle == Starting {
        state := state.(acceptingWorkSetDuringStart := true);
      }
      workerStates := workerStates[name := state];
      RecomputeStatus();
      return Steps.Done;
    }

    method ReportWorkerFailure(name: Name, generation: nat, err: Error) returns (result: Steps.Result)
      modifies this
      ensures var o := Steps.ReportWorkerFailure(old(CoreView()), name, generation, err);
              Now(old(View()), o) && result == o.result
    {
      hide Steps.Observed, Steps.ReportWorkerFailure;
      ReportCases(CoreView(), name, generation, err);
      if name !in workerStates {
        return Steps.NotFound;
      }
      var state := workerStates[name];
      if state.generation != generation {
        return Steps.StaleGeneration;
      }
      match state.lifecycle {
        case Starting | Running | Draining | Stopping =>
        case _ => return Steps.InvalidState;
      }
      ghost var before := state;
      if state.lifecycle == Starting || state.lifecycle == Stopping {
        state := state.(ready := false, acceptingWork := false);
        state := state.(readySetDuringStart := false, acceptingWorkSetDuringStart := false,
                        failureReportedDuringStart := state.lifecycle == Starting, lastFailure := Some(err));
        assert state == before.(ready := false, acceptingWork := false, readySetDuringStart := false,
                                acceptingWorkSetDuringStart := false,
                                failureReportedDuringStart := before.lifecycle == Starting, lastFailure := Some(err));
        CommitWorkerState(name, state, [Failure(name, Report, err, false)]);
        return Steps.Done;
      }
      state := state.(lastTransition := Some(Change(state.lifecycle, Failed)));
      state := state.(lifecycle := Failed, ready := false, acceptingWork := false);
      state := state.(readySetDuringStart := false, acceptingWorkSetDuringStart := false,
                      failureReportedDuringStart := false, lastFailure := Some(err));
      assert state == Steps.MovedToFailed(before, Some(err));
      CommitWorkerState(name, state, [Failure(name, Report, err, false)]);
      return Steps.Done;
    }

    method ObserveLoopCleanupFailure(name: Name, err: Error, panicked: bool)
      modifies this`log
      ensures Now(old(View()), Steps.Outcome(old(CoreView()), [Failure(name, AutomaticCleanup, err, panicked)],
                Steps.Done))
    {
      log := log + [Failure(name, AutomaticCleanup, err, panicked)];
    }

    // -------------------------------------------------------------------------
    // Steps of command dispatches.

    method NextCommandDispatchID() returns (id: nat)
      modifies this
      ensures id == old(commandDispatchSeq) && View() == Steps.Next(old(View()), Steps.NewDispatch)
    {
      id := commandDispatchSeq;
      pending := pending + {id};
      commandDispatchSeq := commandDispatchSeq + 1;
    }

    method AdmitCommand(id: nat, name: Name) returns (result: Steps.Result)
      modifies this`workerStates, this`status, this`dispatches
      ensures var o := Steps.AdmitCommand(old(CoreView()), id, name); CoreView() == o.core && result == o.result
    {
      if commandAdmissionClosed {
        return Steps.RuntimeNotAccepting;
      }
      match status.state {
        case Failed | Stopped | Registered => return Steps.RuntimeNotAccepting;
        case _ =>
      }
      if name !in workerStates {
        return Steps.NotFound;
      }
      var state := workerStates[name];
      if state.lifecycle != Running {
        return Steps.InvalidState;
      }
      if !state.acceptingWork {
        return Steps.WorkerNotAccepting;
      }
      if this.config.commandConcurrency > 0 && status.inFlight >= config.commandConcurrency {
        return Steps.RuntimeSaturated;
      }
      if name in workerConfigs && workerConfigs[name].commandConcurrency > 0
         && state.inFlight >= workerConfigs[name].commandConcurrency {
        return Steps.WorkerSaturated;
      }
      AdmittedCase(CoreView(), id, name);
      hide Steps.AdmitCommand;
      state := state.(inFlight := state.inFlight + 1);
      workerStates := workerStates[name := state];
      status := status.(inFlight := status.inFlight + 1);
      dispatches := dispatches[id := Steps.Handle(name, state.generation)];
      return Steps.Began(state.generation);
    }

    method ReleaseCommandSlot(id: nat, name: Name)
      modifies this
      ensures Now(old(View()), Steps.ReleaseCommandSlot(old(CoreView()), id, name))
    {
      if name !in workerStates {
        return;
      }
      var state := workerStates[name];
      if state.inFlight > 0 {
        state := state.(inFlight := state.inFlight - 1);
      }
      workerStates := workerStates[name := state];
      if status.inFlight > 0 {
        status := status.(inFlight := status.inFlight - 1);
      }
      dispatches := dispatches - {id};
      log := log + [SlotReleased(id)];
    }

    method RecordCommandFailure(id: nat, name: Name, generation: nat, err: Error)
      requires name in workerStates
      modifies this
      ensures Now(old(View()), Steps.RecordCommandFailure(old(CoreView()), id, name, generation, err))
    {
      var state := workerStates[name];
      if state.generation == generation {
        workerStates := workerStates[name := state.(lastCommandFailure := Some(err))];
      }
      log := log + [Failure(name, Command(id), err, false)];
    }

    method RecordCommandPanic(id: nat, name: Name, generation: nat, err: Error)
      requires name in workerStates
      modifies this
      ensures Now(old(View()), Steps.RecordCommandPanic(old(CoreView()), id, name, generation, err))
    {
      hide Steps.Observed, Steps.RecordCommandPanic;
      Steps.PanicCases(CoreView(), id, name, generation, err);
      ghost var event := [Failure(name, Command(id), err, true)];
      var state := workerStates[name];
      ghost var before := state;
      if state.generation == generation {
        state := state.(lastCommandFailure := Some(err));
        match state.lifecycle {
          case Running | Draining =>
            state := state.(lastTransition := Some(Change(state.lifecycle, Failed)));
            state := state.(lifecycle := Failed, ready := false, acceptingWork := false);
            state := state.(readySetDuringStart := false, acceptingWorkSetDuringStart := false,
                            failureReportedDuringStart := false, lastFailure := Some(err));
            assert state == Steps.MovedToFailed(before, Some(err)).(lastCommandFailure := Some(err));
            CommitWorkerState(name, state, event);
            return;
          case _ =>
            workerStates := workerStates[name := state];
        }
      }
      log := log + event;
    }

    // -------------------------------------------------------------------------
    // Every step of the step system, carried out by the code above.

    method StepHandle(l: Steps.Label) returns (result: Steps.Result)
      requires Steps.Enabled(CoreView(), l) && Steps.IsHandleStep(l)
      modifies this
      ensures View() == Steps.Next(old(View()), l)
      ensures result == Steps.Apply(old(CoreView()), l).result
    {
      hide Steps.SetWorkerReady, Steps.SetWorkerAcceptingWork, Steps.ReportWorkerFailure;
      match l {
        case SetReady(h, ready) =>
          result := SetWorkerReady(h.worker, h.generation, ready);
        case SetAcceptingWork(h, accepting) =>
          AcceptingWorkIsSilent(CoreView(), h.worker, h.generation, accepting);
          result := SetWorkerAcceptingWork(h.worker, h.generation, accepting);
        case ReportFailure(h, err) =>
          result := ReportWorkerFailure(h.worker, h.generation, err);
        case ObserveCleanup(h, err, panicked) =>
          ObserveLoopCleanupFailure(h.worker, err, panicked);
          result := Steps.Done;
      }
    }

    method StepSlot(l: Steps.Label) returns (result: Steps.Result)
      requires Steps.Enabled(CoreView(), l) && (l.NewDispatch? || l.Admit? || l.Release?)
      modifies this
      ensures View() == Steps.Next(old(View()), l)
      ensures result == Steps.Apply(old(CoreView()), l).result
    {
      hide Steps.AdmitCommand, Steps.ReleaseCommandSlot;
      result := Steps.Done;
      match l {
        case NewDispatch =>
          var _ := NextCommandDispatchID();
        case Admit(id, name) =>
          pending, replies := pending - {id}, replies - {id};
          AdmissionIsSilent(CoreView(), id, name);
          result := AdmitCommand(id, name);
        case Release(id) =>
          result := if dispatches[id].worker in workerStates then Steps.Done else Steps.NotFound;
          ReleaseResult(CoreView(), id);
          ReleaseCommandSlot(id, dispatches[id].worker);
      }
    }

    method StepHandler(l: Steps.Label) returns (result: Steps.Result)
      requires Steps.Enabled(CoreView(), l) && (l.CallHandler? || l.HandlerReturns? || l.EndObservation?)
      modifies this
      ensures View() == Steps.Next(old(View()), l)
      ensures result == Steps.Apply(old(CoreView()), l).result
    {
      hide Steps.MayBeCalled;
      result := Steps.Done;
      match l {
        case CallHandler(id) =>
          handles, replies := handles + {dispatches[id]}, replies[id := Steps.InProgress];
          log := log + [HandlerCalled(id)];
        case HandlerReturns(id, outcome) =>
          replies := replies[id := Steps.Answered(outcome)];
          log := log + [HandlerReturned(id, outcome)];
        case EndObservation(id, attempts, success) =>
          log := log + [ObservationEnded(id, attempts, success)];
      }
    }

    method StepCommand(l: Steps.Label) returns (result: Steps.Result)
      requires Steps.Enabled(CoreView(), l) && (l.CommandFailed? || l.CommandPanicked?)
      modifies this
      ensures View() == Steps.Next(old(View()), l)
      ensures result == Steps.Apply(old(CoreView()), l).result
    {
      hide Steps.RecordCommandFailure, Steps.RecordCommandPanic;
      result := Steps.Done;
      match l {
        case CommandFailed(id, err) =>
          CommandResults(CoreView(), id, err);
          RecordCommandFailure(id, dispatches[id].worker, dispatches[id].generation, err);
        case CommandPanicked(id, err) =>
          CommandResults(CoreView(), id, err);
          RecordCommandPanic(id, dispatches[id].worker, dispatches[id].generation, err);
      }
    }

    method StepGate(l: Steps.Label) returns (result: Steps.Result)
      requires Steps.Enabled(CoreView(), l)
      requires l.AcquireGate? || l.ReleaseGate? || l.CloseAdmission? || l.RestoreAdmission? || l.CallStart?
               || l.CallStop? || l.Answer?
      modifies this
      ensures View() == Steps.Next(old(View()), l)
      ensures result == Steps.Apply(old(CoreView()), l).result
    {
      result := Steps.Done;
      match l {
        case AcquireGate => gate := Steps.Held(Steps.Idle, None, Steps.NotCalled);
        case ReleaseGate => gate := Steps.Free;
        case CloseAdmission =>
          gate := gate.(cutoff := Some(commandAdmissionClosed));
          commandAdmissionClosed := true;
        case RestoreAdmission =>
          commandAdmissionClosed := gate.cutoff.value;
          gate := gate.(cutoff := None);
        case CallStart =>
          handles := handles + {Steps.Handle(gate.activity.name, gate.activity.generation)};
          log := log + [StartCalled(gate.activity.name, gate.activity.generation)];
          gate := gate.(call := Steps.InProgress);
        case CallStop =>
          handles := handles + {Steps.Handle(gate.activity.name, gate.activity.generation)};
          log := log + [StopCalled(gate.activity.name, gate.activity.generation, status.inFlight,
                                   workerStates[gate.activity.name].inFlight)];
          gate := gate.(call := Steps.InProgress);
        case Answer(outcome) =>
          log := log + [CallReturned(gate.activity.name, outcome)];
          gate := gate.(call := Steps.Answered(outcome));
      }
    }

    method StepBegin(l: Steps.Label) returns (result: Steps.Result)
      requires Steps.Enabled(CoreView(), l)
      requires l.Register? || l.BeginStart? || l.BeginStop? || l.BeginDrain?
      modifies this
      ensures View() == Steps.Next(old(View()), l)
      ensures result == Steps.Apply(old(CoreView()), l).result
    {
      hide Steps.Observed, Steps.RegisterWorker, Steps.BeginWorkerDrain;
      match l {
        case Register(name, config) => result := RegisterWorker(name, config);
        case BeginStart(name) =>
          ghost var began := |log|;
          result := BeginWorkerStart(name);
          if result.Began? {
            gate := gate.(activity := Steps.StartingWorker(name, result.generation), call := Steps.NotCalled);
            mark := began;
          }
        case BeginStop(name) =>
          ghost var began := |log|;
          result := BeginWorkerStop(name);
          if result.Began? {
            gate := gate.(activity := Steps.StoppingWorker(name, result.generation), call := Steps.NotCalled);
            mark := began;
          }
        case BeginDrain(name) => result := BeginWorkerDrain(name);
      }
    }

    method StepBusy(l: Steps.Label) returns (result: Steps.Result)
      requires Valid() && Steps.Enabled(CoreView(), l)
      requires l.RecordFailure? || l.CompleteStart? || l.CompleteStop? || l.FailOperation? || l.FailCleanup?
      modifies this
      ensures View() == Steps.Next(old(View()), l)
      ensures result == Steps.Apply(old(CoreView()), l).result == Steps.Done
    {
      hide Reachable, Steps.Observed;
      BusyResults(View());
      var a := gate.activity;
      result := Steps.Done;
      match l {
        case RecordFailure(err) =>
          RecordWorkerFailureStatus(a.name, a.generation, err);
          return;
        case CompleteStart =>
          result := CompleteWorkerStart(a.name, a.generation, workerConfigs[a.name].readyOnStart,
                workerConfigs[a.name].acceptingWork);
        case CompleteStop => result := CompleteWorkerStop(a.name, a.generation);
        case FailOperation(err, panicked) => FailWorker(a.name, a.generation, err, panicked);
        case FailCleanup(err) => FailLoopCleanup(a.name, a.generation, err);
      }
      gate := gate.(activity := Steps.Idle, call := Steps.NotCalled);
    }

    /** Any enabled step, carried out by the code: the object stays in a reachable state. */
    method Step(l: Steps.Label) returns (result: Steps.Result)
      requires Valid() && Steps.Enabled(CoreView(), l)
      modifies this
      ensures Valid() && View() == Steps.Next(old(View()), l)
      ensures result == Steps.Apply(old(CoreView()), l).result
    {
      hide Reachable, Steps.Enabled, Steps.Apply, Steps.Next;
      StepStaysReachable(View(), l);
      if Steps.IsHandleStep(l) {
        result := StepHandle(l);
      } else if l.NewDispatch? || l.Admit? || l.Release? {
        result := StepSlot(l);
      } else if l.CommandFailed? || l.CommandPanicked? {
        result := StepCommand(l);
      } else if Steps.IsDispatchStep(l) {
        result := StepHandler(l);
      } else if l.Register? || l.BeginStart? || l.BeginStop? || l.BeginDrain? {
        result := StepBegin(l);
      } else if l.RecordFailure? || l.CompleteStart? || l.CompleteStop? || l.FailOperation? || l.FailCleanup? {
        result := StepBusy(l);
      } else {
        result := StepGate(l);
      }
    }
  }

  /** The result an outcome carries does not enter its state and events. */
  lemma ResultAside(c: Steps.Core, name: Name, after: Worker, result: Steps.Result)
    requires name in c.workers
    ensures Steps.Observed(c, name, after, [], result)
         == Steps.Observed(c, name, after, [], Steps.Done).(result := result)
  {
  }

  // The steps, case by case.

  lemma BeginStartCases(c: Steps.Core, name: Name)
    ensures var o := Steps.BeginWorkerStart(c, name);
            if name !in c.workers then o == Steps.Reject(c, Steps.NotFound)
            else
              var w := c.workers[name];
              if w.lifecycle in {Registered, Stopped, Failed} then
                o == Steps.Observed(c, name,
                       Steps.Moved(w, Starting).(generation := w.generation + 1, failureReportedDuringStart := false),
                       [], Steps.Began(w.generation + 1))
              else o == Steps.Reject(c, Steps.InvalidState)
  {
    hide Steps.Observed;
  }

  lemma BeginStopCases(c: Steps.Core, name: Name)
    ensures var o := Steps.BeginWorkerStop(c, name);
            if name !in c.workers then o == Steps.Reject(c, Steps.NotFound)
            else
              var w := c.workers[name];
              if w.lifecycle in {Running, Draining, Failed} then
                o == Steps.Observed(c, name, Steps.Moved(w, Stopping), [], Steps.Began(w.generation))
              else o == Steps.Reject(c, Steps.InvalidState)
  {
    hide Steps.Observed;
  }

  lemma AdmittedCase(c: Steps.Core, id: nat, name: Name)
    requires !c.admissionClosed && c.status.state !in {Failed, Stopped, Registered} && name in c.workers
    requires c.workers[name].lifecycle == Running && c.workers[name].acceptingWork
    requires !(c.config.commandConcurrency > 0 && c.status.inFlight >= c.config.commandConcurrency)
    requires !(name in c.configs && c.configs[name].commandConcurrency > 0
             && c.workers[name].inFlight >= c.configs[name].commandConcurrency)
    ensures var w := c.workers[name];
            Steps.AdmitCommand(c, id, name)
            == Steps.Outcome(
                 c.(workers := c.workers[name := w.(inFlight := w.inFlight + 1)],
                    status := c.status.(inFlight := c.status.inFlight + 1),
                    dispatches := c.dispatches[id := Steps.Handle(name, w.generation)]),
                 [], Steps.Began(w.generation))
  {
  }

  lemma FailCases(c: Steps.Core, name: Name, generation: nat, err: Error, panicked: bool)
    requires name in c.workers
    ensures var o, w := Steps.FailWorker(c, name, generation, err, panicked), c.workers[name];
            var suppress := w.lastFailure.Some? && (w.lifecycle == Failed || w.failureReportedDuringStart);
            if w.generation != generation then o == Steps.Reject(c, Steps.StaleGeneration)
            else o == Steps.Observed(c, name, Steps.MovedToFailed(w, Some(err)),
                                     if suppress then [] else [Failure(name, Operation, err, panicked)], Steps.Done)
  {
    hide Steps.Observed;
  }

  lemma ReportCases(c: Steps.Core, name: Name, generation: nat, err: Error)
    ensures var o := Steps.ReportWorkerFailure(c, name, generation, err);
            if name !in c.workers then o == Steps.Reject(c, Steps.NotFound)
            else
              var w := c.workers[name];
              var event := [Failure(name, Report, err, false)];
              if w.generation != generation then o == Steps.Reject(c, Steps.StaleGeneration)
              else if w.lifecycle == Starting || w.lifecycle == Stopping then
                o == Steps.Observed(c, name,
                       w.(ready := false, acceptingWork := false,
                          readySetDuringStart := false, acceptingWorkSetDuringStart := false,
                          failureReportedDuringStart := w.lifecycle == Starting, lastFailure := Some(err)),
                       event, Steps.Done)
              else if w.lifecycle == Running || w.lifecycle == Draining then
                o == Steps.Observed(c, name, Steps.MovedToFailed(w, Some(err)), event, Steps.Done)
              else o == Steps.Reject(c, Steps.InvalidState)
  {
    hide Steps.Observed;
  }

  // The events and results of single steps.

  lemma AcceptingWorkIsSilent(c: Steps.Core, name: Name, generation: nat, accepting: bool)
    ensures Steps.SetWorkerAcceptingWork(c, name, generation, accepting).events == []
  {
  }

  lemma AdmissionIsSilent(c: Steps.Core, id: nat, name: Name)
    ensures var o := Steps.AdmitCommand(c, id, name);
            o.events == [] && o.core == c.(workers := o.core.workers, status := o.core.status,
                  dispatches := o.core.dispatches)
  {
  }

  lemma CommandResults(c: Steps.Core, id: nat, err: Error)
    requires id in c.dispatches && c.dispatches[id].worker in c.workers
    ensures Steps.RecordCommandFailure(c, id, c.dispatches[id].worker, c.dispatches[id].generation, err).result
            == Steps.Done
    ensures Steps.RecordCommandPanic(c, id, c.dispatches[id].worker, c.dispatches[id].generation, err).result
            == Steps.Done
  {
  }

  lemma ReleaseResult(c: Steps.Core, id: nat)
    requires id in c.dispatches
    ensures Steps.ReleaseCommandSlot(c, id, c.dispatches[id].worker).result
         == if c.dispatches[id].worker in c.workers then Steps.Done else Steps.NotFound
  {
  }

  /** While the gate holder is busy its worker exists in the matching state and generation. */
  lemma BusyResults(s: Steps.System)
    requires Reachable(s) && Steps.Busy(s.core)
    ensures var c, a := s.core, s.core.gate.activity;
            && a.name in c.workers && a.name in c.configs
            && c.workers[a.name].generation == a.generation
            && c.workers[a.name].lifecycle == if a.StartingWorker? then Starting else Stopping
  {
    ReachableInv(s);
    BusyRecord(s.core);
  }
}
