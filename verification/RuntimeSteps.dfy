/** Every mutex-guarded step of runtime.go as a function of the runtime state, and the step
    system they form: one lifecycle operation at a time holds the gate, while worker handles
    and command dispatches step freely. */
module RuntimeSteps {
  import opened Basics
  import opened Lifecycle
  import opened RuntimeStatus

  /** A worker handle, and the worker generation a command was admitted under. */
  datatype Handle = Handle(worker: Name, generation: nat)

  /** What the holder of the lifecycle gate is in the middle of. */
  datatype Activity =
    | Idle
    | StartingWorker(name: Name, generation: nat)
    | StoppingWorker(name: Name, generation: nat)

  /** How far the activity's call of Worker.Start or Worker.Stop has got. */
  datatype Call = NotCalled | InProgress | Answered(outcome: CallOutcome)

  /** The gate; a bulk operation that closed command admission remembers what to restore. */
  datatype Gate = Free | Held(activity: Activity, cutoff: Option<bool>, call: Call)

  datatype Core = Core(
    config: RuntimeConfig,
    order: seq<Name>,
    workers: map<Name, Worker>,
    configs: map<Name, WorkerConfig>,
    status: Status,
    admissionClosed: bool,
    gate: Gate,
    handles: set<Handle>,
    pending: set<nat>,               // dispatches not yet admitted or rejected
    dispatches: map<nat, Handle>,    // admitted dispatches that still hold their slot
    nextDispatch: nat,
    replies: map<nat, Call>)         // the last handler call of a dispatch, if any

  function NewCore(config: RuntimeConfig): Core {
    Core(config, [], map[], map[], Status(Registered, false, 0, 0, None), false, Free, {}, {}, map[], 0, map[])
  }

  datatype Result =
    | Done
    | Began(generation: nat)
    | NotFound
    | InvalidState
    | StaleGeneration
    | AlreadyRegistered
    | RuntimeNotAccepting
    | WorkerNotAccepting
    | RuntimeSaturated
    | WorkerSaturated

  datatype Outcome = Outcome(core: Core, events: seq<Event>, result: Result)

  function Reject(c: Core, why: Result): Outcome { Outcome(c, [], why) }

  // ---------------------------------------------------------------------------
  // Committing a worker record.

  function Recompute(c: Core): (c': Core)
    ensures c' == c.(status := c'.status) && c'.status.inFlight == c.status.inFlight
    ensures c'.status.lastTransition == DeriveChange(c.status.state, c'.status.state, c.status.lastTransition)
    ensures c'.status.workers == |c'.workers|
  {
    var f := FactsOf(c.workers, c.configs);
    var next := DeriveState(f, c.status.state);
    c.(status := c.status.(
         state := next,
         ready := DeriveReady(f, c.config.readinessPolicy),
         workers := |c.workers|,
         lastTransition := DeriveChange(c.status.state, next, c.status.lastTransition)))
  }

  function Commit(c: Core, name: Name, after: Worker): (c': Core)
    ensures c' == c.(workers := c.workers[name := after], status := c'.status)
    ensures c'.status.inFlight == c.status.inFlight && c'.status.workers == |c'.workers|
    ensures c'.status.lastTransition == DeriveChange(c.status.state, c'.status.state, c.status.lastTransition)
  {
    Recompute(c.(workers := c.workers[name := after]))
  }

  function TransitionEvents(subject: Subject, from: LifecycleState, to: LifecycleState): seq<Event> {
    if from != to then [Transition(subject, from, to)] else []
  }

  function ReadinessEvents(subject: Subject, before: bool, after: bool): seq<Event> {
    if before != after then [Readiness(subject, after)] else []
  }

  /** The events of one committed change, in the order the source observes them. */
  function ChangeEvents(name: Name, before: Worker, after: Worker, failure: seq<Event>, s: Status,
        s': Status): (events: seq<Event>)
    ensures forall e :: e in events ==> e in failure || e.Transition? || e.Readiness?
    ensures forall e :: e in events && e !in failure && e.Transition? && e.subject.OfWorker? ==>
              e == Transition(OfWorker(name), before.lifecycle, after.lifecycle) && before.lifecycle != after.lifecycle
  {
    TransitionEvents(OfWorker(name), before.lifecycle, after.lifecycle) +
    ReadinessEvents(OfWorker(name), before.ready, after.ready) +
    failure +
    TransitionEvents(OfRuntime, s.state, s'.state) +
    ReadinessEvents(OfRuntime, s.ready, s'.ready)
  }

  function Observed(c: Core, name: Name, after: Worker, failure: seq<Event>, result: Result): (o: Outcome)
    requires name in c.workers
    ensures o.core == c.(workers := c.workers[name := after], status := o.core.status)
    ensures o.core.status.inFlight == c.status.inFlight && o.result == result
    ensures forall e :: e in o.events ==> e in failure || e.Transition? || e.Readiness?
    ensures forall e :: e in o.events && e !in failure && e.Transition? && e.subject.OfWorker? ==>
              e.to == after.lifecycle != c.workers[name].lifecycle
  {
    var c' := Commit(c, name, after);
    Outcome(c', ChangeEvents(name, c.workers[name], after, failure, c.status, c'.status), result)
  }

  // The record with its lifecycle changed and its readiness and start flags dropped.
  function Moved(w: Worker, to: LifecycleState): Worker {
    w.(lifecycle := to,
       ready := false,
       acceptingWork := false,
       readySetDuringStart := false,
       acceptingWorkSetDuringStart := false,
       lastTransition := Some(Change(w.lifecycle, to)))
  }

  function MovedToFailed(w: Worker, failure: Option<Error>): Worker {
    Moved(w, Failed).(failureReportedDuringStart := false, lastFailure := failure)
  }

  // ---------------------------------------------------------------------------
  // Registration and lifecycle steps.

  function RegisterWorker(c: Core, name: Name, config: WorkerConfig): Outcome {
    if c.status.state != Registered then Reject(c, InvalidState)
    else if name in c.configs then Reject(c, AlreadyRegistered)
    else
      Outcome(
        Recompute(c.(order := c.order + [name],
                     workers := c.workers[name := NewWorker],
                     configs := c.configs[name := config])),
        [], Done)
  }

  function BeginWorkerStart(c: Core, name: Name): (o: Outcome)
    ensures o.core == c.(workers := o.core.workers, status := o.core.status)
    ensures o.core.status.inFlight == c.status.inFlight
  {
    if name !in c.workers then Reject(c, NotFound)
    else
      var w := c.workers[name];
      if w.lifecycle != Registered && w.lifecycle != Stopped && w.lifecycle != Failed then Reject(c, InvalidState)
      else
        var after := Moved(w, Starting).(generation := w.generation + 1, failureReportedDuringStart := false);
        Observed(c, name, after, [], Began(after.generation))
  }

  function BeginWorkerStop(c: Core, name: Name): (o: Outcome)
    ensures o.core == c.(workers := o.core.workers, status := o.core.status)
    ensures o.core.status.inFlight == c.status.inFlight
  {
    if name !in c.workers then Reject(c, NotFound)
    else
      var w := c.workers[name];
      if w.lifecycle != Running && w.lifecycle != Draining && w.lifecycle != Failed then Reject(c, InvalidState)
      else Observed(c, name, Moved(w, Stopping), [], Began(w.generation))
  }

  function BeginWorkerDrain(c: Core, name: Name): (o: Outcome)
    ensures o.core == c.(workers := o.core.workers, status := o.core.status)
    ensures o.core.status.inFlight == c.status.inFlight
  {
    if name !in c.workers then Reject(c, NotFound)
    else
      var w := c.workers[name];
      if w.lifecycle == Draining then
        Outcome(Commit(c, name, w.(ready := false, acceptingWork := false)), [], Done)
      else if w.lifecycle != Running then Reject(c, InvalidState)
      else
        Observed(c, name,
                 w.(lifecycle := Draining, ready := false, acceptingWork := false,
                    lastTransition := Some(Change(w.lifecycle, Draining))),
                 [], Done)
  }

  function CompleteWorkerStop(c: Core, name: Name, generation: nat): (o: Outcome)
    requires name in c.workers
    ensures o.core == c.(workers := o.core.workers, status := o.core.status)
    ensures o.core.status.inFlight == c.status.inFlight
  {
    var w := c.workers[name];
    if w.generation != generation then Reject(c, StaleGeneration)
    else if w.lifecycle != Stopping then Reject(c, InvalidState)
    else Observed(c, name, Moved(w, Stopped), [], Done)
  }

  function CompleteWorkerStart(c: Core, name: Name, generation: nat, defaultReady: bool,
                               defaultAcceptingWork: bool): (o: Outcome)
    requires name in c.workers
    ensures o.core == c.(workers := o.core.workers, status := o.core.status)
    ensures o.core.status.inFlight == c.status.inFlight
  {
    var w := c.workers[name];
    if w.generation != generation then Reject(c, StaleGeneration)
    else if w.lifecycle != Starting then Reject(c, InvalidState)
    else if w.failureReportedDuringStart then
      Observed(c, name, MovedToFailed(w, w.lastFailure), [], Done)
    else
      Observed(c, name,
               Moved(w, Running).(
                 ready := if w.readySetDuringStart then w.ready else defaultReady,
                 acceptingWork := if w.acceptingWorkSetDuringStart then w.acceptingWork else defaultAcceptingWork,
                 failureReportedDuringStart := false,
                 lastFailure := None),
               [], Done)
  }

  function FailWorker(c: Core, name: Name, generation: nat, err: Error, panicked: bool): (o: Outcome)
    requires name in c.workers
    ensures o.core == c.(workers := o.core.workers, status := o.core.status)
    ensures o.core.status.inFlight == c.status.inFlight
  {
    var w := c.workers[name];
    if w.generation != generation then Reject(c, StaleGeneration)
    else
      var suppress := w.lastFailure.Some? && (w.lifecycle == Failed || w.failureReportedDuringStart);
      Observed(c, name, MovedToFailed(w, Some(err)),
               if suppress then [] else [Failure(name, Operation, err, panicked)], Done)
  }

  function FailLoopCleanup(c: Core, name: Name, generation: nat, err: Error): (o: Outcome)
    requires name in c.workers
    ensures o.core == c.(workers := o.core.workers, status := o.core.status)
    ensures o.core.status.inFlight == c.status.inFlight
  {
    var w := c.workers[name];
    if w.generation != generation then Reject(c, StaleGeneration)
    else
      Observed(c, name, MovedToFailed(w, if w.lastFailure.None? then Some(err) else w.lastFailure),
               [Failure(name, CleanupPending, err, false)], Done)
  }

  function RecordWorkerFailureStatus(c: Core, name: Name, generation: nat, err: Error): Outcome
    requires name in c.workers
  {
    var w := c.workers[name];
    if w.generation != generation then Reject(c, StaleGeneration)
    else Outcome(c.(workers := c.workers[name := w.(lastFailure := Some(err))]), [], Done)
  }

  // ---------------------------------------------------------------------------
  // Steps of worker handles.

  function SetWorkerReady(c: Core, name: Name, generation: nat, ready: bool): (o: Outcome)
    ensures o.core == c.(workers := o.core.workers, status := o.core.status)
    ensures o.core.status.inFlight == c.status.inFlight
  {
    if name !in c.workers then Reject(c, NotFound)
    else
      var w := c.workers[name];
      if w.generation != generation then Reject(c, StaleGeneration)
      else if !AllowsRuntimeMutation(w.lifecycle) then Reject(c, InvalidState)
      else if ready && !AllowsPositiveSignal(w.lifecycle) then Reject(c, InvalidState)
      else
        Observed(c, name,
                 w.(ready := ready, readySetDuringStart := w.readySetDuringStart || w.lifecycle == Starting),
                 [], Done)
  }

  function SetWorkerAcceptingWork(c: Core, name: Name, generation: nat, accepting: bool): (o: Outcome)
    ensures o.core == c.(workers := o.core.workers, status := o.core.status)
    ensures o.core.status.inFlight == c.status.inFlight
  {
    if name !in c.workers then Reject(c, NotFound)
    else
      var w := c.workers[name];
      if w.generation != generation then Reject(c, StaleGeneration)
      else if !AllowsRuntimeMutation(w.lifecycle) then Reject(c, InvalidState)
      else if accepting && !AllowsPositiveSignal(w.lifecycle) then Reject(c, InvalidState)
      else
        Outcome(
          Commit(c, name,
                 w.(acceptingWork := accepting,
                    acceptingWorkSetDuringStart := w.acceptingWorkSetDuringStart || w.lifecycle == Starting)),
          [], Done)
  }

  function ReportWorkerFailure(c: Core, name: Name, generation: nat, err: Error): (o: Outcome)
    ensures o.core == c.(workers := o.core.workers, status := o.core.status)
    ensures o.core.status.inFlight == c.status.inFlight
  {
    if name !in c.workers then Reject(c, NotFound)
    else
      var w := c.workers[name];
      var event := [Failure(name, Report, err, false)];
      if w.generation != generation then Reject(c, StaleGeneration)
      else match w.lifecycle
        case Starting | Stopping =>
          Observed(c, name,
                   w.(ready := false, acceptingWork := false,
                      readySetDuringStart := false, acceptingWorkSetDuringStart := false,
                      failureReportedDuringStart := w.lifecycle == Starting,
                      lastFailure := Some(err)),
                   event, Done)
        case Running | Draining =>
          Observed(c, name, MovedToFailed(w, Some(err)), event, Done)
        case _ => Reject(c, InvalidState)
  }

  // ---------------------------------------------------------------------------
  // Steps of command dispatches.

  function AdmitCommand(c: Core, id: nat, name: Name): (o: Outcome)
    ensures o.core == c.(workers := o.core.workers, status := o.core.status, dispatches := o.core.dispatches)
  {
    if c.admissionClosed then Reject(c, RuntimeNotAccepting)
    else if c.status.state == Failed || c.status.state == Stopped || c.status.state == Registered then
      Reject(c, RuntimeNotAccepting)
    else if name !in c.workers then Reject(c, NotFound)
    else
      var w := c.workers[name];
      if w.lifecycle != Running then Reject(c, InvalidState)
      else if !w.acceptingWork then Reject(c, WorkerNotAccepting)
      else if c.config.commandConcurrency > 0 && c.status.inFlight >= c.config.commandConcurrency then
        Reject(c, RuntimeSaturated)
      else if name in c.configs && c.configs[name].commandConcurrency > 0
              && w.inFlight >= c.configs[name].commandConcurrency then
        Reject(c, WorkerSaturated)
      else
        Outcome(
          c.(workers := c.workers[name := w.(inFlight := w.inFlight + 1)],
             status := c.status.(inFlight := c.status.inFlight + 1),
             dispatches := c.dispatches[id := Handle(name, w.generation)]),
          [], Began(w.generation))
  }

  // The decrement stops at zero, as the source guards it.
  function Decrement(n: int): int { if n > 0 then n - 1 else n }

  function ReleaseCommandSlot(c: Core, id: nat, name: Name): (o: Outcome)
    ensures o.core == c.(workers := o.core.workers, status := o.core.status, dispatches := o.core.dispatches)
  {
    if name !in c.workers then Reject(c, NotFound)
    else
      var w := c.workers[name];
      Outcome(
        c.(workers := c.workers[name := w.(inFlight := Decrement(w.inFlight))],
           status := c.status.(inFlight := Decrement(c.status.inFlight)),
           dispatches := c.dispatches - {id}),
        [SlotReleased(id)], Done)
  }

  function RecordCommandFailure(c: Core, id: nat, name: Name, generation: nat, err: Error): (o: Outcome)
    requires name in c.workers
    ensures o.core == c.(workers := o.core.workers, status := o.core.status)
    ensures o.core.status.inFlight == c.status.inFlight
  {
    var w := c.workers[name];
    Outcome(
      if w.generation == generation
      then c.(workers := c.workers[name := w.(lastCommandFailure := Some(err))])
      else c,
      [Failure(name, Command(id), err, false)], Done)
  }

  function RecordCommandPanic(c: Core, id: nat, name: Name, generation: nat, err: Error): (o: Outcome)
    requires name in c.workers
    ensures o.core == c.(workers := o.core.workers, status := o.core.status)
    ensures o.core.status.inFlight == c.status.inFlight
  {
    var w := c.workers[name];
    var event := [Failure(name, Command(id), err, true)];
    if w.generation != generation then Outcome(c, event, Done)
    else if w.lifecycle == Running || w.lifecycle == Draining then
      Observed(c, name, MovedToFailed(w, Some(err)).(lastCommandFailure := Some(err)), event, Done)
    else
      Outcome(c.(workers := c.workers[name := w.(lastCommandFailure := Some(err))]), event, Done)
  }

  /** The panic of a handler, case by case. */
  lemma PanicCases(c: Core, id: nat, name: Name, generation: nat, err: Error)
    requires name in c.workers
    ensures var o, w := RecordCommandPanic(c, id, name, generation, err), c.workers[name];
            var event := [Failure(name, Command(id), err, true)];
            if w.generation != generation then o == Outcome(c, event, Done)
            else if w.lifecycle == Running || w.lifecycle == Draining then
              o == Observed(c, name, MovedToFailed(w, Some(err)).(lastCommandFailure := Some(err)), event,
                  Done)
            else
              o == Outcome(c.(workers := c.workers[name := w.(lastCommandFailure := Some(err))]), event,
                  Done)
  {
    hide Observed;
  }

  // ---------------------------------------------------------------------------
  // The step system.

  datatype Label =
    // Steps of the lifecycle operation that holds the gate.
    | AcquireGate
    | ReleaseGate
    | CloseAdmission
    | RestoreAdmission
    | Register(name: Name, config: WorkerConfig)
    | BeginStart(name: Name)
    | CallStart
    | Answer(outcome: CallOutcome)
    | RecordFailure(err: Error)
    | CompleteStart
    | BeginStop(name: Name)
    | CallStop
    | CompleteStop
    | FailOperation(err: Error, panicked: bool)
    | FailCleanup(err: Error)
    | BeginDrain(name: Name)
    // Steps of retained worker handles.
    | SetReady(handle: Handle, ready: bool)
    | SetAcceptingWork(handle: Handle, accepting: bool)
    | ReportFailure(handle: Handle, err: Error)
    | ObserveCleanup(handle: Handle, err: Error, panicked: bool)
    // Steps of command dispatches.
    | NewDispatch
    | Admit(id: nat, name: Name)
    | CallHandler(id: nat)
    | HandlerReturns(id: nat, outcome: CallOutcome)
    | CommandFailed(id: nat, err: Error)
    | CommandPanicked(id: nat, err: Error)
    | Release(id: nat)
    | EndObservation(id: nat, attempts: nat, success: bool)

  predicate IsHandleStep(l: Label) {
    l.SetReady? || l.SetAcceptingWork? || l.ReportFailure? || l.ObserveCleanup?
  }

  predicate IsDispatchStep(l: Label) {
    l.NewDispatch? || l.Admit? || l.CallHandler? || l.HandlerReturns? || l.CommandFailed? || l.CommandPanicked?
    || l.Release? || l.EndObservation?
  }

  /** Steps that need no lifecycle gate. */
  predicate IsFreeStep(l: Label) {
    IsHandleStep(l) || IsDispatchStep(l)
  }

  predicate Busy(c: Core) {
    c.gate.Held? && !c.gate.activity.Idle?
  }

  predicate AtRest(c: Core) {
    c.gate.Held? && c.gate.activity.Idle?
  }

  /** The last call came back with this error; the failed operation ends with it, or, when an
      attempt to start was given up for it, with the error of the context. */
  predicate FailsWith(gate: Gate, err: Error, panicked: bool)
    requires gate.Held?
  {
    match gate.call
    case Answered(Panicked(id)) => panicked && err == RecoveredPanic(id)
    case Answered(Returned(Some(e))) =>
      !panicked && !err.LoopCleanup? && (err == e || (gate.activity.StartingWorker? && err == ContextDone))
    case _ => false
  }

  /** Where the last handler call of the dispatch stands. */
  function HandlerCall(c: Core, id: nat): Call {
    if id in c.replies then c.replies[id] else NotCalled
  }

  /** The worker code has not been called, or came back with an error: it may be called. */
  predicate MayBeCalled(call: Call) {
    call.NotCalled? || (call.Answered? && call.outcome.Returned? && call.outcome.err.Some?)
  }

  predicate Enabled(c: Core, l: Label) {
    match l
    case AcquireGate => c.gate.Free?
    case ReleaseGate => AtRest(c) && c.gate.cutoff.None?
    case CloseAdmission => AtRest(c) && c.gate.cutoff.None?
    case RestoreAdmission => AtRest(c) && c.gate.cutoff.Some?
    case Register(_, _) => AtRest(c)
    case BeginStart(_) => AtRest(c)
    case BeginStop(_) => AtRest(c)
    case BeginDrain(_) => AtRest(c)
    case CallStart => Busy(c) && c.gate.activity.StartingWorker? && MayBeCalled(c.gate.call)
    case CallStop =>
      Busy(c) && c.gate.activity.StoppingWorker? && c.gate.activity.name in c.workers && c.gate.call.NotCalled?
    case Answer(_) => Busy(c) && c.gate.call.InProgress?
    case CompleteStart =>
      && Busy(c) && c.gate.activity.StartingWorker?
      && c.gate.activity.name in c.workers && c.gate.activity.name in c.configs
      && c.gate.call == Answered(Returned(None))
    case CompleteStop =>
      && Busy(c) && c.gate.activity.StoppingWorker? && c.gate.activity.name in c.workers
      && c.gate.call == Answered(Returned(None))
    case RecordFailure(err) =>
      Busy(c) && c.gate.activity.name in c.workers && !err.LoopCleanup? && c.gate.call == Answered(Returned(Some(err)))
    case FailOperation(err, panicked) =>
      Busy(c) && c.gate.activity.name in c.workers && FailsWith(c.gate, err, panicked)
    case FailCleanup(err) =>
      Busy(c) && c.gate.activity.name in c.workers && err.LoopCleanup? && c.gate.call == Answered(Returned(Some(err)))
    case SetReady(h, _) => h in c.handles
    case SetAcceptingWork(h, _) => h in c.handles
    case ReportFailure(h, _) => h in c.handles
    case ObserveCleanup(h, _, _) => h in c.handles
    case NewDispatch => true
    case Admit(id, _) => id in c.pending
    case CallHandler(id) => id in c.dispatches && MayBeCalled(HandlerCall(c, id))
    case HandlerReturns(id, _) => id in c.dispatches && HandlerCall(c, id).InProgress?
    case CommandFailed(id, err) =>
      && id in c.dispatches && c.dispatches[id].worker in c.workers
      && HandlerCall(c, id) == Answered(Returned(Some(err)))
    case CommandPanicked(id, err) =>
      && id in c.dispatches && c.dispatches[id].worker in c.workers
      && HandlerCall(c, id).Answered? && HandlerCall(c, id).outcome.Panicked?
      && err == RecoveredPanic(HandlerCall(c, id).outcome.id)
    case Release(id) => id in c.dispatches && !HandlerCall(c, id).InProgress?
    case EndObservation(id, _, _) => id < c.nextDispatch && id !in c.pending && id !in c.dispatches
  }

  // The gate holder moves on to an activity once its first step has begun.
  function Begin(o: Outcome, activity: Activity): Outcome {
    if o.result.Began? && o.core.gate.Held?
    then o.(core := o.core.(gate := o.core.gate.(activity := activity, call := NotCalled)))
    else o
  }

  function Finish(o: Outcome): Outcome {
    if o.core.gate.Held? then o.(core := o.core.(gate := o.core.gate.(activity := Idle, call := NotCalled))) else o
  }

  function Apply(c: Core, l: Label): Outcome
    requires Enabled(c, l)
  {
    match l
    case AcquireGate => Outcome(c.(gate := Held(Idle, None, NotCalled)), [], Done)
    case ReleaseGate => Outcome(c.(gate := Free), [], Done)
    case CloseAdmission =>
      Outcome(c.(admissionClosed := true, gate := c.gate.(cutoff := Some(c.admissionClosed))), [], Done)
    case RestoreAdmission =>
      Outcome(c.(admissionClosed := c.gate.cutoff.value, gate := c.gate.(cutoff := None)), [], Done)
    case Register(name, config) => RegisterWorker(c, name, config)
    case BeginStart(name) =>
      var o := BeginWorkerStart(c, name);
      if o.result.Began? then Begin(o, StartingWorker(name, o.result.generation)) else o
    case CallStart =>
      var a := c.gate.activity;
      Outcome(c.(handles := c.handles + {Handle(a.name, a.generation)}, gate := c.gate.(call := InProgress)),
              [StartCalled(a.name, a.generation)], Done)
    case Answer(outcome) =>
      Outcome(c.(gate := c.gate.(call := Answered(outcome))), [CallReturned(c.gate.activity.name, outcome)], Done)
    case RecordFailure(err) => RecordWorkerFailureStatus(c, c.gate.activity.name, c.gate.activity.generation, err)
    case CompleteStart =>
      var a := c.gate.activity;
      Finish(CompleteWorkerStart(c, a.name, a.generation, c.configs[a.name].readyOnStart,
          c.configs[a.name].acceptingWork))
    case BeginStop(name) =>
      var o := BeginWorkerStop(c, name);
      if o.result.Began? then Begin(o, StoppingWorker(name, o.result.generation)) else o
    case CallStop =>
      var a := c.gate.activity;
      Outcome(c.(handles := c.handles + {Handle(a.name, a.generation)}, gate := c.gate.(call := InProgress)),
              [StopCalled(a.name, a.generation, c.status.inFlight, c.workers[a.name].inFlight)], Done)
    case CompleteStop => Finish(CompleteWorkerStop(c, c.gate.activity.name, c.gate.activity.generation))
    case FailOperation(err, panicked) =>
      Finish(FailWorker(c, c.gate.activity.name, c.gate.activity.generation, err, panicked))
    case FailCleanup(err) => Finish(FailLoopCleanup(c, c.gate.activity.name, c.gate.activity.generation, err))
    case BeginDrain(name) => BeginWorkerDrain(c, name)
    case SetReady(h, ready) => SetWorkerReady(c, h.worker, h.generation, ready)
    case SetAcceptingWork(h, accepting) => SetWorkerAcceptingWork(c, h.worker, h.generation, accepting)
    case ReportFailure(h, err) => ReportWorkerFailure(c, h.worker, h.generation, err)
    case ObserveCleanup(h, err, panicked) => Outcome(c, [Failure(h.worker, AutomaticCleanup, err, panicked)], Done)
    case NewDispatch =>
      Outcome(c.(pending := c.pending + {c.nextDispatch}, nextDispatch := c.nextDispatch + 1), [], Done)
    case Admit(id, name) => AdmitCommand(c.(pending := c.pending - {id}, replies := c.replies - {id}), id, name)
    case CallHandler(id) =>
      Outcome(c.(handles := c.handles + {c.dispatches[id]}, replies := c.replies[id := InProgress]),
              [HandlerCalled(id)], Done)
    case HandlerReturns(id, outcome) =>
      Outcome(c.(replies := c.replies[id := Answered(outcome)]), [HandlerReturned(id, outcome)], Done)
    case CommandFailed(id, err) =>
      RecordCommandFailure(c, id, c.dispatches[id].worker, c.dispatches[id].generation, err)
    case CommandPanicked(id, err) =>
      RecordCommandPanic(c, id, c.dispatches[id].worker, c.dispatches[id].generation, err)
    case Release(id) => ReleaseCommandSlot(c, id, c.dispatches[id].worker)
    case EndObservation(id, attempts, success) => Outcome(c, [ObservationEnded(id, attempts, success)], Done)
  }

  // ---------------------------------------------------------------------------
  // Runs.

  /** The runtime with its committed events; mark is where the Start or Stop in progress began. */
  datatype System = System(core: Core, log: seq<Event>, mark: nat)

  function NewSystem(config: RuntimeConfig): System { System(NewCore(config), [], 0) }

  function Next(s: System, l: Label): System
    requires Enabled(s.core, l)
  {
    var o := Apply(s.core, l);
    System(o.core, s.log + o.events, if (l.BeginStart? || l.BeginStop?) && o.result.Began? then |s.log| else s.mark)
  }

  /** The steps of a run are enabled one after the other. */
  predicate IsRun(s: System, run: seq<Label>)
    decreases |run|
  {
    run == [] || (Enabled(s.core, run[0]) && IsRun(Next(s, run[0]), run[1..]))
  }

  function After(s: System, run: seq<Label>): System
    requires IsRun(s, run)
    decreases |run|
  {
    if run == [] then s else After(Next(s, run[0]), run[1..])
  }
}
