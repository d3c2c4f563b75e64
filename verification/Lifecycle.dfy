/** Worker and runtime records, policies and events: lifecycle.go, options.go, status.go
    and the record types of runtime.go. */
module Lifecycle {
  import opened Basics
  import opened Retry

  // Names are opaque keys.
  type Name = string

  datatype LifecycleState = Registered | Starting | Running | Draining | Stopping | Stopped | Failed

  datatype PanicPolicy = Recover | Crash
  datatype FailurePolicy = Isolate | MarkRuntimeUnready | FailRuntime
  datatype ReadinessPolicy = ContributingWorkers | AllWorkers

  datatype WorkerConfig = WorkerConfig(
    startRetry: Policy,
    commandRetry: Policy,
    commandConcurrency: int,
    panicPolicy: PanicPolicy,
    failurePolicy: FailurePolicy,
    readyOnStart: bool,
    acceptingWork: bool,
    contributesToReadiness: bool)

  datatype RuntimeConfig = RuntimeConfig(commandConcurrency: int, readinessPolicy: ReadinessPolicy)

  /** A recorded lifecycle change; its timestamp is opaque and left out. */
  datatype Change = Change(from: LifecycleState, to: LifecycleState)

  /** The runtime-owned record of one worker. The failure fields hold the error the public
      failure information was projected from. */
  datatype Worker = Worker(
    generation: nat,
    lifecycle: LifecycleState,
    ready: bool,
    acceptingWork: bool,
    inFlight: int,
    readySetDuringStart: bool,
    acceptingWorkSetDuringStart: bool,
    failureReportedDuringStart: bool,
    lastTransition: Option<Change>,
    lastFailure: Option<Error>,
    lastCommandFailure: Option<Error>)

  const NewWorker := Worker(0, Registered, false, false, 0, false, false, false, None, None, None)

  /** The cached aggregate status. */
  datatype Status = Status(
    state: LifecycleState,
    ready: bool,
    inFlight: int,
    workers: nat,
    lastTransition: Option<Change>)

  predicate AllowsRuntimeMutation(state: LifecycleState) {
    state == Starting || state == Running || state == Draining
  }

  predicate AllowsPositiveSignal(state: LifecycleState) {
    state == Starting || state == Running
  }

  // ---------------------------------------------------------------------------
  // Events.

  /** What an event is about: one worker, or the runtime as a whole. */
  datatype Subject = OfWorker(name: Name) | OfRuntime

  /** What a call into worker code comes back with: a result, or a panic with some identity. */
  datatype CallOutcome = Returned(err: Option<Error>) | Panicked(id: int)

  /** The helper that committed a failure event. */
  datatype Source =
    | Report           // WorkerRuntime.ReportFailure
    | Operation        // a Start or Stop that ended in failure
    | CleanupPending   // a Start or Stop that ended with loop cleanup pending
    | AutomaticCleanup // the cleanup attempt a failed loop makes on its own
    | Command(id: nat) // the command dispatch with this id

  datatype Event =
    | Transition(subject: Subject, from: LifecycleState, to: LifecycleState)
    | Readiness(subject: Subject, ready: bool)
    | Failure(worker: Name, source: Source, error: Error, panicked: bool)
    // Calls of Worker.Start and Worker.Stop, with the in-flight counts seen by a Stop call, and
    // what they came back with.
    | StartCalled(worker: Name, generation: nat)
    | StopCalled(worker: Name, generation: nat, runtimeInFlight: int, workerInFlight: int)
    | CallReturned(worker: Name, outcome: CallOutcome)
    // Command dispatches.
    | HandlerCalled(id: nat)
    | HandlerReturned(id: nat, outcome: CallOutcome)
    | SlotReleased(id: nat)
    | ObservationEnded(id: nat, attempts: nat, success: bool)
}
