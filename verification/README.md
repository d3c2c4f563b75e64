# Workerkit, modelled and proved

Workerkit runs the background workers of a service: a runtime holds one record per worker,
moves it through registered, starting, running, draining, stopping, stopped and failed, admits
and counts commands, and derives one aggregate status. A LoopWorker turns a long-running
function into such a worker. A service coordinator starts the workers, runs a server and shuts
the workers down. This project models that code in Dafny and proves what it is for.

## How it is built

The runtime is a concurrent protocol. Every mutex-guarded helper is one atomic step, a function
from one runtime state to the next (`RuntimeSteps.dfy`). One lifecycle operation at a time holds
the gate; worker handles and command dispatches step freely, at any moment, also while
`Worker.Start`, `Worker.Stop` or a command handler is running. The call of `Worker.Start` or
`Worker.Stop` is a step, and so is its coming back with nil, an error or a panic: the gate
remembers what it came back with, and the operation can only go on as that allows. The same holds
for the handler calls of a command dispatch. A ghost log
keeps the committed events and these calls in order. `Reachable` holds of exactly the states
some run leads to.

* `Basics.dfy`, `Lifecycle.dfy`: errors, policies, worker records, events.
* `Retry.dfy`: backoff, retry policies and the shared retry loop, in 64-bit arithmetic.
* `RuntimeStatus.dfy`: the aggregate rules and what they mean for the worker records.
* `EventLog.dfy`: replaying and counting committed events.
* `RuntimeSteps.dfy`: the step system; `RuntimeInvariant.dfy`, `RuntimeSafety.dfy`,
  `StartAccounting.dfy`: what every step keeps; `RuntimeTheorems.dfy`, `RuntimeResults.dfy`,
  `WorkerSignals.dfy`: what follows for every reachable state and every run.
* `StatusLaws.dfy`, `RegistrationLaws.dfy`, `AdmissionLaws.dfy`, `LifecycleLaws.dfy`,
  `ServiceHistory.dfy`, `FailureHistory.dfy`: what the steps come to, said without the steps: the
  cached status by the records, the registration order by the accepted registrations of a run,
  when a command is admitted or refused and why, when an operation may begin, what a worker's
  signals mean while it serves, and which failures it shows and the log tells.
* `Interference.dfy`, `OperationSteps.dfy`, `OperationEffects.dfy`, `Milestones.dfy`: what other
  parties can do to an operation that is in the middle of its work, what its own steps leave
  alone, and which calls of worker code it makes.
* `Runtime.dfy`: the `Runtime` class. Its helpers are the code of runtime.go over mutable
  fields; each is proved to be the step it stands for, and `Valid()` says that the object is in
  a reachable state.
* `CallSequences.dfy`: several Starts or Stops in a row, as the log shows them, and when a panic
  among them is re-raised.
* `LifecycleOperations.dfy`, `BulkOperations.dfy`, `Shutdown.dfy`, `CommandDispatch.dfy`: Start,
  Stop, Drain, StartAll, DrainAllBestEffort, StopAll, Shutdown and Dispatch as methods on that
  class. Between any two of their steps they let any number of steps by others happen.
* `Service.dfy`: the coordinator. `Opskit.dfy`: the readiness snapshot. `StatusWitness.dfy`:
  concrete runs to the surprises of the aggregate status.
* `LoopSteps.dfy`, `LoopInvariant.dfy`, `LoopResults.dfy`, `LoopProgress.dfy`, `LoopWorker.dfy`:
  the LoopWorker as a second step system, with one caller of Start or Stop and one goroutine for
  each loop ever launched, its invariant, its results, what its calls can still come to, and the
  class itself.
* `WorkerSight.dfy`, `LoopComposition.dfy`, `LoopWitness.dfy`: a runtime one of whose workers is
  a LoopWorker, whose calls the gate holder makes and whose answers it gets; and runs of it that
  record that worker as running and as stopped.

User code is arbitrary: a call of `Worker.Start`, `Worker.Stop`, a handler, a loop body or a
hook lets others take any number of steps, and then returns, fails or panics. A context may be
cancelled at any moment and then stays so.

## Where code and comments differ

* lifecycle.go:31-33 says that a runtime is stopping while at least one worker is. The model
  follows the code, where runtime_status.go:127-132 keeps the previous state: in a reachable
  runtime the aggregate is stopping with no worker stopping exactly if every worker is registered
  or stopped and there are some of each (`RuntimeTheorems.StoppingWithoutAStop`). Registering two
  workers, and starting and stopping one, gets there (`StatusWitness.StoppingIsReached`).
* An unready runtime does not always have an unready blocking item to show for it.
  `Opskit.ReadinessIsExplained` gives the two exceptions, and both occur: no worker at all
  (`Opskit.EmptyRuntimeIsUnexplained`), or, under the default policy, no contributing worker and
  nothing quietly running (`StatusWitness.IdleRuntimeIsUnexplained`).
* loop.go:68-74 speaks of a Stop that waits for a cleanup in progress. As long as Start and Stop
  come one at a time, that wait is always for the loop's done channel: whoever joins a cleanup
  attempt finds it finished and successful (`LoopResults.JoinersNeverWait`).

## Model

| member | source | states |
|---|---|---|
| `Retry.LinearDelay` | retry/backoff.go:38-57 | linear backoff is exactly the smaller of attempts times step and the limit, with no 64-bit overflow on the way |
| `Retry.QuotientBound` | retry/backoff.go:51-56 | testing by division decides exactly whether the product would pass the limit |
| `Retry.LinearIsMonotone` | retry/backoff.go:38-57 | a later attempt never waits less |
| `Retry.BackoffDelays` | retry/backoff.go:21-57 | as numbers: a constant backoff waits its delay after every attempt, a custom one what its function says, a linear one the smaller of attempts times step and the limit; none is ever negative |
| `Retry.NextDelayIsJittered` | retry/policy.go:99-121 | the delay waited is the base delay of the same attempt, or the jitter of that base and that attempt, never negative; an attempt below one counts as the first |
| `Retry.ConstantTotalWait` | retry/backoff.go:29-32 | closed form of the total wait of a run under bounded constant backoff |
| `Retry.BoundedPoliciesRetry` | retry/policy.go:62-121 | bounded policies allow another attempt exactly while attempts are left and the failure is accepted, after a non-negative delay |
| `Retry.RunWithRetry` | runtime.go:1699-1734 | the first attempt after which the loop may not go on decides the result; at most as many attempts as the policy bounds; the total wait is the sum of the delays |
| `Retry.RetryAnswers` | runtime.go:1699-1734 | nil is the operation's own; an error that is not the last attempt's is that of a done context; with the context alive only the policy gives up; every earlier attempt failed and was found worth retrying |
| `Retry.LinearTotalWait` | retry/backoff.go:38-57 | closed form of the total wait of a run under bounded linear backoff |
| `RuntimeStatus.DeriveStateHistory` | runtime_status.go:107-133 | the history-dependent arm is taken exactly on a mix of registered and stopped workers, where the history-free aggregate is stopping |
| `RuntimeStatus.MixedMeansNeitherAll` | runtime_status.go:107-133 | which worker maps reach the default arm |
| `RuntimeStatus.DeriveStateStep` | runtime_status.go:9-45 | deriving from a history-free aggregate after one legal record change gives the history-free aggregate again |
| `RuntimeStatus.NotedExtends` | runtime_status.go:58-102 | one more worker of the pass adds exactly its share to the declared facts, so the order of the pass does not matter |
| `RuntimeStatus.AllWorkersReadyIsStronger` | runtime_status.go:137-164 | readiness under the all-workers policy implies readiness under the default policy |
| `RuntimeTheorems.StepKeepsInv` | runtime.go:910-1511 | every step of every party keeps the invariant of keys, records, gate, cutoff, status, slots, handles, log and start account |
| `RuntimeTheorems.RunKeepsInv` | runtime.go:910-1643 | so does every run |
| `RuntimeTheorems.CachedStatusIsAggregate` | runtime_status.go:9-164 | in every reachable state the cached state, readiness and worker count are a function of records and configurations |
| `StatusLaws.FailureMeansUnready` | runtime_status.go:137-140 | in every reachable state and under either policy, a failed worker that is to mark the runtime unready, or to fail it, makes it unready |
| `StatusLaws.ReadyExactly` | runtime_status.go:137-164 | readiness as an iff over the records for both policies: no such failure, and all workers running and ready, or all contributors, or, without contributors, something runs and nothing is in transition |
| `StatusLaws.StateExactly` | runtime_status.go:107-133 | each aggregate state as an iff over the records: the precedence of forced failure, starting, draining, stopping, running, failure and rest, and the mix that counts as stopping |
| `RuntimeTheorems.StoppingWithoutAStop` | runtime_status.go:107-133 | in every reachable state the aggregate is stopping with no worker stopping iff the workers are a mix of registered and stopped ones |
| `StatusWitness.StoppingIsReached` | runtime_status.go:127-132 | such a runtime is reached: two workers, one of them started and stopped, nobody in the gate |
| `RuntimeTheorems.RegistrationIsOpenUntilFirstStart` | runtime.go:167-196 | registration is refused exactly from the first Start of any worker on, or for a name in use |
| `RuntimeTheorems.RegistrationNeverReopens` | runtime.go:167-169 | once some worker was started, no later state of any run accepts a registration |
| `RegistrationLaws.RegistrationStores` | runtime.go:167-196 | an accepted registration appends the name to the order and stores the configuration and a fresh record; a refused one changes nothing |
| `RegistrationLaws.OrderIsRegistrationOrder` | runtime.go:184-188 | over every run the order grows at its end by exactly the accepted registrations of the run, in their order, and no configuration ever changes |
| `RegistrationLaws.OrderFromTheStart` | runtime.go:184-188 | so from a new runtime the order is that of the accepted registrations |
| `RuntimeTheorems.GenerationsGrow` | runtime.go:945-952 | over every run records persist and generations only grow |
| `RuntimeResults.OneTransitionAtATime` | runtime.go:270-298 | at most one worker is starting or stopping, and none while the gate is free |
| `RuntimeResults.CompletionsAlwaysApply` | runtime.go:1112-1310 | the gate holder never meets a stale generation or wrong state when it completes or fails |
| `RuntimeResults.FreeStepsKeepTransitions` | runtime.go:1004-1066 | no step outside the gate takes a worker into or out of starting or stopping |
| `LifecycleLaws.StartsExactly` | runtime.go:934-968 | a Start begins exactly from registered, stopped and failed, with the next generation and all signals and flags dropped; otherwise the refusal says why and nothing changes |
| `LifecycleLaws.StopsExactly` | runtime.go:970-1002 | a Stop begins exactly from running, draining and failed, in the same generation |
| `LifecycleLaws.DrainsExactly` | runtime.go:1069-1110 | a Drain is done exactly from running and draining, and leaves the worker neither ready nor accepting work |
| `LifecycleLaws.CallsTell` | runtime.go:350-433 | a call of Worker.Start or Worker.Stop is logged with the current generation, a Stop with the in-flight counts it finds |
| `LifecycleLaws.HandlesAreHandedOut` | runtime.go:879-886 | over every run the outstanding handles grow by exactly those given to worker code: to a Start or Stop its current generation, to a handler that of its admission |
| `ServiceHistory.StepAdvances` | runtime.go:910-1511 | any step makes at most one legal change of a worker's lifecycle, and a new generation comes only, and always, with entering a start |
| `ServiceHistory.ServedForGood` | runtime.go:1046-1049 | once a worker's service in a generation is over it never serves in that generation again, over any run |
| `RuntimeResults.AdmissionIsExact` | runtime.go:1579-1622 | admission succeeds iff there is no cutoff, no failed worker that fails the runtime, a running accepting target, and room in both caps |
| `AdmissionLaws.AdmissionDecision` | runtime.go:1579-1622 | each answer to a request for admission as an iff over records, configurations and caps, in the order of precedence: runtime not accepting, not found, wrong state, worker not accepting, runtime saturated, worker saturated, admitted; an admitted command takes one slot in both counts under the current generation, a refused one none |
| `AdmissionLaws.AdmissionAnswers` | runtime.go:1579-1622 | the same as the condition that held where the answer was given, which Dispatch hands to its caller |
| `RuntimeResults.InFlightShrinksWhileClosed` | runtime.go:300-313 | over every run with admission closed no in-flight count grows |
| `RuntimeResults.StopCallsAreIdleOnceClosed` | runtime.go:603-629 | after the runtime was seen idle behind a cutoff, every later Stop call of any run finds runtime and worker idle |
| `RuntimeResults.ReleasesAreAllThatChanges` | runtime.go:1579-1643 | with admission closed every step but a release keeps the in-flight count, and a release lowers it by one |
| `RuntimeResults.ReleasesDrainTheRuntime` | runtime.go:659-668 | over any run with admission closed the count falls by exactly the releases of the run: the runtime is idle exactly after as many as there were commands in flight, and stays so |
| `RuntimeResults.SlotsAreConserved` | runtime.go:1607-1642 | runtime in-flight is the sum over the workers is the number of admitted unreleased dispatches; both caps hold |
| `RuntimeResults.ReleaseTakesOneSlot` | runtime.go:1624-1643 | a release finds both counters positive: its non-negative guards never fire |
| `RuntimeResults.EventsReplay` | runtime.go:910-932 | replaying the committed events gives the current lifecycle, last transition and readiness of every worker and of the runtime, along legal changes |
| `RuntimeResults.UnobservedStepsAreSilent` | runtime.go:1038-1090 | registering, setting accepting-work and draining twice change no lifecycle and no readiness, so observing nothing is right |
| `RuntimeResults.RecordsAreConsistent` | runtime.go:934-1002 | the record invariant: ready or accepting only while starting or running, start flags only while starting, failures present when failed and absent when registered, running or draining |
| `RuntimeResults.StartFailureEvents` | runtime.go:1143-1310 | with k accepted reports a Start commits k failure events, or one if it fails by itself; it runs iff k is zero; pending cleanup adds exactly one and keeps the earlier failure |
| `RuntimeResults.StopFailureEvents` | runtime.go:1112-1311 | with k accepted reports a Stop commits k failure events, and exactly one more if it fails: its suppression guard never fires |
| `RuntimeResults.EndReportEvents` | runtime.go:1112-1391 | ending a Start or a Stop is no report, so k is settled by then |
| `FailureHistory.StepTells` | runtime.go:910-932 | the failure events of each step, their error, source and panic flag; and the order of its events: the worker's change, its readiness, the failure, then what follows for the runtime |
| `FailureHistory.FailuresAreTold` | runtime.go:1231-1511 | over every run the failure events in the log are exactly those of its steps, in order |
| `RuntimeResults.OutstandingGenerations` | runtime.go:1046-1049 | every handle and admitted command carries a generation from one to the current one |
| `RuntimeResults.StaleStepsCanBeErased` | runtime.go:1425-1478 | erasing the stale steps from any run leaves a run with the same runtime states at its end |
| `WorkerSignals.SignalsCarryOver` | runtime.go:1163-1190 | whatever others do meanwhile, a Start that completes unreported serves with the signals given last, and with the defaults for those never given |
| `ServiceHistory.ReadySignal` | runtime.go:1004-1036 | in every reachable state a readiness signal is taken iff it is of the current generation and the worker starts or runs, or drains and it is negative; the worker is then ready iff it says so; a refused one changes nothing and says why |
| `ServiceHistory.AcceptingSignal` | runtime.go:1038-1067 | the same for accepting work, with nothing committed to the log |
| `ServiceHistory.LastSignalCounts` | runtime.go:1004-1067 | over every run, as long as a worker serves in one generation it is ready and accepts work as its last signal of that generation said, or as when it entered service |
| `FailureHistory.LastFailuresAreShown` | runtime.go:1143-1511 | over every run the failure and the command failure a worker shows are the last ones noted of it, by which step and with which error |
| `Interference.FreeStepRelies` | runtime.go:1004-1066 | what any step outside the gate can change: at most it fails serving workers, and it never starts, stops or revives one |
| `OperationEffects.StepEffect` | runtime.go:338-470 | a step of an operation touches its own worker only, and calls Stop only as said |
| `OperationSteps.StepOperates` | runtime.go:934-1311 | every step of an operation replaces at most one record, keeping its in-flight count and never lowering its generation; it keeps the gate and its cutoff, and calls Stop only if it is that call |
| `Milestones.PassedStep` | runtime.go:338-448 | which calls of worker code, answers and entries into service one more step of an operation adds to the log: one for a call, one for its answer, none for any other step but the completion of an unreported start |
| `WorkerkitRuntime.Runtime.constructor` | runtime.go:94-128 | a new runtime is in the initial state |
| `WorkerkitRuntime.Runtime.StatusFacts` | runtime_status.go:49-102 | one pass over the worker map in any order collects exactly the declared facts |
| `WorkerkitRuntime.Runtime.RecomputeStatus` | runtime_status.go:9-45 | the status becomes the derived one, in-flight count untouched |
| `WorkerkitRuntime.Runtime.CommitWorkerState` | runtime.go:910-932 | a record is stored, the status derived and exactly the events of the change committed |
| `WorkerkitRuntime.Runtime.RegisterWorker` | runtime.go:133-199 | refines the registration step |
| `WorkerkitRuntime.Runtime.BeginWorkerStart` | runtime.go:934-968 | refines the step that takes a worker into starting, with its rejections |
| `WorkerkitRuntime.Runtime.BeginWorkerStop` | runtime.go:970-1002 | refines the step that takes a worker into stopping, with its rejections |
| `WorkerkitRuntime.Runtime.BeginWorkerDrain` | runtime.go:1069-1110 | refines the drain step, silent when repeated |
| `WorkerkitRuntime.Runtime.CompleteWorkerStop` | runtime.go:1112-1141 | refines the completion of a stop |
| `WorkerkitRuntime.Runtime.CompleteWorkerStart` | runtime.go:1143-1196 | refines the completion of a start, into running or failed |
| `WorkerkitRuntime.Runtime.FailWorker` | runtime.go:1231-1271 | refines the terminal failure, with its suppressed event |
| `WorkerkitRuntime.Runtime.FailLoopCleanup` | runtime.go:1273-1311 | refines the cleanup-pending failure |
| `WorkerkitRuntime.Runtime.RecordWorkerFailureStatus` | runtime.go:1396-1412 | refines the silent record of a failed attempt |
| `WorkerkitRuntime.Runtime.SetWorkerReady` | runtime.go:1004-1036 | refines the readiness signal |
| `WorkerkitRuntime.Runtime.SetWorkerAcceptingWork` | runtime.go:1038-1067 | refines the accepting-work signal |
| `WorkerkitRuntime.Runtime.ReportWorkerFailure` | runtime.go:1320-1391 | refines the failure report |
| `WorkerkitRuntime.Runtime.ObserveLoopCleanupFailure` | runtime.go:1313-1318 | refines the observation of an automatic cleanup failure |
| `WorkerkitRuntime.Runtime.NextCommandDispatchID` | runtime.go:1836-1839 | hands out a fresh dispatch id |
| `WorkerkitRuntime.Runtime.AdmitCommand` | runtime.go:1579-1622 | refines the admission step, with its rejections |
| `WorkerkitRuntime.Runtime.ReleaseCommandSlot` | runtime.go:1624-1643 | refines the release step |
| `WorkerkitRuntime.Runtime.RecordCommandFailure` | runtime.go:1419-1437 | refines the record of a command error |
| `WorkerkitRuntime.Runtime.RecordCommandPanic` | runtime.go:1439-1511 | refines the record of a command panic |
| `WorkerkitRuntime.Runtime.Step` | runtime.go:910-1643 | every enabled step is carried out by the code above and stays in a reachable state |
| `LifecycleOperations.Start` | runtime.go:334-402 | a startable worker gets a new generation; the log shows as its calls of Worker.Start, in order and with their outcomes, exactly the returned ones, between one and the bound of the policy; each but the last failed with an error the policy retries; the last decides: finished iff nil, re-raised iff it panicked under the crash policy, its error only if the policy gives up, the context's only if that is done; the worker runs iff finished and unreported; failure events accounted for, other workers left to free steps |
| `LifecycleOperations.StartEndsByLastCall` | runtime.go:350-402 | what the calls of a Start decide, case by case: finished iff the last returned nil, re-raised iff it panicked under the crash policy, else the recovered panic, an error the policy gives up on, or the context's |
| `LifecycleOperations.StopEndsByItsCall` | runtime.go:418-448 | the same for the one call of a Stop |
| `LifecycleOperations.RunStart` | runtime.go:350-402 | the same for the attempts of a Start in progress |
| `LifecycleOperations.TryStart` | runtime.go:1699-1734 | one attempt: one call of Worker.Start, after which the Start has ended as the call came back, or the call failed with an error the policy retries and the worker is still starting |
| `LifecycleOperations.AfterFailedAttempt` | runtime.go:1714-1734 | another attempt follows only if the policy allows it; otherwise the error is the attempt's, and the policy gives up on it, or the context's, and the context is done |
| `LifecycleOperations.Stop` | runtime.go:404-448 | Worker.Stop is called exactly once, and nothing else, on exactly a worker that may be stopped, and what the call came back with decides: stopped iff nil, otherwise failed with its error or, for a panic, re-raised iff under the crash policy; one failure event more than reports iff failed; the generation is kept |
| `LifecycleOperations.RunStop` | runtime.go:418-448 | the same for a Stop past its checks: the log grew by one call of Worker.Stop and its outcome, which decides the end |
| `LifecycleOperations.Drain` | runtime.go:456-466 | a running or draining worker ends draining, any other is rejected and left alone |
| `BulkOperations.StartAll` | runtime.go:488-502 | the log shows one Start, with its calls and their outcomes, of each worker that may be started, in registration order, all but the last finished; it halts at a worker that was draining, or at one whose own Start ended as its calls decided, with the failure events of that one accounted for; later workers are untouched, nothing is rolled back, no Stop is called |
| `CallSequences.StartableMembers` | runtime.go:488-502 | the workers StartAll will start are exactly the registered, stopped and failed ones of the order |
| `BulkOperations.DrainAllBestEffort` | runtime.go:548-563 | afterwards no worker is running; every running one was drained, as the log shows, unless a failure was faster, and the errors are one for each that was not; no worker code is called |
| `BulkOperations.WaitAllIdle` | runtime.go:659-668 | it returns nil only having seen no command in flight, and an error only once the context is done; its variant is the lowest in-flight count seen, which with admission closed is the count itself; meanwhile only free steps happen |
| `BulkOperations.StopAll` | runtime.go:577-594 | the log shows one Stop call, in reverse registration order, on exactly the running, draining and failed workers, and the errors are those of these calls in order; all end inactive, and no error iff none is failed; it ends early iff such a call panics under the crash policy, that call being its last and the first such; never if no worker that may be stopped has that policy |
| `CallSequences.StoppableMembers` | runtime.go:577-594 | the workers StopAll will stop are exactly the running, draining and failed ones of the order |
| `CallSequences.StopErrorAt` | runtime.go:577-594 | each Stop call that did not return nil adds its error, or its recovered panic, at its place among the errors |
| `Shutdown.RunShutdown` | runtime.go:609-629 | every Stop called finds no worker running and no command in flight, whatever dispatches race with it; all that may be stopped are stopped once in reverse order, unless a panic is re-raised, of the last call made, under the crash policy; it gives up only when the context is done, with the workers drained and before the first Stop; the errors are one for each running worker the log does not show drained, then those of the Stop calls in order, or the context's |
| `Shutdown.NobodyCrashesNoPanic` | runtime.go:419-431 | no stopping sequence is left by a panic unless, when it begins, some worker that may be stopped has the crash policy |
| `Shutdown.StopsAreDrained` | runtime.go:609-629 | once no worker is running and as long as none is brought into service, replaying the log up to any later Stop call shows no worker running |
| `Shutdown.AcquireLifecycle` | runtime.go:270-289 | the gate is taken, or the context done and the gate given back if it was taken; if another operation may hold it, that one and any others run first and log their steps |
| `Shutdown.ShutdownHolding` | runtime.go:603-629 | from taking the gate on: as RunShutdown, with admission reopened and the gate given back on every path; no panic if no worker that may be stopped has the crash policy |
| `Shutdown.Shutdown` | runtime.go:603-629 | the context is done before it has the gate, or all of the above since it had it, with the errors of RunShutdown; without contention only free steps came before |
| `Shutdown.StopAllWorkers` | runtime.go:571-594 | the context is done before it has the gate, or the following since it had it; without contention only free steps came before |
| `Shutdown.StopAllHolding` | runtime.go:571-594 | from taking the gate on: the Stop calls and errors of StopAll; all workers end inactive unless a panic is re-raised as there; no error is returned iff none is failed; gate and admission are given back |
| `Shutdown.DrainedStoppable` | runtime.go:548-594 | draining changes nothing about which workers StopAll will stop |
| `ServekitService.Service.StartAllWorkers` | servekitservice/service.go:168-187 | either the context is done before the gate is taken, or StartAll was run, and the result, the errors and the panic are its own; no Stop is called |
| `ServekitService.Service.ShutdownWorkersWithContext` | servekitservice/service.go:224-239 | Shutdown, and StopAll exactly if that came back with an error and its context is done; the errors are theirs, in order; the fallback is missed only if its own context is done; a panic is re-raised only if a call of worker code under the crash policy panicked |
| `ServekitService.Service.Run` | servekitservice/service.go:157-205 | the workers are started if asked for, the server runs only if they were, and the workers are shut down after either, exactly if asked for and no panic of the start was re-raised; the errors are theirs in order; with graceful shutdown, no worker is left in service or in transition, and none under the crash policy means that Run returns, unless the context of the fallback is done; without fallback every Stop found no command in flight |
| `ServekitService.LaunchErrorComesFirst` | servekitservice/service.go:168-187 | if Run returned: the error of a start that failed is its first error, the context's if the start never had the gate, and then the server was not run; without such an error the server's errors come first |
| `ServekitService.ClosingErrorsComeLast` | servekitservice/service.go:188-239 | what follows the errors of start and server: nothing without a shutdown; else those of Shutdown and then those of the fallback if it was needed, each the context's alone if that sequence never had the gate |
| `ServekitService.NilMeansAllWentWell` | servekitservice/service.go:157-205 | Run returns nil only if every worker that could be started had its last call of Worker.Start return nil, the server had no error, and the shutdown asked for was completed without one |
| `ServekitService.UnwoundExactly` | servekitservice/service.go:157-239 | Run is left by a panic exactly when the start, the shutdown or its fallback re-raised one; the workers are shut down exactly if asked for and the start was not left by a panic |
| `ServekitService.ToldMeansLeft` | servekitservice/service.go:157-239 | what the course of a Run implies for the workers it leaves, the Stop calls it made and the panic it re-raises |
| `ServekitService.LaunchPanicIsLogged` | servekitservice/service.go:168-187 | a start that re-raises a panic ends with a logged call of Worker.Start that panicked, of a worker under the crash policy |
| `ServekitService.NoCrashPolicyNoUnwinding` | servekitservice/service.go:157-205 | without workers under the crash policy Run returns |
| `CommandDispatch.Dispatch` | runtime.go:227-265 | what a dispatch makes known is exactly the trace its ending determines, whatever else happens, and it ends holding no slot; a refused one was refused for the reason that held of the records when it asked, and an admitted one found them as admission demands |
| `CommandDispatch.ExecuteCommand` | runtime.go:1671-1694 | the handler calls, what each came back with, and what is recorded of it: all but the last an error that the retry policy retries; a panic ends them |
| `CommandDispatch.BeginDispatch` | runtime.go:241-255 | a refused dispatch ends its observation at once, without attempts; the answer is the one the records called for at the moment of asking |
| `CommandDispatch.FinishDispatch` | runtime.go:247-257 | the slot is released first, then the observation ended |
| `CommandDispatch.OtherStepKeepsTrace` | runtime.go:1579-1643 | no step of any other party adds to a dispatch's trace or touches its slot |
| `CommandDispatch.DispatchIsAccounted` | runtime.go:1649-1694 | one release if admitted, one ended observation; handler calls equal attempts, and each came back; failure events equal the errors and panics the handler came back with |
| `Opskit.ReadinessSnapshot` | opskit.go:63-83 | one item per worker in order; an unready snapshot has a blocking unready item but for the two named cases |
| `Opskit.ItemsTell` | opskit.go:63-93 | what an item says, as iffs over the record and configuration of its worker: ready, blocking, and each component state; each worker has exactly one item |
| `Opskit.ReadinessIsExplained` | opskit.go:63-92 | exactly when an unready snapshot has no blocking unready item |
| `Opskit.UnreadyHasABlockingItem` | opskit.go:85-93 | with the all-workers policy or a contributing worker, an unready runtime has an item to blame |
| `Opskit.AllWorkersItemsDecide` | opskit.go:85-93 | under the all-workers policy the runtime is ready iff there are items and all are ready |
| `Opskit.AllWorkersReadiness` | runtime_status.go:142-149 | all-workers readiness means some worker and all of them running and ready |
| `Opskit.ContributingReadiness` | runtime_status.go:150-161 | default readiness without a blocking failure: all contributors ready, or quiet running when there is none |
| `Opskit.EmptyRuntimeIsUnexplained` | opskit.go:63-83 | the one exception: a runtime without workers |
| `StatusWitness.IdleRuntimeIsUnexplained` | opskit.go:63-93 | the other exception, reached: one registered worker that does not contribute, under the default policy |
| `LoopResults.StepKeepsLoopOk` | loop.go:249-423 | every step of the caller and of every goroutine keeps the LoopWorker invariant |
| `LoopResults.RunKeepsLoopOk` | loop.go:167-423 | so does every run |
| `LoopResults.OneAtATime` | loop.go:309-423 | at most one loop body or cleanup hook is executing, never one of each |
| `LoopResults.LaunchFollowsCleanup` | loop.go:249-274 | a loop is launched only after every earlier one returned and had exactly one successful cleanup |
| `LoopResults.AcceptedMeansClean` | loop.go:249-264 | an accepted Start finds no loop alive and no cleanup pending or running |
| `LoopResults.StateTells` | loop.go:249-354 | what each value of the state field says of the caller and of the goroutine of the last loop, as iffs |
| `LoopResults.StartAnswers` | loop.go:249-264 | when a Start is accepted, refused for a pending cleanup or refused as active, by whether the last loop was given up, cleaned up and had a cleanup attempted |
| `LoopResults.StopDuringStartWouldClean` | loop.go:283-298 | why Start and Stop must come one at a time |
| `LoopResults.DoneClosesOnce` | loop.go:344-354 | no done channel is closed twice |
| `LoopResults.LoopIsCurrent` | loop.go:344-354 | the guard on the current done channel is redundant |
| `LoopResults.AttemptClosesOnce` | loop.go:414-423 | no attempt channel is closed twice; who ends an attempt ends the current one |
| `LoopResults.JoinersNeverWait` | loop.go:356-364 | who does not run the hook finds a published successful attempt, so no nil attempt is dereferenced |
| `LoopResults.ExitsAreReported` | loop.go:309-342 | before a loop is given up its exit was reported, unless a stop was requested, the context cancelled and the error nil or that cancellation |
| `LoopResults.ExitsAreJudgedByCancellation` | loop.go:309-321 | an exit counts as requested exactly if the loop had been cancelled by then, and then goes unreported iff it is nil or the cancellation |
| `LoopResults.StopNilMeansQuiescent` | loop.go:228-247 | Stop returns nil only when nothing executes, every loop is over and reported, and each had exactly one cleanup |
| `LoopResults.QuiescenceLasts` | loop.go:228-264 | quiescence lasts until the next Start |
| `LoopProgress.StopSucceedsIffNotDoomed` | loop.go:228-396 | from a reachable state with no call in progress some run lets Stop return nil iff the current loop neither has re-raised a panic of its own cleanup nor is about to |
| `LoopProgress.StopCanSucceed` | loop.go:228-247 | the run, leaving the worker quiescent |
| `LoopProgress.DoomLastsForever` | loop.go:383-396 | a loop that re-raises a cleanup panic is never given up, over any run |
| `LoopProgress.StartCanSucceed` | loop.go:167-214 | from every reachable state where a Start is accepted some run lets it return nil, with and without auto-ready, its new loop in its body |
| `LoopProgress.StoppedMayStart` | loop.go:228-264 | after a Stop that returned nil the next Start is accepted |
| `WorkerkitLoop.LoopWorker.BeginStart` | loop.go:249-264 | refines the check that accepts or refuses a Start |
| `WorkerkitLoop.LoopWorker.FinishStart` | loop.go:266-274 | refines the step that publishes the new loop |
| `WorkerkitLoop.LoopWorker.FinishFailedStart` | loop.go:276-281 | refines the step back to idle |
| `WorkerkitLoop.LoopWorker.BeginStop` | loop.go:283-298 | refines the step that finds the loop to cancel |
| `WorkerkitLoop.LoopWorker.MarkStopping` | loop.go:300-307 | refines the guarded mark |
| `WorkerkitLoop.LoopWorker.JudgeExit` | loop.go:312-317 | refines the judgement whether a stop was requested |
| `WorkerkitLoop.LoopWorker.FinishLoop` | loop.go:344-352 | refines the step that gives the loop up |
| `WorkerkitLoop.LoopWorker.BeginStopHook` | loop.go:398-412 | refines the step that starts or joins a cleanup attempt |
| `WorkerkitLoop.LoopWorker.FinishStopHook` | loop.go:414-423 | refines the step that publishes an attempt |
| `WorkerkitLoop.LoopWorker.Step` | loop.go:167-423 | every step that can be taken is carried out by the code above and stays in a reachable state |
| `WorkerkitLoop.LoopWorker.RunStopHook` | loop.go:356-381 | the hook is run iff no attempt had succeeded, as exactly one new attempt that is published and returned as it came back; otherwise no attempt is made and a successful one joined, unless the context is done; after a failed start the result is an error in either case |
| `WorkerkitLoop.LoopWorker.Start` | loop.go:167-225 | nil iff accepted, prepared and, with auto-ready, marked ready; a loop is launched iff accepted and prepared, and then exactly one; a refused Start returns the refusal, an unprepared one the error of its preparation, and any other error means that the loop was brought down again |
| `WorkerkitLoop.LoopWorker.Stop` | loop.go:228-247 | nil means the worker is quiescent; an error means that the context is done, or that there was neither a loop nor a handle, or that the hook was called and failed or panicked, as the last attempt tells; no loop is launched |
| `WorkerkitLoop.StartAnswersTell` | loop.go:167-225 | nil exactly if accepted, prepared and, with auto-ready, marked ready; left by a panic only of a hook; a cleanup error means a refusal or the preparation's own error |
| `WorkerkitLoop.StopAnswers` | loop.go:228-247 | each answer of Stop tells its cause: a done context, no handle, or a hook that failed or panicked, with the last attempt closed with a cleanup error |
| `WorkerkitLoop.LoopWorker.RunFailureStopHook` | loop.go:383-396 | the loop's own cleanup leads on to giving the loop up unless a panic is re-raised under the crash policy |
| `WorkerkitLoop.LoopWorker.RunLoop` | loop.go:309-354 | the done channel ends up closed and the exit was reported exactly if it was not intended, unless a cleanup panic is re-raised |
| `WorkerSight.FreeStepSight` | runtime.go:1004-1066 | what a free step can do to one worker's lifecycle, generation and report flag |
| `WorkerSight.MidStepSight` | runtime.go:1112-1310 | what the end of its own start or stop does to them |
| `WorkerSight.ReportSight` | runtime.go:1320-1391 | a report of the current generation fails a serving worker or the start in progress |
| `LoopComposition.JointStepKeepsOk` | worker.go:53-56 | every joint step of runtime and LoopWorker keeps what the record says about the loop |
| `LoopComposition.StoppedMeansQuiescent` | runtime.go:408-448 | a worker recorded as stopped has no loop body or hook executing; every loop returned, was reported if it had to be, and was cleaned up exactly once |
| `LoopComposition.RunningMeansAlive` | loop.go:309-342 | a worker recorded as running or draining has its loop of the current generation in its body or about to report its exit |
| `LoopComposition.ReportsAreNeverStuck` | loop.go:326-327 | a loop that has to report its exit always can, and a call that has returned can always answer the gate holder |
| `LoopWitness.RunningIsReached` | runtime.go:338-402 | some run records the worker as running, its loop in its body |
| `LoopWitness.StoppedIsReached` | runtime.go:418-448 | some run records it as stopped after it ran |

## Left out

* HTTP, Servekit, the Opskit registry, OpenTelemetry, slog and JSON: plumbing around foreign code. Servekit's run is an arbitrary result that may or may not have asked for the shutdown context.
* Wall-clock time: timers, timeouts and polling intervals. A context is a flag that may become set and stays set; timestamps are left out of all records.
* A WaitAllIdle that never returns, because slots are not released and its context is never done: the method is about the waits that return. Where admission is open the count may rise in between.
* A Start or Stop of a LoopWorker that never returns, because its loop does not end and the context is never done.
* A wait for the lifecycle gate that never ends, because its holder's call of worker code does not return.
* Other lifecycle callers during the coordinator's Run: its results are for the coordinator alone, with handles and dispatches stepping freely.
* Exponential backoff and jitter: floating point. A jitter is an arbitrary function of delay and attempt; a custom policy that never gives up is not modelled.
* The wrap-around of the generation counter after 2^64 starts.
* Names, name resolution and command lookup: names are opaque keys, and whether a command is registered is an input.
* Error texts, failure codes and their redaction: only a loop-cleanup error, the context's error and a recovered panic are told apart. A joined error stands for its first part.
* Option validation, discovery and inspection beyond the readiness items, status messages.
* Observers: they are taken to neither panic nor change the runtime; events are in commit order, not in the order observers see them.
* DrainAll and WaitIdle: DrainAll is DrainAllBestEffort up to the first rejection, WaitIdle is WaitAllIdle for one worker's count; neither has a step of its own.
* The public Start, Stop, Drain and StartAll: they take the gate as Shutdown does, and then run the method of that name here.
* Panics in a loop body: they end the process.
* A LoopWorker called without a runtime handle in Start, or without a loop: it returns an error before it takes any step.
* check_loop.go and the command adapters: instances of a loop body or a handler.
