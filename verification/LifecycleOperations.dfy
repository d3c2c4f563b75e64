/** The lifecycle operations of runtime.go, run under the gate while handles and dispatches
    step in between. */
module LifecycleOperations {
  import opened Basics
  import opened Retry
  import opened Lifecycle
  import opened EventLog
  import opened RuntimeSteps
  import opened Interference
  import opened RuntimeTheorems
  import opened RuntimeResults
  import opened OperationSteps
  import opened OperationEffects
  import opened Milestones
  import opened WorkerkitRuntime

  /** How Start, Stop or Drain of one worker ended. A crash re-raises the panic. */
  datatype Completion = Finished | Rejected(why: Result) | Failing(err: Error) | Crashed

  /** Any number of free steps by others; the context may run out meanwhile. */
  method Interfere(r: Runtime, ctx: Context)
    requires r.Valid()
    modifies r, ctx
    ensures r.Valid() && Rely(old(r.View()), r.View())
    ensures old(ctx.cancelled) ==> ctx.cancelled
  {
    hide Reachable, Rely, Enabled, Next;
    var steps: nat := *;
    RelyItself(r.View());
    while steps > 0
      invariant r.Valid() && Rely(old(r.View()), r.View())
      invariant old(ctx.cancelled) ==> ctx.cancelled
    {
      var l: Label := *;
      if IsFreeStep(l) && Enabled(r.CoreView(), l) {
        FreeStepRelies(r.View(), l);
        RelyTransitive(old(r.View()), r.View(), Next(r.View(), l));
        var _ := r.Step(l);
      }
      var expired: bool := *;
      if expired {
        ctx.cancelled := true;
      }
      steps := steps - 1;
    }
  }

  predicate Startable(state: LifecycleState) {
    state == Registered || state == Stopped || state == Failed
  }

  predicate Stoppable(state: LifecycleState) {
    state == Running || state == Draining || state == Failed
  }

  /** The gate holder is in the middle of starting the worker, in its current generation. */
  ghost predicate MidStart(c: Core, name: Name, generation: nat) {
    && c.gate.Held? && c.gate.activity == StartingWorker(name, generation)
    && name in c.workers && name in c.configs
    && c.workers[name].lifecycle == Starting && c.workers[name].generation == generation
  }

  ghost predicate MidStop(c: Core, name: Name, generation: nat) {
    && c.gate.Held? && c.gate.activity == StoppingWorker(name, generation)
    && name in c.workers && name in c.configs
    && c.workers[name].lifecycle == Stopping && c.workers[name].generation == generation
  }

  /** What interference leaves alone. */
  lemma RelyFacts(s: System, t: System, name: Name, generation: nat)
    requires Rely(s, t)
    ensures t.core.gate == s.core.gate && t.core.configs == s.core.configs && t.core.order == s.core.order
    ensures t.mark == s.mark && s.log <= t.log
    ensures MidStart(s.core, name, generation) ==> MidStart(t.core, name, generation)
    ensures MidStop(s.core, name, generation) ==> MidStop(t.core, name, generation)
    ensures name in s.core.workers <==> name in t.core.workers
    ensures name in s.core.workers ==> FreeChange(s.core.workers[name], t.core.workers[name])
  {
  }

  /** Any number of free steps in the middle of an operation. */
  method Wait(r: Runtime, ctx: Context, ghost s0: System, ghost touched: set<Name>, ghost stops: seq<Name>)
    requires r.Valid() && Effect(s0, r.View(), touched, stops)
    modifies r, ctx
    ensures r.Valid() && Effect(s0, r.View(), touched, stops)
    ensures Rely(old(r.View()), r.View())
    ensures old(ctx.cancelled) ==> ctx.cancelled
  {
    hide Reachable, Rely, HeldFrame, WorkersKept, StopsCalled;
    assert r.View().core.gate.Held? by { EffectHeld(s0, r.View(), touched, stops); }
    Interfere(r, ctx);
    RelyEffect(old(r.View()), r.View());
    EffectTransitive(s0, old(r.View()), r.View(), touched, {}, stops, []);
    assert touched + {} == touched && stops + [] == stops;
  }

  lemma EffectHeld(s: System, t: System, touched: set<Name>, stops: seq<Name>)
    requires Effect(s, t, touched, stops)
    ensures s.core.gate.Held? && t.core.gate.Held?
  {
    hide WorkersKept, StopsCalled;
  }

  /** One step of the operation on its worker. */
  method Act(r: Runtime, l: Label, ghost s0: System, ghost name: Name, ghost stops: seq<Name>) returns (result: Result)
    requires r.Valid() && Effect(s0, r.View(), {name}, stops)
    requires Enabled(r.CoreView(), l) && IsOperationStep(l) && OperatesOn(r.CoreView(), l) == name
    requires name in r.workerStates
    modifies r
    ensures r.Valid() && r.View() == Next(old(r.View()), l)
    ensures result == Apply(old(r.CoreView()), l).result
    ensures Effect(s0, r.View(), {name}, if l.CallStop? then stops + [name] else stops)
  {
    hide Reachable, Enabled, Apply, Effect;
    StepEffect(r.View(), l);
    EffectTransitive(s0, r.View(), Next(r.View(), l), {name}, {name}, stops, if l.CallStop? then [name] else []);
    assert {name} + {name} == {name} && stops + [] == stops;
    result := r.Step(l);
  }

  // ---------------------------------------------------------------------------
  // What the steps of one operation do to its own worker.

  lemma BeginStartBegins(c: Core, name: Name)
    requires AtRest(c) && name in c.workers && name in c.configs
    ensures var o, w := Apply(c, BeginStart(name)), c.workers[name];
            if Startable(w.lifecycle)
            then o.result == Began(w.generation + 1) && MidStart(o.core, name, w.generation + 1)
                && o.core.gate.call.NotCalled?
            else o == Reject(c, InvalidState)
  {
    hide Observed;
    var w, o := c.workers[name], BeginWorkerStart(c, name);
    if Startable(w.lifecycle) {
      var after := Moved(w, Starting).(generation := w.generation + 1, failureReportedDuringStart := false);
      assert o == Observed(c, name, after, [], Began(after.generation));
      assert o.core.workers[name] == after;
    }
  }

  lemma BeginStopBegins(c: Core, name: Name)
    requires AtRest(c) && name in c.workers && name in c.configs
    ensures var o, w := Apply(c, BeginStop(name)), c.workers[name];
            if Stoppable(w.lifecycle)
            then o.result == Began(w.generation) && MidStop(o.core, name, w.generation) && o.core.gate.call.NotCalled?
            else o == Reject(c, InvalidState)
  {
    hide Observed;
    var w, o := c.workers[name], BeginWorkerStop(c, name);
    if Stoppable(w.lifecycle) {
      assert o == Observed(c, name, Moved(w, Stopping), [], Began(w.generation));
      assert o.core.workers[name] == Moved(w, Stopping);
    }
  }

  lemma MidStepsStay(c: Core, l: Label, name: Name, generation: nat)
    requires Enabled(c, l) && (l.CallStart? || l.CallStop? || l.Answer? || l.RecordFailure?)
    ensures MidStart(c, name, generation) ==> MidStart(Apply(c, l).core, name, generation)
    ensures MidStop(c, name, generation) ==> MidStop(Apply(c, l).core, name, generation)
    ensures var gate := Apply(c, l).core.gate;
            gate.Held? && gate.call == match l case Answer(outcome) => Answered(outcome)
                                               case RecordFailure(_) => c.gate.call
                                               case _ => InProgress
  {
  }

  /** The gate holder is at rest, and its worker has this lifecycle and generation. */
  ghost predicate RestsAt(c: Core, name: Name, state: LifecycleState, generation: nat) {
    && AtRest(c) && name in c.workers
    && c.workers[name].lifecycle == state && c.workers[name].generation == generation
  }

  lemma CompleteStartRests(c: Core, name: Name, generation: nat)
    requires Enabled(c, CompleteStart) && MidStart(c, name, generation)
    ensures RestsAt(Apply(c, CompleteStart).core, name,
                    if c.workers[name].failureReportedDuringStart then Failed else Running, generation)
  {
    hide Observed;
  }

  lemma CompleteStopRests(c: Core, name: Name, generation: nat)
    requires Enabled(c, CompleteStop) && MidStop(c, name, generation)
    ensures RestsAt(Apply(c, CompleteStop).core, name, Stopped, generation)
  {
    hide Observed;
  }

  lemma FailingRests(c: Core, l: Label, name: Name, generation: nat)
    requires Enabled(c, l) && (l.FailOperation? || l.FailCleanup?)
    requires MidStart(c, name, generation) || MidStop(c, name, generation)
    ensures RestsAt(Apply(c, l).core, name, Failed, generation)
  {
    hide Observed;
  }

  /** The failure events and reports of the operation that began at mark. */
  function FailuresSince(log: seq<Event>, mark: nat, name: Name): nat
    requires mark <= |log|
  {
    Count(log[mark..], IsLifecycleFailure(name))
  }

  function ReportsSince(log: seq<Event>, mark: nat, name: Name): nat
    requires mark <= |log|
  {
    Count(log[mark..], IsReport(name))
  }

  /** How a Start that got past its checks left the worker, and the failure events it made. */
  ghost predicate StartEnded(before: System, after: System, name: Name, res: Completion) {
    && |before.log| <= after.mark <= |after.log|
    && name in after.core.workers
    && var state, failures, reports := after.core.workers[name].lifecycle,
           FailuresSince(after.log, after.mark, name), ReportsSince(after.log, after.mark, name);
       match res
       case Finished => failures == reports && state == if reports > 0 then Failed else Running
       case Failing(err) =>
         state == Failed && failures == if err.LoopCleanup? then reports + 1 else if reports > 0 then reports else 1
       case Crashed => state == Failed && failures == if reports > 0 then reports else 1
       case Rejected(_) => false
  }

  /** The failed operation ended with this error of its worker's last call, or of the context. */
  predicate EndsAs(l: Label, res: Completion) {
    match l
    case CompleteStart | CompleteStop => res == Finished
    case FailOperation(err, panicked) => (panicked && res == Crashed) || (res == Failing(err) && !err.LoopCleanup?)
    case FailCleanup(err) => res == Failing(err) && err.LoopCleanup?
    case _ => false
  }

  lemma StartEnds(s0: System, s: System, l: Label, name: Name, generation: nat, res: Completion)
    requires Reachable(s) && MidStart(s.core, name, generation) && Enabled(s.core, l) && !l.CompleteStop?
    requires |s0.log| <= s.mark && EndsAs(l, res)
    ensures StartEnded(s0, Next(s, l), name, res)
    ensures RestsAt(Next(s, l).core, name, Next(s, l).core.workers[name].lifecycle, generation)
  {
    hide Reachable, Apply, Count, IsLifecycleFailure, IsReport;
    StartFailureEvents(s, l);
    EndReportEvents(s, l);
    if l.CompleteStart? {
      CompleteStartRests(s.core, name, generation);
    } else {
      FailingRests(s.core, l, name, generation);
    }
  }

  // ---------------------------------------------------------------------------
  // What the calls of worker code decide.

  /** The milestones of a Start: its calls of Worker.Start, each with what it came back with. */
  function StartCalls(name: Name, generation: nat, calls: seq<CallOutcome>): seq<Event> {
    if calls == [] then []
    else
      StartCalls(name, generation, calls[..|calls| - 1]) +
      [StartCalled(name, generation), CallReturned(name, calls[|calls| - 1])]
  }

  /** Each of these attempts failed with an error after which the policy allows another. */
  predicate AllRetried(policy: Policy, calls: seq<CallOutcome>) {
    && |calls| < policy.Bound()
    && forall k: nat :: k < |calls| ==>
         calls[k].Returned? && calls[k].err.Some? && policy.NextDelay((k + 1) as Int64, calls[k].err.value).Some?
  }

  /** How a panic of worker code ends the operation. */
  function PanicEnds(panicPolicy: PanicPolicy, id: int): Completion {
    if panicPolicy == Crash then Crashed else Failing(RecoveredPanic(id))
  }

  /** The last attempt ends the Start as its call came back; only the context can end it
      otherwise. */
  predicate AttemptDecides(cfg: WorkerConfig, attempt: Int64, call: CallOutcome, res: Completion) {
    match call
    case Returned(None) => res == Finished
    case Returned(Some(err)) =>
      res == Failing(ContextDone) || (res == Failing(err) && cfg.startRetry.NextDelay(attempt, err).None?)
    case Panicked(id) => res == PanicEnds(cfg.panicPolicy, id)
  }

  /** A Start calls Worker.Start until it returns nil, panics, or may not be tried again, and
      ends as the last call came back. */
  predicate StartDecided(cfg: WorkerConfig, calls: seq<CallOutcome>, res: Completion) {
    && calls != [] && AllRetried(cfg.startRetry, calls[..|calls| - 1])
    && AttemptDecides(cfg, |calls| as Int64, calls[|calls| - 1], res)
  }

  lemma DecidedByLast(cfg: WorkerConfig, calls: seq<CallOutcome>, call: CallOutcome, res: Completion)
    requires AllRetried(cfg.startRetry, calls) && AttemptDecides(cfg, (|calls| + 1) as Int64, call, res)
    ensures StartDecided(cfg, calls + [call], res)
  {
    assert (calls + [call])[..|calls + [call]| - 1] == calls;
  }

  /** A Stop calls Worker.Stop once and ends as the call came back. */
  predicate StopDecided(cfg: WorkerConfig, call: CallOutcome, res: Completion) {
    match call
    case Returned(None) => res == Finished
    case Returned(Some(err)) => res == Failing(err)
    case Panicked(id) => res == PanicEnds(cfg.panicPolicy, id)
  }

  /** How a Start ends, by its last call: finished iff that returned nil; by a re-raised panic
      iff it panicked under the crash policy; else with the recovered panic, or with the error of
      the call when the policy allows no other attempt, or with that of the context. It is never
      a rejection, and each earlier call returned an error the policy allowed to retry. */
  lemma StartEndsByLastCall(cfg: WorkerConfig, calls: seq<CallOutcome>, res: Completion)
    requires StartDecided(cfg, calls, res)
    ensures var last := calls[|calls| - 1];
            && !res.Rejected?
            && (res.Finished? <==> last == Returned(None))
            && (res.Crashed? <==> last.Panicked? && cfg.panicPolicy == Crash)
            && (res.Failing? ==>
                  match last
                  case Panicked(id) => res.err == RecoveredPanic(id)
                  case Returned(Some(err)) =>
                    res.err == ContextDone || (res.err == err && cfg.startRetry.NextDelay(|calls| as Int64, err).None?)
                  case Returned(None) => false)
    ensures forall k: nat :: k < |calls| - 1 ==>
              calls[k].Returned? && calls[k].err.Some?
              && cfg.startRetry.NextDelay((k + 1) as Int64, calls[k].err.value).Some?
  {
  }

  /** How a Stop ends, by its one call. */
  lemma StopEndsByItsCall(cfg: WorkerConfig, call: CallOutcome, res: Completion)
    requires StopDecided(cfg, call, res)
    ensures res.Finished? <==> call == Returned(None)
    ensures res.Crashed? <==> call.Panicked? && cfg.panicPolicy == Crash
    ensures !res.Rejected?
    ensures res.Failing? ==> if call.Panicked? then res.err == RecoveredPanic(call.id)
              else call == Returned(Some(res.err))
  {
  }

  /** The milestones of a Stop: one call of Worker.Stop and what it came back with. */
  predicate StopCall(name: Name, generation: nat, call: CallOutcome, trace: seq<Event>) {
    && |trace| == 2 && trace[0].StopCalled? && trace[0].worker == name && trace[0].generation == generation
    && trace[1] == CallReturned(name, call)
  }

  lemma NoStartCalls(name: Name, generation: nat)
    ensures StartCalls(name, generation, []) == []
  {
  }

  lemma OneMoreCall(name: Name, generation: nat, calls: seq<CallOutcome>, call: CallOutcome)
    ensures StartCalls(name, generation, calls) + [StartCalled(name, generation)] + [CallReturned(name, call)]
         == StartCalls(name, generation, calls + [call])
  {
    assert (calls + [call])[..|calls + [call]| - 1] == calls;
    assert [StartCalled(name, generation)] + [CallReturned(name, call)]
        == [StartCalled(name, generation), CallReturned(name, call)];
  }

  lemma NoCallsRetried(policy: Policy)
    ensures AllRetried(policy, [])
  {
  }

  lemma RetriedOnce(policy: Policy, calls: seq<CallOutcome>, err: Error)
    requires AllRetried(policy, calls) && policy.NextDelay((|calls| + 1) as Int64, err).Some?
    ensures |calls| + 1 < policy.Bound() && AllRetried(policy, calls + [Returned(Some(err))])
  {
  }

  /** The gate does not move under interference, so the holder's next step stays possible. */
  lemma TurnStays(s: System, t: System, l: Label)
    requires Rely(s, t) && Enabled(s.core, l) && IsOperationStep(l)
    ensures Enabled(t.core, l)
  {
  }

  /** The holder's next steps, as its call has come back. */
  lemma StartTurns(c: Core, name: Name, generation: nat)
    requires MidStart(c, name, generation)
    ensures c.gate.call.NotCalled? ==> Enabled(c, CallStart)
    ensures c.gate.call == Answered(Returned(None)) ==> Enabled(c, CompleteStart)
  {
  }

  lemma StartFailTurns(c: Core, name: Name, generation: nat, cause: Error, err: Error)
    requires MidStart(c, name, generation) && c.gate.call == Answered(Returned(Some(cause)))
    ensures Enabled(c, CallStart)
    ensures !cause.LoopCleanup? ==> Enabled(c, RecordFailure(cause))
    ensures err == cause || err == ContextDone
            ==> Enabled(c, if err.LoopCleanup? then FailCleanup(err) else FailOperation(err, false))
  {
  }

  lemma StopTurns(c: Core, name: Name, generation: nat)
    requires MidStop(c, name, generation)
    ensures c.gate.call.NotCalled? ==> Enabled(c, CallStop)
    ensures c.gate.call == Answered(Returned(None)) ==> Enabled(c, CompleteStop)
  {
  }

  lemma StopFailTurns(c: Core, name: Name, generation: nat, err: Error)
    requires MidStop(c, name, generation) && c.gate.call == Answered(Returned(Some(err)))
    ensures !err.LoopCleanup? ==> Enabled(c, RecordFailure(err))
    ensures Enabled(c, if err.LoopCleanup? then FailCleanup(err) else FailOperation(err, false))
  {
  }

  lemma PanicTurns(c: Core, name: Name, generation: nat, id: int)
    requires MidStart(c, name, generation) || MidStop(c, name, generation)
    requires c.gate.call == Answered(Panicked(id))
    ensures Enabled(c, FailOperation(RecoveredPanic(id), true))
  {
  }

  lemma AnswerTurns(c: Core, name: Name, generation: nat, outcome: CallOutcome)
    requires MidStart(c, name, generation) || MidStop(c, name, generation)
    requires c.gate.call.InProgress?
    ensures Enabled(c, Answer(outcome)) && OperatesOn(c, Answer(outcome)) == name
  {
  }

  // ---------------------------------------------------------------------------
  // Start.

  /** Worker.Start or Worker.Stop running: others step freely, then it returns or panics. */
  method CallWorker(r: Runtime, ctx: Context, l: Label, ghost s0: System, name: Name, generation: nat,
                    ghost stops: seq<Name>, ghost trace: seq<Event>)
    returns (outcome: CallOutcome, ghost called: Event)
    requires r.Valid() && Effect(s0, r.View(), {name}, stops) && Passed(s0, r.View(), trace)
    requires (l == CallStart && MidStart(r.CoreView(), name, generation))
             || (l == CallStop && MidStop(r.CoreView(), name, generation))
    requires Enabled(r.CoreView(), l)
    modifies r, ctx
    ensures r.Valid() && Effect(s0, r.View(), {name}, if l == CallStop then stops + [name] else stops)
    ensures Passed(s0, r.View(), trace + [called] + [CallReturned(name, outcome)])
    ensures if l == CallStart then called == StartCalled(name, generation)
            else called.StopCalled? && called.worker == name && called.generation == generation
    ensures l == CallStart ==> MidStart(r.CoreView(), name, generation)
    ensures l == CallStop ==> MidStop(r.CoreView(), name, generation)
    ensures r.gate.Held? && r.gate.call == Answered(outcome)
    ensures r.mark == old(r.mark)
    ensures old(ctx.cancelled) ==> ctx.cancelled
  {
    hide Reachable, Effect, Rely, Passed, Enabled, Apply;
    ghost var before := r.View();
    Wait(r, ctx, s0, {name}, stops);
    RelyFacts(before, r.View(), name, generation);
    TurnStays(before, r.View(), l);
    PassedRely(s0, before, r.View(), trace);
    MidStepsStay(r.CoreView(), l, name, generation);
    CalledEvent(r.CoreView(), l);
    called := Apply(r.CoreView(), l).events[0];
    PassedStep(s0, r.View(), l, trace);
    var _ := Act(r, l, s0, name, stops);
    ghost var running, more := r.View(), if l == CallStop then stops + [name] else stops;
    Wait(r, ctx, s0, {name}, more);
    RelyFacts(running, r.View(), name, generation);
    PassedRely(s0, running, r.View(), trace + [called]);
    outcome := *;
    AnswerTurns(r.CoreView(), name, generation, outcome);
    MidStepsStay(r.CoreView(), Answer(outcome), name, generation);
    PassedStep(s0, r.View(), Answer(outcome), trace + [called]);
    var _ := Act(r, Answer(outcome), s0, name, more);
  }

  lemma CalledEvent(c: Core, l: Label)
    requires Enabled(c, l) && (l.CallStart? || l.CallStop?)
    ensures |Apply(c, l).events| == 1 && Apply(c, l).events == [Apply(c, l).events[0]]
    ensures var e, a := Apply(c, l).events[0], c.gate.activity;
            if l.CallStart? then e == StartCalled(a.name, a.generation)
            else e.StopCalled? && e.worker == a.name && e.generation == a.generation
  {
  }

  /** Ends the Start in progress. */
  method EndStart(r: Runtime, l: Label, ghost s0: System, name: Name, generation: nat, ghost res: Completion,
                  ghost trace: seq<Event>)
    requires r.Valid() && Effect(s0, r.View(), {name}, []) && Passed(s0, r.View(), trace)
    requires MidStart(r.CoreView(), name, generation) && |s0.log| <= r.mark
    requires Enabled(r.CoreView(), l) && !l.CompleteStop? && EndsAs(l, res)
    modifies r
    ensures r.Valid() && name in r.workerStates
            && RestsAt(r.CoreView(), name, r.workerStates[name].lifecycle, generation)
    ensures Effect(s0, r.View(), {name}, []) && StartEnded(s0, r.View(), name, res)
    ensures Passed(s0, r.View(), trace + Service(r.CoreView(), name))
  {
    hide Reachable, Effect, StartEnded, Apply, Passed;
    ghost var c := r.CoreView();
    StartEnds(s0, r.View(), l, name, generation, res);
    PassedStep(s0, r.View(), l, trace);
    if l.CompleteStart? {
      CompleteStartRests(c, name, generation);
    } else {
      FailingRests(c, l, name, generation);
    }
    var _ := Act(r, l, s0, name, []);
  }

  /** The milestone of a worker that has entered service. */
  function Service(c: Core, name: Name): seq<Event> {
    if name in c.workers && c.workers[name].lifecycle == Running then [Transition(OfWorker(name), Starting, Running)]
    else []
  }

  /** Ends a Start whose last call returned an error, with that error or the context's. */
  method FailStart(r: Runtime, ghost s0: System, name: Name, generation: nat, cause: Error, err: Error,
                   ghost trace: seq<Event>)
    requires r.Valid() && Effect(s0, r.View(), {name}, []) && Passed(s0, r.View(), trace)
    requires MidStart(r.CoreView(), name, generation) && |s0.log| <= r.mark
    requires r.gate.call == Answered(Returned(Some(cause))) && (err == cause || err == ContextDone)
    modifies r
    ensures r.Valid() && name in r.workerStates
            && RestsAt(r.CoreView(), name, r.workerStates[name].lifecycle, generation)
    ensures Effect(s0, r.View(), {name}, []) && StartEnded(s0, r.View(), name, Failing(err))
    ensures Passed(s0, r.View(), trace + Service(r.CoreView(), name))
  {
    hide Reachable, Effect, StartEnded, Passed, Enabled;
    StartFailTurns(r.CoreView(), name, generation, cause, err);
    if err.LoopCleanup? {
      EndStart(r, FailCleanup(err), s0, name, generation, Failing(err), trace);
    } else {
      EndStart(r, FailOperation(err, false), s0, name, generation, Failing(err), trace);
    }
  }

  /** What follows a failed attempt: the silent record, then retry, or the error to end with. */
  method AfterFailedAttempt(r: Runtime, ctx: Context, ghost s0: System, name: Name, generation: nat,
                            policy: Policy, attempt: Int64, err: Error, ghost trace: seq<Event>)
    returns (final: Option<Error>)
    requires r.Valid() && Effect(s0, r.View(), {name}, []) && Passed(s0, r.View(), trace)
    requires MidStart(r.CoreView(), name, generation) && 1 <= attempt
    requires r.gate.call == Answered(Returned(Some(err)))
    modifies r, ctx
    ensures r.Valid() && Effect(s0, r.View(), {name}, []) && Passed(s0, r.View(), trace)
    ensures MidStart(r.CoreView(), name, generation) && r.mark == old(r.mark) && r.gate == old(r.gate)
    ensures old(ctx.cancelled) ==> ctx.cancelled
    ensures final.None? ==> policy.NextDelay(attempt, err).Some?
    ensures final.Some? ==>
            || (final.value == ContextDone && ctx.cancelled)
              || (final.value == err && policy.NextDelay(attempt, err).None?)
  {
    hide Reachable, Effect, Rely, Passed;
    if !err.LoopCleanup? {
      NoteFailure(r, s0, name, generation, err, trace);
    }
    LetOthers(r, ctx, s0, name, generation, trace);
    if ctx.cancelled {
      return Some(ContextDone);
    }
    var next := policy.NextDelay(attempt, err);
    if next.None? {
      return Some(err);
    }
    if next.value > 0 {
      LetOthers(r, ctx, s0, name, generation, trace);
      // The timer and the context may both be done; either may be seen first.
      var timerFirst: bool := *;
      if ctx.cancelled && !timerFirst {
        return Some(ContextDone);
      }
    }
    return None;
  }

  /** Notes a failed attempt, silently. */
  method NoteFailure(r: Runtime, ghost s0: System, name: Name, generation: nat, err: Error, ghost trace: seq<Event>)
    requires r.Valid() && Effect(s0, r.View(), {name}, []) && Passed(s0, r.View(), trace)
    requires MidStart(r.CoreView(), name, generation) && !err.LoopCleanup?
    requires r.gate.call == Answered(Returned(Some(err)))
    modifies r
    ensures r.Valid() && Effect(s0, r.View(), {name}, []) && Passed(s0, r.View(), trace)
    ensures MidStart(r.CoreView(), name, generation) && r.mark == old(r.mark) && r.gate == old(r.gate)
  {
    hide Reachable, Effect, Passed, Enabled;
    StartFailTurns(r.CoreView(), name, generation, err, err);
    MidStepsStay(r.CoreView(), RecordFailure(err), name, generation);
    PassedStep(s0, r.View(), RecordFailure(err), trace);
    assert trace + [] == trace;
    var _ := Act(r, RecordFailure(err), s0, name, []);
  }

  /** Free steps in the middle of a Start. */
  method LetOthers(r: Runtime, ctx: Context, ghost s0: System, name: Name, generation: nat, ghost trace: seq<Event>)
    requires r.Valid() && Effect(s0, r.View(), {name}, []) && Passed(s0, r.View(), trace)
    requires MidStart(r.CoreView(), name, generation)
    modifies r, ctx
    ensures r.Valid() && Effect(s0, r.View(), {name}, []) && Passed(s0, r.View(), trace)
    ensures MidStart(r.CoreView(), name, generation) && r.mark == old(r.mark) && r.gate == old(r.gate)
    ensures old(ctx.cancelled) ==> ctx.cancelled
  {
    hide Reachable, Effect, Rely, Passed;
    ghost var before := r.View();
    Wait(r, ctx, s0, {name}, []);
    RelyFacts(before, r.View(), name, generation);
    PassedRely(s0, before, r.View(), trace);
  }

  /** Takes a worker into starting, if it may be started. */
  method BeginStarting(r: Runtime, ctx: Context, name: Name) returns (begun: bool)
    requires r.Valid() && AtRest(r.CoreView()) && name in r.workerConfigs
    modifies r, ctx
    ensures r.Valid() && Passed(old(r.View()), r.View(), [])
    ensures name in old(r.workerStates)
    ensures Startable(old(r.workerStates)[name].lifecycle) ==> begun
    ensures !begun ==> AtRest(r.CoreView()) && Effect(old(r.View()), r.View(), {}, [])
    ensures begun ==>
            && Effect(old(r.View()), r.View(), {name}, [])
              && MidStart(r.CoreView(), name, old(r.workerStates)[name].generation + 1)
              && r.gate.call.NotCalled?
              && |old(r.log)| <= r.mark
    ensures old(ctx.cancelled) ==> ctx.cancelled
  {
    hide Reachable, Rely, Effect, Apply, Passed;
    ghost var s0 := r.View();
    ReachableNames(s0);
    EffectItself(s0);
    PassedNothing(s0);
    Wait(r, ctx, s0, {}, []);
    RelyFacts(s0, r.View(), name, 0);
    PassedRely(s0, s0, r.View(), []);
    BeginStartBegins(r.CoreView(), name);
    if !Startable(r.workerStates[name].lifecycle) {
      return false;
    }
    EffectWidens(s0, r.View(), {}, {name}, []);
    PassedStep(s0, r.View(), BeginStart(name), []);
    ghost var none: seq<Event> := [];
    assert none + none == none;
    var _ := Act(r, BeginStart(name), s0, name, []);
    return true;
  }

  /** One attempt of a Start: it ends the Start, or leaves it to be tried again. */
  method TryStart(r: Runtime, ctx: Context, ghost s0: System, name: Name, generation: nat, cfg: WorkerConfig,
                  attempt: Int64, ghost calls: seq<CallOutcome>)
    returns (outcome: CallOutcome, end: Option<Completion>)
    requires r.Valid() && Effect(s0, r.View(), {name}, []) && Passed(s0, r.View(), StartCalls(name, generation, calls))
    requires MidStart(r.CoreView(), name, generation) && |s0.log| <= r.mark && Enabled(r.CoreView(), CallStart)
    requires 1 <= attempt
    modifies r, ctx
    ensures r.Valid() && Effect(s0, r.View(), {name}, [])
    ensures end.None? ==>
            && MidStart(r.CoreView(), name, generation) && |s0.log| <= r.mark && Enabled(r.CoreView(), CallStart)
              && Passed(s0, r.View(), StartCalls(name, generation, calls + [outcome]))
              && outcome.Returned? && outcome.err.Some? && cfg.startRetry.NextDelay(attempt, outcome.err.value).Some?
    ensures end.Some? ==>
            && name in r.workerStates && RestsAt(r.CoreView(), name, r.workerStates[name].lifecycle, generation)
              && StartEnded(s0, r.View(), name, end.value)
              && Passed(s0, r.View(), StartCalls(name, generation, calls + [outcome]) + Service(r.CoreView(), name))
              && AttemptDecides(cfg, attempt, outcome, end.value)
              && (end.value == Failing(ContextDone) && outcome != Returned(Some(ContextDone)) ==> ctx.cancelled)
    ensures old(ctx.cancelled) ==> ctx.cancelled
  {
    hide Reachable, StartEnded, Effect, Apply, Passed, StartCalls, Service, Enabled;
    ghost var called: Event;
    outcome, called := CallWorker(r, ctx, CallStart, s0, name, generation, [], StartCalls(name, generation, calls));
    OneMoreCall(name, generation, calls, outcome);
    ghost var trace := StartCalls(name, generation, calls + [outcome]);
    match outcome {
      case Panicked(id) =>
        PanicTurns(r.CoreView(), name, generation, id);
        end := Some(if cfg.panicPolicy == Crash then Crashed else Failing(RecoveredPanic(id)));
        EndStart(r, FailOperation(RecoveredPanic(id), true), s0, name, generation, end.value, trace);
      case Returned(None) =>
        StartTurns(r.CoreView(), name, generation);
        end := Some(Finished);
        EndStart(r, CompleteStart, s0, name, generation, Finished, trace);
      case Returned(Some(err)) =>
        var final := AfterFailedAttempt(r, ctx, s0, name, generation, cfg.startRetry, attempt, err, trace);
        StartFailTurns(r.CoreView(), name, generation, err, err);
        if final.None? {
          end := None;
        } else {
          end := Some(Failing(final.value));
          FailStart(r, s0, name, generation, err, final.value, trace);
        }
    }
  }

  /** The attempts of a Start in progress, under the worker's retry and panic policies: the log
      shows exactly these calls, and they decide how the Start ends. */
  method RunStart(r: Runtime, ctx: Context, ghost s0: System, name: Name, generation: nat, cfg: WorkerConfig)
    returns (res: Completion, ghost calls: seq<CallOutcome>)
    requires r.Valid() && Effect(s0, r.View(), {name}, []) && Passed(s0, r.View(), [])
    requires MidStart(r.CoreView(), name, generation) && |s0.log| <= r.mark && r.gate.call.NotCalled?
    modifies r, ctx
    ensures r.Valid() && name in r.workerStates
            && RestsAt(r.CoreView(), name, r.workerStates[name].lifecycle, generation)
    ensures Effect(s0, r.View(), {name}, []) && StartEnded(s0, r.View(), name, res)
    ensures Passed(s0, r.View(), StartCalls(name, generation, calls) + Service(r.CoreView(), name))
    ensures StartDecided(cfg, calls, res)
    ensures res == Failing(ContextDone) && calls[|calls| - 1] != Returned(Some(ContextDone)) ==> ctx.cancelled
    ensures old(ctx.cancelled) ==> ctx.cancelled
  {
    hide Reachable, StartEnded, Effect, Apply, Passed, StartCalls, AllRetried, Service, Enabled, MidStart,
         AttemptDecides;
    StartTurns(r.CoreView(), name, generation);
    NoStartCalls(name, generation);
    NoCallsRetried(cfg.startRetry);
    var attempt: Int64 := 1;
    calls := [];
    while true
      invariant r.Valid() && Effect(s0, r.View(), {name}, [])
      invariant MidStart(r.CoreView(), name, generation) && |s0.log| <= r.mark
      invariant Enabled(r.CoreView(), CallStart)
      invariant Passed(s0, r.View(), StartCalls(name, generation, calls))
      invariant AllRetried(cfg.startRetry, calls) && |calls| < cfg.startRetry.Bound()
      invariant attempt as int == |calls| + 1
      invariant old(ctx.cancelled) ==> ctx.cancelled
      decreases cfg.startRetry.Bound() - attempt as int
    {
      var outcome, end := TryStart(r, ctx, s0, name, generation, cfg, attempt, calls);
      if end.Some? {
        res := end.value;
        DecidedByLast(cfg, calls, outcome, res);
        calls := calls + [outcome];
        return;
      }
      RetriedOnce(cfg.startRetry, calls, outcome.err.value);
      calls := calls + [outcome];
      attempt := attempt + 1;
    }
  }

  /** Start of one worker under the gate. A startable worker gets a new generation; its
      Worker.Start is called as the retry policy says, and nothing else is called; the last
      call decides whether it ends running or failed, with its failure events accounted for;
      every other worker is left to the free steps. */
  method Start(r: Runtime, ctx: Context, name: Name) returns (res: Completion, ghost calls: seq<CallOutcome>)
    requires r.Valid() && AtRest(r.CoreView())
    modifies r, ctx
    ensures r.Valid() && AtRest(r.CoreView())
    ensures Effect(old(r.View()), r.View(), if res.Rejected? then {} else {name}, [])
    ensures res == Rejected(NotFound) <==> name !in old(r.workerStates)
    ensures name in old(r.workerStates) && Startable(old(r.workerStates)[name].lifecycle) ==> !res.Rejected?
    ensures res.Rejected? ==> Passed(old(r.View()), r.View(), [])
    ensures !res.Rejected? ==>
            && name in old(r.workerStates) && name in old(r.workerConfigs) && name in r.workerStates
              && r.workerStates[name].generation == old(r.workerStates)[name].generation + 1
              && StartEnded(old(r.View()), r.View(), name, res)
              && StartDecided(old(r.workerConfigs)[name], calls, res)
              && Passed(old(r.View()), r.View(),
                        StartCalls(name, r.workerStates[name].generation, calls) + Service(r.CoreView(), name))
              && (res == Failing(ContextDone) && calls[|calls| - 1] != Returned(Some(ContextDone)) ==> ctx.cancelled)
    ensures old(ctx.cancelled) ==> ctx.cancelled
  {
    hide Reachable, StartEnded, Effect, Passed, StartDecided, Service, StartCalls;
    ghost var s0 := r.View();
    ReachableNames(s0);
    EffectItself(s0);
    PassedNothing(s0);
    calls := [];
    if name !in r.workerConfigs {
      return Rejected(NotFound), [];
    }
    var cfg := r.workerConfigs[name];
    var begun := BeginStarting(r, ctx, name);
    if !begun {
      return Rejected(Result.InvalidState), [];
    }
    res, calls := RunStart(r, ctx, s0, name, r.workerStates[name].generation, cfg);
    EndedIsNoRejection(s0, r.View(), name, res);
  }

  lemma EndedIsNoRejection(s: System, t: System, name: Name, res: Completion)
    requires StartEnded(s, t, name, res)
    ensures !res.Rejected?
  {
  }

  // ---------------------------------------------------------------------------
  // Stop.

  /** How a Stop that got past its checks left the worker, and the failure events it made. */
  ghost predicate StopEnded(before: System, after: System, name: Name, res: Completion) {
    && |before.log| <= after.mark <= |after.log|
    && name in after.core.workers
    && !res.Rejected?
    && var failures, reports := FailuresSince(after.log, after.mark, name), ReportsSince(after.log, after.mark, name);
       && after.core.workers[name].lifecycle == (if res.Finished? then Stopped else Failed)
       && failures == if res.Finished? then reports else reports + 1
  }

  lemma StopEnds(s0: System, s: System, l: Label, name: Name, generation: nat, res: Completion)
    requires Reachable(s) && MidStop(s.core, name, generation) && Enabled(s.core, l) && !l.CompleteStart?
    requires |s0.log| <= s.mark && EndsAs(l, res)
    ensures StopEnded(s0, Next(s, l), name, res)
    ensures RestsAt(Next(s, l).core, name, if res.Finished? then Stopped else Failed, generation)
  {
    hide Reachable, Apply, Count, IsLifecycleFailure, IsReport;
    StopFailureEvents(s, l);
    EndReportEvents(s, l);
    if l.CompleteStop? {
      CompleteStopRests(s.core, name, generation);
    } else {
      FailingRests(s.core, l, name, generation);
    }
  }

  method EndStop(r: Runtime, l: Label, ghost s0: System, name: Name, generation: nat, ghost res: Completion,
                 ghost trace: seq<Event>)
    requires r.Valid() && Effect(s0, r.View(), {name}, [name]) && Passed(s0, r.View(), trace)
    requires MidStop(r.CoreView(), name, generation) && |s0.log| <= r.mark
    requires Enabled(r.CoreView(), l) && !l.CompleteStart? && EndsAs(l, res)
    modifies r
    ensures r.Valid() && RestsAt(r.CoreView(), name, if res.Finished? then Stopped else Failed, generation)
    ensures Effect(s0, r.View(), {name}, [name]) && StopEnded(s0, r.View(), name, res)
    ensures Passed(s0, r.View(), trace)
  {
    hide Reachable, Effect, Apply, StopEnded, Passed;
    StopEnds(s0, r.View(), l, name, generation, res);
    PassedStep(s0, r.View(), l, trace);
    assert trace + [] == trace;
    var _ := Act(r, l, s0, name, [name]);
  }

  /** Takes a worker into stopping, if it may be stopped. */
  method BeginStopping(r: Runtime, ctx: Context, name: Name) returns (begun: bool)
    requires r.Valid() && AtRest(r.CoreView()) && name in r.workerConfigs
    modifies r, ctx
    ensures r.Valid() && Passed(old(r.View()), r.View(), [])
    ensures name in old(r.workerStates)
    ensures Stoppable(old(r.workerStates)[name].lifecycle) ==> begun
    ensures !begun ==> AtRest(r.CoreView()) && Effect(old(r.View()), r.View(), {}, [])
    ensures begun ==>
            && Effect(old(r.View()), r.View(), {name}, [])
              && MidStop(r.CoreView(), name, old(r.workerStates)[name].generation)
              && r.gate.call.NotCalled?
              && |old(r.log)| <= r.mark
    ensures old(ctx.cancelled) ==> ctx.cancelled
  {
    hide Reachable, Rely, Effect, Apply, Passed;
    ghost var s0 := r.View();
    ReachableNames(s0);
    EffectItself(s0);
    PassedNothing(s0);
    Wait(r, ctx, s0, {}, []);
    RelyFacts(s0, r.View(), name, 0);
    PassedRely(s0, s0, r.View(), []);
    BeginStopBegins(r.CoreView(), name);
    if !Stoppable(r.workerStates[name].lifecycle) {
      return false;
    }
    EffectWidens(s0, r.View(), {}, {name}, []);
    PassedStep(s0, r.View(), BeginStop(name), []);
    ghost var none: seq<Event> := [];
    assert none + none == none;
    var _ := Act(r, BeginStop(name), s0, name, []);
    return true;
  }

  /** A Stop whose worker call returned an error: recorded first, then failed. */
  method FailStop(r: Runtime, ctx: Context, ghost s0: System, name: Name, generation: nat, err: Error,
                  ghost trace: seq<Event>)
    requires r.Valid() && Effect(s0, r.View(), {name}, [name]) && Passed(s0, r.View(), trace)
    requires MidStop(r.CoreView(), name, generation) && |s0.log| <= r.mark
    requires r.gate.call == Answered(Returned(Some(err)))
    modifies r, ctx
    ensures r.Valid() && RestsAt(r.CoreView(), name, Failed, generation)
    ensures Effect(s0, r.View(), {name}, [name]) && StopEnded(s0, r.View(), name, Failing(err))
    ensures Passed(s0, r.View(), trace)
    ensures old(ctx.cancelled) ==> ctx.cancelled
  {
    hide Reachable, Effect, Rely, StopEnded, Passed, Enabled;
    StopFailTurns(r.CoreView(), name, generation, err);
    if err.LoopCleanup? {
      EndStop(r, FailCleanup(err), s0, name, generation, Failing(err), trace);
    } else {
      MidStepsStay(r.CoreView(), RecordFailure(err), name, generation);
      PassedStep(s0, r.View(), RecordFailure(err), trace);
      assert trace + [] == trace;
      var _ := Act(r, RecordFailure(err), s0, name, [name]);
      ghost var recorded := r.View();
      Wait(r, ctx, s0, {name}, [name]);
      RelyFacts(recorded, r.View(), name, generation);
      PassedRely(s0, recorded, r.View(), trace);
      StopFailTurns(r.CoreView(), name, generation, err);
      EndStop(r, FailOperation(err, false), s0, name, generation, Failing(err), trace);
    }
  }

  /** The one call of Worker.Stop, and what follows from its result. */
  method RunStop(r: Runtime, ctx: Context, ghost s0: System, name: Name, generation: nat, cfg: WorkerConfig)
    returns (res: Completion, call: CallOutcome, ghost trace: seq<Event>)
    requires r.Valid() && Effect(s0, r.View(), {name}, []) && Passed(s0, r.View(), [])
    requires MidStop(r.CoreView(), name, generation) && |s0.log| <= r.mark && r.gate.call.NotCalled?
    modifies r, ctx
    ensures r.Valid() && AtRest(r.CoreView())
    ensures name in r.workerStates && r.workerStates[name].generation == generation
    ensures Effect(s0, r.View(), {name}, [name]) && StopEnded(s0, r.View(), name, res)
    ensures Passed(s0, r.View(), trace) && StopCall(name, generation, call, trace)
    ensures StopDecided(cfg, call, res)
    ensures old(ctx.cancelled) ==> ctx.cancelled
  {
    hide Reachable, Effect, StopEnded, Passed, Enabled, MidStop;
    StopTurns(r.CoreView(), name, generation);
    ghost var called: Event;
    call, called := CallWorker(r, ctx, CallStop, s0, name, generation, [], []);
    trace := [] + [called] + [CallReturned(name, call)];
    assert [] + [name] == [name];
    match call {
      case Panicked(id) =>
        res := if cfg.panicPolicy == Crash then Crashed else Failing(RecoveredPanic(id));
        PanicTurns(r.CoreView(), name, generation, id);
        EndStop(r, FailOperation(RecoveredPanic(id), true), s0, name, generation, res, trace);
      case Returned(None) =>
        res := Finished;
        StopTurns(r.CoreView(), name, generation);
        EndStop(r, CompleteStop, s0, name, generation, res, trace);
      case Returned(Some(err)) =>
        res := Failing(err);
        FailStop(r, ctx, s0, name, generation, err, trace);
    }
  }

  /** Stop of one worker under the gate. A worker that may be stopped has its Worker.Stop called
      exactly once, and nothing else is called; what the call came back with decides the end:
      stopped exactly if it returned nil, failed otherwise, with one failure event more than
      were reported meanwhile. */
  method Stop(r: Runtime, ctx: Context, name: Name)
    returns (res: Completion, ghost call: CallOutcome, ghost trace: seq<Event>)
    requires r.Valid() && AtRest(r.CoreView())
    modifies r, ctx
    ensures r.Valid() && AtRest(r.CoreView())
    ensures res == Rejected(NotFound) <==> name !in old(r.workerStates)
    ensures name in old(r.workerStates) && Stoppable(old(r.workerStates)[name].lifecycle) ==> !res.Rejected?
    ensures if res.Rejected? then Effect(old(r.View()), r.View(), {}, [])
            else Effect(old(r.View()), r.View(), {name}, [name])
    ensures Passed(old(r.View()), r.View(), if res.Rejected? then [] else trace)
    ensures !res.Rejected? ==>
            && name in old(r.workerStates) && name in old(r.workerConfigs) && name in r.workerStates
              && r.workerStates[name].generation == old(r.workerStates)[name].generation
              && StopEnded(old(r.View()), r.View(), name, res)
              && StopDecided(old(r.workerConfigs)[name], call, res)
              && StopCall(name, r.workerStates[name].generation, call, trace)
    ensures old(ctx.cancelled) ==> ctx.cancelled
  {
    hide Reachable, Effect, StopEnded, Passed, StopDecided, StopCall;
    ghost var s0 := r.View();
    ReachableNames(s0);
    EffectItself(s0);
    PassedNothing(s0);
    call, trace := Returned(None), [];
    if name !in r.workerConfigs {
      res := Rejected(NotFound);
      return;
    }
    var cfg := r.workerConfigs[name];
    var begun := BeginStopping(r, ctx, name);
    if !begun {
      res := Rejected(Result.InvalidState);
      return;
    }
    res, call, trace := RunStop(r, ctx, s0, name, r.workerStates[name].generation, cfg);
    StopEndedIsNoRejection(s0, r.View(), name, res);
  }

  lemma StopEndedIsNoRejection(s: System, t: System, name: Name, res: Completion)
    requires StopEnded(s, t, name, res)
    ensures !res.Rejected?
  {
  }

  // ---------------------------------------------------------------------------
  // Drain.

  lemma BeginDrainDrains(c: Core, name: Name)
    requires AtRest(c) && name in c.workers
    ensures var o, state := Apply(c, BeginDrain(name)), c.workers[name].lifecycle;
            && AtRest(o.core)
            && if state == Running || state == Draining
               then o.result == Done && name in o.core.workers && o.core.workers[name].lifecycle == Draining
                    && o.core.workers[name].generation == c.workers[name].generation
               else o == Reject(c, InvalidState)
  {
    hide Observed, Commit;
  }

  /** Since s the worker was taken from running to draining. */
  ghost predicate DrainLogged(s: System, t: System, name: Name) {
    s.log <= t.log && Transition(OfWorker(name), Running, Draining) in t.log[|s.log|..]
  }

  lemma DrainIsLogged(s0: System, s: System, name: Name)
    requires s0.log <= s.log && Enabled(s.core, BeginDrain(name))
    requires name in s.core.workers && s.core.workers[name].lifecycle == Running
    ensures DrainLogged(s0, Next(s, BeginDrain(name)), name)
  {
    hide Commit;
    var t := Next(s, BeginDrain(name));
    var events := Apply(s.core, BeginDrain(name)).events;
    assert events[0] == Transition(OfWorker(name), Running, Draining);
    assert t.log[|s.log|] == events[0] && t.log[|s0.log|..][|s.log| - |s0.log|] == events[0];
  }

  lemma DrainStaysLogged(s0: System, s: System, t: System, name: Name)
    requires DrainLogged(s0, s, name) && s.log <= t.log
    ensures DrainLogged(s0, t, name)
  {
    var k :| 0 <= k < |s.log[|s0.log|..]| && s.log[|s0.log|..][k] == Transition(OfWorker(name), Running, Draining);
    assert t.log[|s0.log|..][k] == s.log[|s0.log|..][k];
  }

  /** Drain of one worker under the gate: a running or draining worker ends draining. */
  method Drain(r: Runtime, ctx: Context, name: Name) returns (res: Completion)
    requires r.Valid() && AtRest(r.CoreView())
    modifies r, ctx
    ensures r.Valid() && AtRest(r.CoreView())
    ensures res == Rejected(NotFound) <==> name !in old(r.workerStates)
    ensures Passed(old(r.View()), r.View(), [])
    ensures if res.Rejected? then Effect(old(r.View()), r.View(), {}, [])
            else Effect(old(r.View()), r.View(), {name}, [])
    ensures !res.Rejected? ==> res == Finished && name in r.workerStates && r.workerStates[name].lifecycle == Draining
    ensures !res.Rejected? ==>
            && old(r.workerStates)[name].lifecycle in {Running, Draining}
              && (old(r.workerStates)[name].lifecycle == Running ==> DrainLogged(old(r.View()), r.View(), name))
    ensures res.Rejected? && name in old(r.workerStates) ==>
            && res == Rejected(InvalidState) && name in r.workerStates
              && r.workerStates[name].lifecycle != Running && r.workerStates[name].lifecycle != Draining
    ensures old(ctx.cancelled) ==> ctx.cancelled
  {
    hide Reachable, Effect, Rely, Apply, Passed;
    ghost var s0 := r.View();
    EffectItself(s0);
    PassedNothing(s0);
    Wait(r, ctx, s0, {}, []);
    RelyFacts(s0, r.View(), name, 0);
    PassedRely(s0, s0, r.View(), []);
    if name !in r.workerStates {
      return Rejected(NotFound);
    }
    BeginDrainDrains(r.CoreView(), name);
    EffectWidens(s0, r.View(), {}, {name}, []);
    var state := r.workerStates[name].lifecycle;
    if state != Running && state != Draining {
      return Rejected(InvalidState);
    }
    PassedStep(s0, r.View(), BeginDrain(name), []);
    if state == Running {
      DrainIsLogged(s0, r.View(), name);
    }
    ghost var none: seq<Event> := [];
    assert none + none == none;
    var _ := Act(r, BeginDrain(name), s0, name, []);
    return Finished;
  }
}
