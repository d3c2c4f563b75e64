/** Dispatch of one command, with every other party of the runtime stepping in between:
    lifecycle operations, handles and other dispatches. */
module CommandDispatch {
  import opened Basics
  import opened Retry
  import opened Lifecycle
  import opened EventLog
  import opened RuntimeSteps
  import opened RuntimeInvariant
  import opened RuntimeTheorems
  import opened OperationSteps
  import opened WorkerkitRuntime
  import opened AdmissionLaws

  // ---------------------------------------------------------------------------
  // The events and the token of one dispatch.

  predicate IsAbout(id: nat, e: Event) {
    match e
    case HandlerCalled(i) => i == id
    case HandlerReturned(i, _) => i == id
    case SlotReleased(i) => i == id
    case ObservationEnded(i, _, _) => i == id
    case Failure(_, Command(i), _, _) => i == id
    case _ => false
  }

  /** The events of one dispatch, in commit order. */
  function About(id: nat, log: seq<Event>): seq<Event> {
    if log == [] then []
    else
      About(id, log[..|log| - 1]) + if IsAbout(id, log[|log| - 1]) then [log[|log| - 1]] else []
  }

  lemma {:induction false} AboutConcat(id: nat, a: seq<Event>, b: seq<Event>)
    ensures About(id, a + b) == About(id, a) + About(id, b)
  {
    if b == [] {
      assert a + b == a;
    } else {
      AboutConcat(id, a, b[..|b| - 1]);
      assert (a + b)[..|a + b| - 1] == a + b[..|b| - 1];
      assert (a + b)[|a + b| - 1] == b[|b| - 1];
    }
  }

  lemma {:induction false} AboutNone(id: nat, log: seq<Event>)
    requires forall e :: e in log ==> !IsAbout(id, e)
    ensures About(id, log) == []
  {
    if log != [] {
      AboutNone(id, log[..|log| - 1]);
    }
  }

  lemma AboutOne(id: nat, e: Event)
    ensures About(id, [e]) == if IsAbout(id, e) then [e] else []
  {
    assert [e][..|[e]| - 1] == [];
  }

  /** Where a dispatch stands: not yet admitted, holding its slot with its last handler call at
      some point, or past that. */
  datatype Token = Waiting | Slot(target: Handle, call: Call) | Gone

  function TokenOf(c: Core, id: nat): Token {
    if id in c.dispatches then Slot(c.dispatches[id], HandlerCall(c, id)) else if id in c.pending then Waiting else Gone
  }

  predicate IsOwnStep(id: nat, l: Label) {
    match l
    case Admit(i, _) => i == id
    case CallHandler(i) => i == id
    case HandlerReturns(i, _) => i == id
    case CommandFailed(i, _) => i == id
    case CommandPanicked(i, _) => i == id
    case Release(i) => i == id
    case EndObservation(i, _, _) => i == id
    case _ => false
  }

  // ---------------------------------------------------------------------------
  // What all other steps leave alone.

  /** The dispatches, admitted or not, are the same. */
  ghost predicate SameDispatches(c: Core, c': Core) {
    && c'.dispatches == c.dispatches && c'.pending == c.pending && c'.nextDispatch == c.nextDispatch
    && c'.replies == c.replies
  }

  lemma OperationKeepsDispatches(c: Core, l: Label)
    requires Enabled(c, l) && IsOperationStep(l)
    ensures SameDispatches(c, Apply(c, l).core)
  {
    hide Apply, OperatesOn, OneRecord;
    StepOperates(c, l);
  }

  lemma RestStepsKeepDispatches(c: Core, l: Label)
    requires Enabled(c, l) && !IsFreeStep(l) && !IsOperationStep(l)
    ensures SameDispatches(c, Apply(c, l).core)
  {
    hide Recompute;
  }

  lemma HandleStepsKeepDispatches(c: Core, l: Label)
    requires Enabled(c, l) && IsHandleStep(l)
    ensures SameDispatches(c, Apply(c, l).core)
  {
    hide SetWorkerReady, SetWorkerAcceptingWork, ReportWorkerFailure;
  }

  lemma SlotStepsKeepToken(c: Core, id: nat, l: Label)
    requires Enabled(c, l) && !IsOwnStep(id, l) && id < c.nextDispatch
    requires l.NewDispatch? || l.Admit? || l.CallHandler? || l.HandlerReturns? || l.Release?
    ensures TokenOf(Apply(c, l).core, id) == TokenOf(c, id) && c.nextDispatch <= Apply(c, l).core.nextDispatch
  {
    match l
    case NewDispatch =>
    case Admit(_, _) =>
    case CallHandler(_) =>
    case HandlerReturns(_, _) =>
    case Release(_) =>
  }

  lemma CommandStepsKeepDispatches(c: Core, l: Label)
    requires Enabled(c, l) && (l.CommandFailed? || l.CommandPanicked? || l.EndObservation?)
    ensures SameDispatches(c, Apply(c, l).core)
  {
    hide RecordCommandFailure, RecordCommandPanic;
    match l
    case EndObservation(_, _, _) =>
    case CommandFailed(_, _) =>
    case CommandPanicked(_, _) =>
  }

  lemma OtherStepsKeepToken(c: Core, id: nat, l: Label)
    requires Enabled(c, l) && !IsOwnStep(id, l) && id < c.nextDispatch
    ensures TokenOf(Apply(c, l).core, id) == TokenOf(c, id) && id < Apply(c, l).core.nextDispatch
  {
    hide Apply;
    if l.NewDispatch? || l.Admit? || l.CallHandler? || l.HandlerReturns? || l.Release? {
      SlotStepsKeepToken(c, id, l);
    } else if IsDispatchStep(l) {
      CommandStepsKeepDispatches(c, l);
    } else if IsHandleStep(l) {
      HandleStepsKeepDispatches(c, l);
    } else if IsOperationStep(l) {
      OperationKeepsDispatches(c, l);
    } else {
      RestStepsKeepDispatches(c, l);
    }
  }

  lemma GateStepsTellNothing(c: Core, id: nat, l: Label)
    requires Enabled(c, l) && !IsFreeStep(l)
    ensures forall e :: e in Apply(c, l).events ==> !IsAbout(id, e)
  {
    hide Observed, Commit, Recompute;
  }

  lemma FreeStepsTellNothing(c: Core, id: nat, l: Label)
    requires Enabled(c, l) && IsFreeStep(l) && !IsOwnStep(id, l)
    ensures forall e :: e in Apply(c, l).events ==> !IsAbout(id, e)
  {
    hide Observed, Commit, RecordCommandPanic;
    if l.CommandPanicked? {
      var h := c.dispatches[l.id];
      PanicCases(c, l.id, h.worker, h.generation, l.err);
    }
  }

  /** Since s0 the dispatch has made exactly these events, and stands at this token. */
  ghost predicate Traced(s0: System, s: System, id: nat, token: Token, trace: seq<Event>) {
    && s0.log <= s.log
    && About(id, s.log[|s0.log|..]) == trace
    && id < s.core.nextDispatch
    && TokenOf(s.core, id) == token
  }

  lemma TraceExtends(s0: System, s: System, t: System, id: nat, before: Token, token: Token, trace: seq<Event>,
        events: seq<Event>)
    requires Traced(s0, s, id, before, trace)
    requires t.log == s.log + events && id < t.core.nextDispatch && TokenOf(t.core, id) == token
    ensures Traced(s0, t, id, token, trace + About(id, events))
  {
    assert t.log[|s0.log|..] == s.log[|s0.log|..] + events;
    AboutConcat(id, s.log[|s0.log|..], events);
  }

  lemma OtherStepKeepsTrace(s0: System, s: System, id: nat, l: Label, token: Token, trace: seq<Event>)
    requires Enabled(s.core, l) && !IsOwnStep(id, l) && Traced(s0, s, id, token, trace)
    ensures Traced(s0, Next(s, l), id, token, trace)
  {
    hide Apply, IsAbout, TokenOf, About;
    var o := Apply(s.core, l);
    assert id < s.core.nextDispatch && TokenOf(s.core, id) == token;
    OtherStepsKeepToken(s.core, id, l);
    if IsFreeStep(l) {
      FreeStepsTellNothing(s.core, id, l);
    } else {
      GateStepsTellNothing(s.core, id, l);
    }
    AboutNone(id, o.events);
    TraceExtends(s0, s, Next(s, l), id, token, token, trace, o.events);
    assert trace + [] == trace;
  }

  // ---------------------------------------------------------------------------
  // What the dispatch's own steps do.

  /** The events a step of the dispatch commits about it. */
  function OwnEvents(token: Token, id: nat, l: Label): seq<Event> {
    match l
    case CallHandler(_) => [HandlerCalled(id)]
    case HandlerReturns(_, outcome) => [HandlerReturned(id, outcome)]
    case CommandFailed(_, err) => if token.Slot? then [Failure(token.target.worker, Command(id), err, false)] else []
    case CommandPanicked(_, err) => if token.Slot? then [Failure(token.target.worker, Command(id), err, true)] else []
    case Release(_) => [SlotReleased(id)]
    case EndObservation(_, attempts, success) => [ObservationEnded(id, attempts, success)]
    case _ => []
  }

  function OwnToken(token: Token, l: Label, result: Result): Token {
    match l
    case Admit(_, name) => if result.Began? then Slot(Handle(name, result.generation), NotCalled) else Gone
    case CallHandler(_) => if token.Slot? then token.(call := InProgress) else token
    case HandlerReturns(_, outcome) => if token.Slot? then token.(call := Answered(outcome)) else token
    case Release(_) => Gone
    case _ => token
  }

  lemma {:induction false} AboutFailure(id: nat, events: seq<Event>, name: Name, err: Error, before: seq<Event>,
        after: seq<Event>)
    requires events == before + [Failure(name, Command(id), err, true)] + after
    requires forall e :: e in before + after ==> e.Transition? || e.Readiness?
    ensures About(id, events) == [Failure(name, Command(id), err, true)]
  {
    var failure := [Failure(name, Command(id), err, true)];
    forall e | e in before
      ensures !IsAbout(id, e)
    {
      assert e in before + after;
    }
    forall e | e in after
      ensures !IsAbout(id, e)
    {
      assert e in before + after;
    }
    AboutNone(id, before);
    AboutNone(id, after);
    AboutOne(id, failure[0]);
    AboutConcat(id, before, failure);
    AboutConcat(id, before + failure, after);
  }

  lemma PanicEvents(c: Core, id: nat, name: Name, generation: nat, err: Error)
    requires name in c.workers
    ensures About(id, RecordCommandPanic(c, id, name, generation, err).events)
         == [Failure(name, Command(id), err, true)]
  {
    hide Commit, TransitionEvents, ReadinessEvents, About, RecordCommandPanic;
    PanicCases(c, id, name, generation, err);
    var w := c.workers[name];
    var event := [Failure(name, Command(id), err, true)];
    AboutOne(id, event[0]);
    if w.generation == generation && (w.lifecycle == Running || w.lifecycle == Draining) {
      var after := MovedToFailed(w, Some(err)).(lastCommandFailure := Some(err));
      var c' := Commit(c, name, after);
      var before := TransitionEvents(OfWorker(name), w.lifecycle,
            after.lifecycle) + ReadinessEvents(OfWorker(name), w.ready, after.ready);
      var behind := TransitionEvents(OfRuntime, c.status.state, c'.status.state) + ReadinessEvents(OfRuntime,
            c.status.ready, c'.status.ready);
      ChangesOnly(OfWorker(name), w.lifecycle, after.lifecycle, w.ready, after.ready);
      ChangesOnly(OfRuntime, c.status.state, c'.status.state, c.status.ready, c'.status.ready);
      var events := RecordCommandPanic(c, id, name, generation, err).events;
      assert events == ChangeEvents(name, w, after, event, c.status, c'.status);
      assert events == before + event + behind;
      AboutFailure(id, events, name, err, before, behind);
    }
  }

  lemma ChangesOnly(subject: Subject, from: LifecycleState, to: LifecycleState, before: bool, after: bool)
    ensures forall e :: e in TransitionEvents(subject, from, to) + ReadinessEvents(subject, before,
          after) ==> e.Transition? || e.Readiness?
  {
  }

  lemma OwnStepEvents(c: Core, id: nat, l: Label)
    requires Enabled(c, l) && IsOwnStep(id, l)
    requires id in c.dispatches ==> c.dispatches[id].worker in c.workers
    ensures About(id, Apply(c, l).events) == OwnEvents(TokenOf(c, id), id, l)
  {
    hide About, RecordCommandPanic;
    match l
    case CommandPanicked(_, err) => PanicEvents(c, id, c.dispatches[id].worker, c.dispatches[id].generation, err);
    case Admit(_, _) => AboutNone(id, Apply(c, l).events);
    case CallHandler(_) => AboutOne(id, OwnEvents(TokenOf(c, id), id, l)[0]);
    case HandlerReturns(_, _) => AboutOne(id, OwnEvents(TokenOf(c, id), id, l)[0]);
    case CommandFailed(_, _) => AboutOne(id, OwnEvents(TokenOf(c, id), id, l)[0]);
    case Release(_) => AboutOne(id, OwnEvents(TokenOf(c, id), id, l)[0]);
    case EndObservation(_, _, _) => AboutOne(id, OwnEvents(TokenOf(c, id), id, l)[0]);
  }

  lemma OwnStepToken(c: Core, id: nat, l: Label)
    requires Enabled(c, l) && IsOwnStep(id, l) && id < c.nextDispatch
    requires id in c.dispatches ==> c.dispatches[id].worker in c.workers && id !in c.pending
    ensures TokenOf(Apply(c, l).core, id) == OwnToken(TokenOf(c, id), l, Apply(c, l).result)
    ensures id < Apply(c, l).core.nextDispatch
  {
    hide Observed, Commit;
  }

  lemma TokenFacts(s: System, id: nat)
    requires Reachable(s) && id in s.core.dispatches
    ensures s.core.dispatches[id].worker in s.core.workers && id !in s.core.pending
  {
    ReachableInv(s);
    assert Issued(s.core, s.core.dispatches[id]);
  }

  /** Any number of steps by every other party. */
  method Others(r: Runtime, ctx: Context, id: nat, ghost s0: System, ghost token: Token, ghost trace: seq<Event>)
    requires r.Valid() && Traced(s0, r.View(), id, token, trace)
    modifies r, ctx
    ensures r.Valid() && Traced(s0, r.View(), id, token, trace)
    ensures old(ctx.cancelled) ==> ctx.cancelled
  {
    hide Reachable, Traced, Enabled, Next;
    var steps: nat := *;
    while steps > 0
      invariant r.Valid() && Traced(s0, r.View(), id, token, trace)
      invariant old(ctx.cancelled) ==> ctx.cancelled
    {
      var l: Label := *;
      if !IsOwnStep(id, l) && Enabled(r.CoreView(), l) {
        OtherStepKeepsTrace(s0, r.View(), id, l, token, trace);
        var _ := r.Step(l);
      }
      var expired: bool := *;
      if expired {
        ctx.cancelled := true;
      }
      steps := steps - 1;
    }
  }

  /** One step of the dispatch itself, and any number by others. */
  method Take(r: Runtime, ctx: Context, id: nat, l: Label, ghost s0: System, ghost token: Token,
              ghost trace: seq<Event>)
    returns (result: Result)
    requires r.Valid() && Traced(s0, r.View(), id, token, trace)
    requires Enabled(r.CoreView(), l) && IsOwnStep(id, l)
    modifies r, ctx
    ensures r.Valid()
    ensures result == Apply(old(r.CoreView()), l).result
    ensures Traced(s0, r.View(), id, OwnToken(token, l, result), trace + OwnEvents(token, id, l))
    ensures old(ctx.cancelled) ==> ctx.cancelled
  {
    hide Reachable, TokenOf, Enabled, Apply, OwnEvents, OwnToken;
    ghost var s := r.View();
    if id in r.dispatches {
      TokenFacts(s, id);
    }
    OwnStepEvents(s.core, id, l);
    OwnStepToken(s.core, id, l);
    TraceExtends(s0, s, Next(s, l), id, token, OwnToken(token, l, Apply(s.core, l).result), trace,
        Apply(s.core, l).events);
    result := r.Step(l);
    Others(r, ctx, id, s0, OwnToken(token, l, result), trace + OwnEvents(token, id, l));
  }

  // ---------------------------------------------------------------------------
  // The whole dispatch.

  /** How a dispatch ended: the target is not registered; not admitted; answered; given up
      with an error; or by a panic of the handler, re-raised or not. */
  datatype DispatchEnd =
    | Unregistered
    | Refused(why: Result)
    | Replied
    | GaveUp(err: Error)
    | HandlerPanicked(panic: int, raised: bool)

  predicate Admitted(end: DispatchEnd) {
    end.Replied? || end.GaveUp? || end.HandlerPanicked?
  }

  /** One call of the handler, and what it came back with. */
  function CallEvents(id: nat, outcome: CallOutcome): seq<Event> {
    [HandlerCalled(id), HandlerReturned(id, outcome)]
  }

  /** Calls of the handler that returned these errors, each recorded at once. */
  function FailedAttempts(id: nat, name: Name, errs: seq<Error>): seq<Event> {
    if errs == [] then []
    else
      var err := errs[|errs| - 1];
      FailedAttempts(id, name, errs[..|errs| - 1]) +
      CallEvents(id, Returned(Some(err))) + [Failure(name, Command(id), err, false)]
  }

  /** The handler calls of a dispatch. */
  function Calls(errs: seq<Error>, end: DispatchEnd): nat {
    |errs| + if end.Replied? || end.HandlerPanicked? then 1 else 0
  }

  /** What is recorded of the last handler call when it did not return an error. */
  function LastCall(id: nat, name: Name, end: DispatchEnd): seq<Event> {
    match end
    case Replied => CallEvents(id, Returned(None))
    case HandlerPanicked(p, _) => CallEvents(id, Panicked(p)) + [Failure(name, Command(id), RecoveredPanic(p), true)]
    case _ => []
  }

  /** Everything a dispatch that got an id makes known, in this order. */
  function DispatchTrace(id: nat, name: Name, errs: seq<Error>, end: DispatchEnd): seq<Event> {
    FailedAttempts(id, name, errs) + LastCall(id, name, end) +
    (if Admitted(end) then [SlotReleased(id)] else []) +
    [ObservationEnded(id, Calls(errs, end), end.Replied?)]
  }

  /** The policy allowed another attempt after each of these errors. */
  predicate AllRetried(policy: Policy, errs: seq<Error>) {
    |errs| < policy.Bound() && forall k: nat :: k < |errs| ==> policy.NextDelay((k + 1) as Int64, errs[k]).Some?
  }

  /** The errors, the policy and the ending fit together. */
  predicate RetriesFit(policy: Policy, panicPolicy: PanicPolicy, errs: seq<Error>, end: DispatchEnd) {
    match end
    case Unregistered | Refused(_) => errs == []
    case Replied => AllRetried(policy, errs)
    case GaveUp(err) =>
      && errs != [] && AllRetried(policy, errs[..|errs| - 1])
      && (err == ContextDone || (err == errs[|errs| - 1] && policy.NextDelay(|errs| as Int64, err).None?))
    case HandlerPanicked(_, raised) => AllRetried(policy, errs) && (raised <==> panicPolicy == Crash)
  }

  lemma RetriedOnce(policy: Policy, errs: seq<Error>, err: Error)
    requires AllRetried(policy, errs) && policy.NextDelay((|errs| + 1) as Int64, err).Some?
    ensures |errs| + 1 < policy.Bound()
    ensures AllRetried(policy, errs + [err])
  {
  }

  lemma OneMoreFailed(id: nat, name: Name, errs: seq<Error>, err: Error)
    ensures FailedAttempts(id, name, errs) + CallEvents(id, Returned(Some(err)))
              + [Failure(name, Command(id), err, false)]
         == FailedAttempts(id, name, errs + [err])
  {
    assert (errs + [err])[..|errs + [err]| - 1] == errs;
  }

  lemma SlotEnabled(s0: System, s: System, id: nat, target: Handle, call: Call, trace: seq<Event>)
    requires Reachable(s) && Traced(s0, s, id, Slot(target, call), trace)
    ensures MayBeCalled(call) ==> Enabled(s.core, CallHandler(id))
    ensures !call.InProgress? ==> Enabled(s.core, Release(id))
    ensures match call
            case NotCalled | InProgress | Answered(Returned(None)) => true
            case Answered(Returned(Some(err))) => Enabled(s.core, CommandFailed(id, err))
            case Answered(Panicked(p)) => Enabled(s.core, CommandPanicked(id, RecoveredPanic(p)))
  {
    hide Reachable;
    TokenFacts(s, id);
  }

  lemma ReturnEnabled(s0: System, s: System, id: nat, target: Handle, outcome: CallOutcome, trace: seq<Event>)
    requires Traced(s0, s, id, Slot(target, InProgress), trace)
    ensures Enabled(s.core, HandlerReturns(id, outcome))
  {
  }

  /** One call of the handler and its return; an error or a panic is recorded at once. */
  method Attempt(r: Runtime, ctx: Context, id: nat, ghost s0: System, ghost target: Handle, ghost call: Call,
                 ghost errs: seq<Error>)
    returns (outcome: CallOutcome)
    requires r.Valid() && Traced(s0, r.View(), id, Slot(target, call), FailedAttempts(id, target.worker, errs))
    requires MayBeCalled(call)
    modifies r, ctx
    ensures r.Valid()
    ensures Traced(s0, r.View(), id, Slot(target, Answered(outcome)),
                   match outcome
                   case Returned(None) => FailedAttempts(id, target.worker, errs) + CallEvents(id, outcome)
                   case Returned(Some(err)) => FailedAttempts(id, target.worker, errs + [err])
                   case Panicked(p) =>
                     FailedAttempts(id, target.worker, errs) +
                     (CallEvents(id, outcome) + [Failure(target.worker, Command(id), RecoveredPanic(p), true)]))
    ensures old(ctx.cancelled) ==> ctx.cancelled
  {
    hide Reachable, Traced, Enabled, FailedAttempts, Apply;
    ghost var trace := FailedAttempts(id, target.worker, errs);
    SlotEnabled(s0, r.View(), id, target, call, trace);
    var _ := Take(r, ctx, id, CallHandler(id), s0, Slot(target, call), trace);
    outcome := *;
    ReturnEnabled(s0, r.View(), id, target, outcome, trace + [HandlerCalled(id)]);
    var _ := Take(r, ctx, id, HandlerReturns(id, outcome), s0, Slot(target, InProgress), trace + [HandlerCalled(id)]);
    ghost var answered, called := Slot(target, Answered(outcome)), trace + CallEvents(id, outcome);
    assert trace + [HandlerCalled(id)] + [HandlerReturned(id, outcome)] == called;
    SlotEnabled(s0, r.View(), id, target, Answered(outcome), called);
    match outcome {
      case Returned(None) =>
      case Returned(Some(err)) =>
        var _ := Take(r, ctx, id, CommandFailed(id, err), s0, answered, called);
        OneMoreFailed(id, target.worker, errs, err);
      case Panicked(p) =>
        var _ := Take(r, ctx, id, CommandPanicked(id, RecoveredPanic(p)), s0, answered, called);
        ghost var event := Failure(target.worker, Command(id), RecoveredPanic(p), true);
        assert called + [event] == trace + (CallEvents(id, outcome) + [event]);
    }
  }

  /** What follows a failed call: give up because the context is done or the policy says so,
      or wait and go on. */
  method AfterFailure(r: Runtime, ctx: Context, id: nat, ghost s0: System, ghost token: Token, ghost name: Name,
        policy: Policy, errs: seq<Error>)
    returns (final: Option<Error>)
    requires r.Valid() && Traced(s0, r.View(), id, token, FailedAttempts(id, name, errs))
    requires errs != [] && |errs| <= policy.Bound()
    modifies r, ctx
    ensures r.Valid() && Traced(s0, r.View(), id, token, FailedAttempts(id, name, errs))
    ensures final.None? ==> policy.NextDelay(|errs| as Int64, errs[|errs| - 1]).Some?
    ensures final.Some? ==>
            || (final.value == ContextDone && ctx.cancelled)
              || (final.value == errs[|errs| - 1] && policy.NextDelay(|errs| as Int64, final.value).None?)
  {
    hide Reachable, Traced, FailedAttempts;
    if ctx.cancelled {
      return Some(ContextDone);
    }
    var next := policy.NextDelay(|errs| as Int64, errs[|errs| - 1]);
    if next.None? {
      return Some(errs[|errs| - 1]);
    }
    if next.value > 0 {
      Others(r, ctx, id, s0, token, FailedAttempts(id, name, errs));
      var timerFirst: bool := *;
      if ctx.cancelled && !timerFirst {
        return Some(ContextDone);
      }
    }
    return None;
  }

  /** The attempts of an admitted dispatch, under the worker's retry policy. The counter is set
      as each attempt begins; in the end it is the number of calls. */
  method ExecuteCommand(r: Runtime, ctx: Context, id: nat, ghost s0: System, ghost target: Handle, cfg: WorkerConfig)
    returns (end: DispatchEnd, errs: seq<Error>, attempts: nat, ghost last: Call)
    requires r.Valid() && Traced(s0, r.View(), id, Slot(target, NotCalled), [])
    modifies r, ctx
    ensures r.Valid() && !last.InProgress?
    ensures Traced(s0, r.View(), id, Slot(target, last),
                   FailedAttempts(id, target.worker, errs) + LastCall(id, target.worker, end))
    ensures attempts == Calls(errs, end)
    ensures Admitted(end) && RetriesFit(cfg.commandRetry, cfg.panicPolicy, errs, end)
    ensures end.GaveUp? && end.err != errs[|errs| - 1] ==> ctx.cancelled
  {
    hide Reachable, Traced, FailedAttempts, AllRetried;
    errs, attempts, last := [], 0, NotCalled;
    var attempt := 1;
    NothingRetried(cfg.commandRetry);
    NoneFailed(id, target.worker);
    while true
      invariant r.Valid() && Traced(s0, r.View(), id, Slot(target, last), FailedAttempts(id, target.worker, errs))
      invariant MayBeCalled(last)
      invariant AllRetried(cfg.commandRetry, errs) && |errs| < cfg.commandRetry.Bound()
      invariant attempt == |errs| + 1 && attempts == |errs|
      decreases cfg.commandRetry.Bound() - |errs|
    {
      attempts := attempt;
      var outcome := Attempt(r, ctx, id, s0, target, last, errs);
      last := Answered(outcome);
      match outcome {
        case Panicked(p) =>
          return HandlerPanicked(p, cfg.panicPolicy == Crash), errs, attempts, last;
        case Returned(None) =>
          return Replied, errs, attempts, last;
        case Returned(Some(err)) =>
          ghost var tried := errs;
          errs := errs + [err];
          assert errs[..|errs| - 1] == tried;
          assert FailedAttempts(id, target.worker, errs) + [] == FailedAttempts(id, target.worker, errs);
          var final := AfterFailure(r, ctx, id, s0, Slot(target, last), target.worker, cfg.commandRetry, errs);
          if final.Some? {
            return GaveUp(final.value), errs, attempts, last;
          }
          RetriedOnce(cfg.commandRetry, tried, err);
      }
      attempt := attempt + 1;
    }
  }

  lemma NothingRetried(policy: Policy)
    ensures AllRetried(policy, [])
  {
  }

  lemma NoneFailed(id: nat, name: Name)
    ensures FailedAttempts(id, name, []) == []
  {
  }

  lemma DispatchBegins(s: System)
    requires Reachable(s)
    ensures Enabled(s.core, NewDispatch)
    ensures Traced(s, Next(s, NewDispatch), s.core.nextDispatch, Waiting, [])
  {
    ReachableInv(s);
    assert Next(s, NewDispatch).log == s.log + [];
    assert (s.log + [])[|s.log|..] == [];
  }

  lemma WaitingEnabled(s0: System, s: System, id: nat, name: Name, trace: seq<Event>)
    requires Traced(s0, s, id, Waiting, trace)
    ensures Enabled(s.core, Admit(id, name))
  {
  }

  lemma GoneEnabled(s0: System, s: System, id: nat, attempts: nat, success: bool, trace: seq<Event>)
    requires Traced(s0, s, id, Gone, trace)
    ensures Enabled(s.core, EndObservation(id, attempts, success))
  {
  }

  /** The deferred end of an admitted dispatch: the slot first, then the observation. */
  method FinishDispatch(r: Runtime, ctx: Context, id: nat, ghost s0: System, ghost target: Handle, ghost last: Call,
                        ghost trace: seq<Event>, attempts: nat, success: bool)
    requires r.Valid() && Traced(s0, r.View(), id, Slot(target, last), trace) && !last.InProgress?
    modifies r, ctx
    ensures r.Valid()
    ensures Traced(s0, r.View(), id, Gone, trace + [SlotReleased(id)] + [ObservationEnded(id, attempts, success)])
    ensures old(ctx.cancelled) ==> ctx.cancelled
  {
    hide Reachable, Traced, Enabled;
    SlotEnabled(s0, r.View(), id, target, last, trace);
    var _ := Take(r, ctx, id, Release(id), s0, Slot(target, last), trace);
    GoneEnabled(s0, r.View(), id, attempts, success, trace + [SlotReleased(id)]);
    var _ := Take(r, ctx, id, EndObservation(id, attempts, success), s0, Gone, trace + [SlotReleased(id)]);
  }

  /** The dispatch had got its id and waited when the runtime was as at, in the course of
      these events. */
  ghost predicate Asked(s0: System, at: System, s: System, id: nat) {
    Reachable(at) && Traced(s0, at, id, Waiting, []) && at.log <= s.log
  }

  lemma TraceStarts(s0: System, s: System, id: nat, token: Token, trace: seq<Event>)
    requires Traced(s0, s, id, token, trace)
    ensures Traced(s, s, id, token, [])
  {
    assert s.log[|s.log|..] == [];
  }

  lemma TraceContinues(s0: System, at: System, s: System, id: nat, before: Token, token: Token, trace: seq<Event>)
    requires Traced(s0, at, id, before, []) && Traced(at, s, id, token, trace)
    ensures Traced(s0, s, id, token, trace) && at.log <= s.log
  {
    AboutConcat(id, at.log[|s0.log|..], s.log[|at.log|..]);
    assert s.log[|s0.log|..] == at.log[|s0.log|..] + s.log[|at.log|..];
    assert [] + trace == trace;
  }

  /** Gets an id and asks for admission; a refused dispatch ends its observation at once. The
      answer is told by the records at the moment of asking. */
  method BeginDispatch(r: Runtime, ctx: Context, name: Name) returns (id: nat, admission: Result, ghost at: System)
    requires r.Valid()
    modifies r, ctx
    ensures r.Valid() && id == old(r.commandDispatchSeq)
    ensures Asked(old(r.View()), at, r.View(), id)
    ensures if admission.Began? then Admits(at.core, name, admission.generation) else Refuses(at.core, name, admission)
    ensures if admission.Began?
            then Traced(old(r.View()), r.View(), id, Slot(Handle(name, admission.generation), NotCalled), [])
            else Traced(old(r.View()), r.View(), id, Gone, [ObservationEnded(id, 0, false)])
  {
    hide Reachable, Traced, Enabled, Next, Apply, Admits, Refuses;
    ghost var s0 := r.View();
    id := r.commandDispatchSeq;
    DispatchBegins(s0);
    var _ := r.Step(NewDispatch);
    Others(r, ctx, id, s0, Waiting, []);
    at := r.View();
    WaitingEnabled(s0, at, id, name, []);
    TraceStarts(s0, at, id, Waiting, []);
    AdmissionAnswers(at, id, name);
    admission := Take(r, ctx, id, Admit(id, name), at, Waiting, []);
    ghost var none: seq<Event> := [];
    assert none + none == none;
    if admission.Began? {
      TraceContinues(s0, at, r.View(), id, Waiting, Slot(Handle(name, admission.generation), NotCalled), []);
    } else {
      GoneEnabled(at, r.View(), id, 0, false, []);
      var _ := Take(r, ctx, id, EndObservation(id, 0, false), at, Gone, []);
      assert none + [ObservationEnded(id, 0, false)] == [ObservationEnded(id, 0, false)];
      TraceContinues(s0, at, r.View(), id, Waiting, Gone, [ObservationEnded(id, 0, false)]);
    }
  }

  /** Dispatch of one command, whatever else happens: what it makes known is exactly its
      trace, which its ending determines, it ends holding no slot, and whether it was admitted
      was told by the records when it asked. */
  method Dispatch(r: Runtime, ctx: Context, name: Name, registered: bool)
    returns (end: DispatchEnd, id: nat, errs: seq<Error>, attempts: nat, policy: Policy, ghost at: System)
    requires r.Valid()
    modifies r, ctx
    ensures r.Valid()
    ensures end.Unregistered? <==> name !in old(r.workerConfigs) || !registered
    ensures end.Unregistered? ==> r.View() == old(r.View())
    ensures !end.Unregistered? ==>
            && id == old(r.commandDispatchSeq)
              && Traced(old(r.View()), r.View(), id, Gone, DispatchTrace(id, name, errs, end))
              && policy == old(r.workerConfigs)[name].commandRetry
              && RetriesFit(policy, old(r.workerConfigs)[name].panicPolicy, errs, end)
              && Asked(old(r.View()), at, r.View(), id)
    ensures match end
            case Unregistered => true
            case Refused(why) => Refuses(at.core, name, why)
            case _ => exists generation :: Admits(at.core, name, generation)
    ensures end.GaveUp? ==> errs != [] && (end.err != errs[|errs| - 1] ==> ctx.cancelled)
    ensures attempts == Calls(errs, end) <= if end.Unregistered? then 0 else policy.Bound()
  {
    hide Reachable, Traced, FailedAttempts, Admits, Refuses;
    id, errs, attempts, policy := 0, [], 0, Never;
    ghost var s0 := r.View();
    at := s0;
    if name !in r.workerConfigs || !registered {
      end := Unregistered;
      return;
    }
    var cfg := r.workerConfigs[name];
    policy := cfg.commandRetry;
    var admission: Result;
    id, admission, at := BeginDispatch(r, ctx, name);
    NoneFailed(id, name);
    if !admission.Began? {
      end := Refused(admission);
      assert [ObservationEnded(id, 0, false)] == DispatchTrace(id, name, errs, end);
      return;
    }
    ghost var target, admitted := Handle(name, admission.generation), r.View();
    ghost var last: Call;
    TraceStarts(s0, admitted, id, Slot(target, NotCalled), []);
    end, errs, attempts, last := ExecuteCommand(r, ctx, id, admitted, target, cfg);
    FinishDispatch(r, ctx, id, admitted, target, last, FailedAttempts(id, name, errs) + LastCall(id, name, end),
                   attempts, end.Replied?);
    TraceContinues(s0, admitted, r.View(), id, Slot(target, NotCalled), Gone, DispatchTrace(id, name, errs, end));
    assert Asked(s0, at, r.View(), id);
    assert Admits(at.core, name, admission.generation);
  }

  // ---------------------------------------------------------------------------
  // The accounts of a dispatch.

  function IsHandlerCall(id: nat): Event -> bool { (e: Event) => e == HandlerCalled(id) }

  function IsHandlerError(id: nat): Event -> bool {
    (e: Event) => e.HandlerReturned? && e.id == id && e.outcome.Returned? && e.outcome.err.Some?
  }

  function IsHandlerPanic(id: nat): Event -> bool {
    (e: Event) => e.HandlerReturned? && e.id == id && e.outcome.Panicked?
  }

  function IsHandlerReturn(id: nat): Event -> bool { (e: Event) => e.HandlerReturned? && e.id == id }

  function IsRelease(id: nat): Event -> bool { (e: Event) => e == SlotReleased(id) }

  function IsObservationEnd(id: nat): Event -> bool { (e: Event) => e.ObservationEnded? && e.id == id }

  function IsCommandFailure(id: nat): Event -> bool { (e: Event) => e.Failure? && e.source == Command(id) }

  /** What is counted of a dispatch. */
  ghost predicate IsAccount(id: nat, p: Event -> bool) {
    || p == IsHandlerCall(id) || p == IsHandlerReturn(id) || p == IsHandlerError(id) || p == IsHandlerPanic(id)
    || p == IsRelease(id) || p == IsObservationEnd(id) || p == IsCommandFailure(id)
  }

  lemma {:induction false} CountAbout(id: nat, log: seq<Event>, p: Event -> bool)
    requires forall e :: p(e) ==> IsAbout(id, e)
    ensures Count(log, p) == Count(About(id, log), p)
  {
    if log != [] {
      var rest, e := log[..|log| - 1], log[|log| - 1];
      CountAbout(id, rest, p);
      if IsAbout(id, e) {
        assert (About(id, rest) + [e])[..|About(id, rest)|] == About(id, rest);
      } else {
        assert About(id, rest) + [] == About(id, rest);
      }
    }
  }

  lemma CountOneMore(log: seq<Event>, e: Event, p: Event -> bool)
    ensures Count(log + [e], p) == Count(log, p) + if p(e) then 1 else 0
  {
    assert (log + [e])[..|log + [e]| - 1] == log;
  }

  function Counted(e: Event, p: Event -> bool): nat { if p(e) then 1 else 0 }

  /** How often p holds of the events of one failed attempt. */
  function AttemptCount(id: nat, p: Event -> bool): nat {
    Counted(HandlerCalled(id), p) + Counted(HandlerReturned(id, Returned(Some(ContextDone))), p)
    + Counted(Failure("", Command(id), ContextDone, false), p)
  }

  lemma {:induction false} FailedAttemptsCount(id: nat, name: Name, errs: seq<Error>, p: Event -> bool)
    requires IsAccount(id, p)
    ensures Count(FailedAttempts(id, name, errs), p) == |errs| * AttemptCount(id, p)
  {
    hide Count;
    if errs == [] {
      NothingCounted(p);
    } else {
      var err, rest := errs[|errs| - 1], FailedAttempts(id, name, errs[..|errs| - 1]);
      var call, back := HandlerCalled(id), HandlerReturned(id, Returned(Some(err)));
      var failure := Failure(name, Command(id), err, false);
      FailedAttemptsCount(id, name, errs[..|errs| - 1], p);
      assert FailedAttempts(id, name, errs) == rest + [call] + [back] + [failure];
      CountOneMore(rest, call, p);
      CountOneMore(rest + [call], back, p);
      CountOneMore(rest + [call] + [back], failure, p);
      SameAccount(id, name, err, p);
    }
  }

  /** The accounts do not look at the worker or the error. */
  lemma SameAccount(id: nat, name: Name, err: Error, p: Event -> bool)
    requires IsAccount(id, p)
    ensures p(HandlerReturned(id, Returned(Some(err)))) <==> p(HandlerReturned(id, Returned(Some(ContextDone))))
    ensures p(Failure(name, Command(id), err, false)) <==> p(Failure("", Command(id), ContextDone, false))
  {
  }

  lemma NothingCounted(p: Event -> bool)
    ensures Count([], p) == 0
  {
  }

  lemma CountTwoMore(log: seq<Event>, a: Event, b: Event, p: Event -> bool)
    ensures Count(log + [a, b], p) == Count(log, p) + Counted(a, p) + Counted(b, p)
  {
    hide Count;
    assert log + [a, b] == log + [a] + [b];
    CountOneMore(log, a, p);
    CountOneMore(log + [a], b, p);
  }

  lemma LastCallCount(log: seq<Event>, id: nat, name: Name, end: DispatchEnd, p: Event -> bool)
    ensures Count(log + LastCall(id, name, end), p)
         == Count(log, p) + match end
                            case Replied =>
                              Counted(HandlerCalled(id), p) + Counted(HandlerReturned(id, Returned(None)), p)
                            case HandlerPanicked(panic, _) =>
                              Counted(HandlerCalled(id), p) + Counted(HandlerReturned(id, Panicked(panic)), p)
                              + Counted(Failure(name, Command(id), RecoveredPanic(panic), true), p)
                            case _ => 0
  {
    hide Count;
    match end
    case Replied => CountTwoMore(log, HandlerCalled(id), HandlerReturned(id, Returned(None)), p);
    case HandlerPanicked(panic, _) =>
      var called := CallEvents(id, Panicked(panic));
      var failure := Failure(name, Command(id), RecoveredPanic(panic), true);
      CountTwoMore(log, HandlerCalled(id), HandlerReturned(id, Panicked(panic)), p);
      CountOneMore(log + called, failure, p);
      assert log + LastCall(id, name, end) == log + called + [failure];
    case _ => assert log + LastCall(id, name, end) == log;
  }

  lemma TraceCount(id: nat, name: Name, errs: seq<Error>, end: DispatchEnd, p: Event -> bool)
    ensures Count(DispatchTrace(id, name, errs, end), p)
         == Count(FailedAttempts(id, name, errs) + LastCall(id, name, end), p)
            + (if Admitted(end) then Counted(SlotReleased(id), p) else 0)
            + Counted(ObservationEnded(id, Calls(errs, end), end.Replied?), p)
  {
    hide Count, FailedAttempts, LastCall;
    var calls := FailedAttempts(id, name, errs) + LastCall(id, name, end);
    var over := ObservationEnded(id, Calls(errs, end), end.Replied?);
    CountOneMore(calls, over, p);
    CountTwoMore(calls, SlotReleased(id), over, p);
    assert calls + [] + [over] == calls + [over];
    assert calls + [SlotReleased(id)] + [over] == calls + [SlotReleased(id), over];
  }

  /** One account of a dispatch, over the whole log. */
  lemma Account(s: System, t: System, id: nat, name: Name, errs: seq<Error>, end: DispatchEnd, p: Event -> bool)
    requires Traced(s, t, id, Gone, DispatchTrace(id, name, errs, end)) && IsAccount(id, p)
    ensures Count(t.log[|s.log|..], p)
         == |errs| * AttemptCount(id, p)
            + (match end
               case Replied => Counted(HandlerCalled(id), p) + Counted(HandlerReturned(id, Returned(None)), p)
               case HandlerPanicked(panic, _) =>
                 Counted(HandlerCalled(id), p) + Counted(HandlerReturned(id, Panicked(panic)), p)
                 + Counted(Failure(name, Command(id), RecoveredPanic(panic), true), p)
               case _ => 0)
            + (if Admitted(end) then Counted(SlotReleased(id), p) else 0)
            + Counted(ObservationEnded(id, Calls(errs, end), end.Replied?), p)
  {
    hide Count, About, DispatchTrace, AttemptCount;
    CountAbout(id, t.log[|s.log|..], p);
    TraceCount(id, name, errs, end, p);
    LastCallCount(FailedAttempts(id, name, errs), id, name, end, p);
    FailedAttemptsCount(id, name, errs, p);
  }

  /** Whatever else is in the log: an admitted dispatch released its slot exactly once and
      every dispatch ended its observation exactly once; the handler calls are the attempts, and
      each came back; and the failure events are one for each error and each panic the handler
      came back with. */
  lemma DispatchIsAccounted(s: System, t: System, id: nat, name: Name, errs: seq<Error>, end: DispatchEnd)
    requires Traced(s, t, id, Gone, DispatchTrace(id, name, errs, end))
    ensures var log := t.log[|s.log|..];
            && Count(log, IsRelease(id)) == (if Admitted(end) then 1 else 0)
            && Count(log, IsObservationEnd(id)) == 1
            && Count(log, IsHandlerCall(id)) == Count(log, IsHandlerReturn(id)) == Calls(errs, end)
            && Count(log, IsHandlerError(id)) == |errs|
            && Count(log, IsHandlerPanic(id)) == (if end.HandlerPanicked? then 1 else 0)
            && Count(log, IsCommandFailure(id)) == Count(log, IsHandlerError(id)) + Count(log, IsHandlerPanic(id))
            && ObservationEnded(id, Calls(errs, end), end.Replied?) in log
  {
    hide Count, About, DispatchTrace, Traced;
    Account(s, t, id, name, errs, end, IsRelease(id));
    Account(s, t, id, name, errs, end, IsObservationEnd(id));
    Account(s, t, id, name, errs, end, IsHandlerCall(id));
    Account(s, t, id, name, errs, end, IsHandlerReturn(id));
    Account(s, t, id, name, errs, end, IsHandlerError(id));
    Account(s, t, id, name, errs, end, IsHandlerPanic(id));
    Account(s, t, id, name, errs, end, IsCommandFailure(id));
    ObservationIsLogged(s, t, id, name, errs, end);
  }

  lemma ObservationIsLogged(s: System, t: System, id: nat, name: Name, errs: seq<Error>, end: DispatchEnd)
    requires Traced(s, t, id, Gone, DispatchTrace(id, name, errs, end))
    ensures s.log <= t.log && ObservationEnded(id, Calls(errs, end), end.Replied?) in t.log[|s.log|..]
  {
    TraceEnds(id, name, errs, end);
    AboutIn(id, t.log[|s.log|..], ObservationEnded(id, Calls(errs, end), end.Replied?));
  }

  lemma TraceEnds(id: nat, name: Name, errs: seq<Error>, end: DispatchEnd)
    ensures ObservationEnded(id, Calls(errs, end), end.Replied?) in DispatchTrace(id, name, errs, end)
  {
  }

  lemma {:induction false} AboutIn(id: nat, log: seq<Event>, e: Event)
    requires e in About(id, log)
    ensures e in log
  {
    var rest, last := log[..|log| - 1], log[|log| - 1];
    if e in About(id, rest) {
      AboutIn(id, rest, e);
    }
  }
}
