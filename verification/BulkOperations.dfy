/** StartAll, DrainAllBestEffort, WaitAllIdle and StopAll, under the gate. */
module BulkOperations {
  import opened Basics
  import opened Lifecycle
  import opened EventLog
  import opened RuntimeSteps
  import opened Interference
  import opened RuntimeTheorems
  import opened RuntimeResults
  import opened OperationEffects
  import opened Milestones
  import opened WorkerkitRuntime
  import opened LifecycleOperations
  import opened CallSequences

  function Names(order: seq<Name>): set<Name> {
    set n | n in order
  }

  predicate Inactive(state: LifecycleState) {
    state == Registered || state == Stopped || state == Failed
  }

  /** While the gate holder is at rest, no worker is starting or stopping, and the
      registration order lists every worker once. */
  lemma AtRestWorkers(s: System)
    requires Reachable(s) && AtRest(s.core)
    ensures forall n :: n in s.core.workers ==>
              s.core.workers[n].lifecycle != Starting && s.core.workers[n].lifecycle != Stopping
    ensures forall n :: n in s.core.order <==> n in s.core.workers
    ensures s.core.configs.Keys == s.core.workers.Keys
    ensures forall i, j :: 0 <= i < j < |s.core.order| ==> s.core.order[i] != s.core.order[j]
  {
    ReachableInv(s);
  }

  /** The workers of the tail are inactive, and the error list tells whether any is failed. */
  ghost predicate TailStopped(c: Core, tail: seq<Name>, clean: bool) {
    && (forall n :: n in tail ==> n in c.workers && Inactive(c.workers[n].lifecycle))
    && (clean <==> forall n :: n in tail ==> n in c.workers && c.workers[n].lifecycle != Failed)
  }

  lemma TailStays(s: System, t: System, tail: seq<Name>, touched: set<Name>, stops: seq<Name>, clean: bool)
    requires Effect(s, t, touched, stops) && TailStopped(s.core, tail, clean)
    requires forall n :: n in tail ==> n !in touched
    ensures TailStopped(t.core, tail, clean)
  {
    hide StopsCalled;
    assert forall n :: n in tail ==> n in t.core.workers && FreeChange(s.core.workers[n], t.core.workers[n]);
  }

  lemma TailExtends(c: Core, name: Name, tail: seq<Name>, clean: bool, stopped: bool)
    requires TailStopped(c, tail, clean) && name in c.workers && Inactive(c.workers[name].lifecycle)
    requires stopped <==> c.workers[name].lifecycle != Failed
    ensures TailStopped(c, [name] + tail, clean && stopped)
  {
    assert forall n :: n in [name] + tail <==> n == name || n in tail;
  }

  lemma UntouchedWorker(s: System, t: System, touched: set<Name>, stops: seq<Name>, name: Name)
    requires Effect(s, t, touched, stops) && name in s.core.workers && name !in touched
    ensures name in t.core.workers && FreeChange(s.core.workers[name], t.core.workers[name])
  {
    hide StopsCalled;
  }

  lemma EffectOrder(s: System, t: System, touched: set<Name>, stops: seq<Name>)
    requires Effect(s, t, touched, stops)
    ensures t.core.order == s.core.order && t.core.workers.Keys == s.core.workers.Keys && t.core.gate.Held?
  {
    hide StopsCalled;
  }

  lemma StoppableCons(name: Name, tail: seq<Name>, ws: map<Name, Worker>)
    requires name in ws
    ensures StoppableReversed([name] + tail, ws)
         == if Stoppable(ws[name].lifecycle) then StoppableReversed(tail, ws) + [name] else StoppableReversed(tail, ws)
    ensures Names([name] + tail) == Names(tail) + {name}
  {
    assert ([name] + tail)[1..] == tail;
    assert StoppableReversed(tail, ws) + [] == StoppableReversed(tail, ws);
  }

  /** StopAll so far: Stop was called once on each worker of the tail that may be stopped, last
      one first; the errors are those of the calls, and no panic was re-raised. */
  ghost predicate TailCalled(s: System, t: System, tail: seq<Name>, calls: seq<CallOutcome>, errs: seq<Error>) {
    && StopsMade(s, t, StoppableReversed(tail, s.core.workers), calls)
    && NoneCrashed(s.core.configs, StoppableReversed(tail, s.core.workers), calls)
    && errs == StopErrors(calls)
  }

  /** StopAll left by a re-raised panic: that of its last call, the first to be re-raised. */
  ghost predicate TailCrashed(s: System, t: System, tail: seq<Name>, calls: seq<CallOutcome>) {
    && StopsMade(s, t, StoppableReversed(tail, s.core.workers), calls)
    && LastCrashed(s.core.configs, StoppableReversed(tail, s.core.workers), calls)
  }

  lemma NothingCalled(s: System)
    ensures TailCalled(s, s, [], [], [])
  {
    PassedNothing(s);
    NoStopsMade(s, s);
  }

  /** One more worker of the tail: its one call decides how StopAll goes on. */
  lemma TailCalledNext(s: System, m: System, t: System, name: Name, tail: seq<Name>, calls: seq<CallOutcome>,
                       errs: seq<Error>, res: Completion, call: CallOutcome, trace: seq<Event>, generation: nat)
    requires TailCalled(s, m, tail, calls, errs) && name in s.core.workers && name in s.core.configs
    requires Stoppable(s.core.workers[name].lifecycle)
    requires Passed(m, t, trace) && StopCall(name, generation, call, trace)
    requires StopDecided(s.core.configs[name], call, res) && !res.Rejected?
    ensures if res.Crashed? then TailCrashed(s, t, [name] + tail, calls + [call])
            else TailCalled(s, t, [name] + tail, calls + [call], errs + if res.Failing? then [res.err] else [])
  {
    hide StopsMade, NoneCrashed, LastCrashed, Passed, StopCall, StopErrors;
    var names := StoppableReversed(tail, s.core.workers);
    StoppableCons(name, tail, s.core.workers);
    OneMoreStop(s, m, t, names, calls, name, generation, call, trace);
    NoneCrashedOneMore(s.core.configs, names, calls, name, call);
    if !res.Crashed? {
      OneMoreError(calls, s.core.configs[name], call, res);
    }
  }

  /** One worker of StopAll that may be stopped. */
  method StopNext(r: Runtime, ctx: Context, ghost s0: System, name: Name, ghost tail: seq<Name>, errs: seq<Error>,
                  ghost calls: seq<CallOutcome>)
    returns (errs': seq<Error>, crashed: bool, ghost calls': seq<CallOutcome>)
    requires r.Valid() && AtRest(r.CoreView()) && Reachable(s0)
    requires name in s0.core.workers && Stoppable(s0.core.workers[name].lifecycle) && name !in tail
    requires Effect(s0, r.View(), Names(tail), StoppableReversed(tail, s0.core.workers))
    requires TailStopped(r.CoreView(), tail, errs == []) && NoneRevived(s0, r.View())
    requires TailCalled(s0, r.View(), tail, calls, errs)
    modifies r, ctx
    ensures r.Valid() && AtRest(r.CoreView())
    ensures Effect(s0, r.View(), Names([name] + tail), StoppableReversed([name] + tail, s0.core.workers))
    ensures NoneRevived(s0, r.View())
    ensures if crashed then TailCrashed(s0, r.View(), [name] + tail, calls')
            else TailCalled(s0, r.View(), [name] + tail, calls', errs')
    ensures !crashed ==> TailStopped(r.CoreView(), [name] + tail, errs' == [])
    ensures old(ctx.cancelled) ==> ctx.cancelled
  {
    hide Reachable, Effect, StopEnded, TailStopped, StoppableReversed, Passed, NoneRevived, StopDecided, StopCall,
         TailCalled, TailCrashed;
    UntouchedWorker(s0, r.View(), Names(tail), StoppableReversed(tail, s0.core.workers), name);
    StoppableCons(name, tail, s0.core.workers);
    ghost var before := r.View();
    EffectConfigs(s0, before, Names(tail), StoppableReversed(tail, s0.core.workers));
    ghost var call: CallOutcome, trace: seq<Event>;
    var res: Completion;
    res, call, trace := Stop(r, ctx, name);
    StopRevivesNone(before, r.View(), name, r.workerStates[name].generation, call, trace);
    RevivedTransitive(s0, before, r.View());
    EffectTransitive(s0, before, r.View(), Names(tail), {name}, StoppableReversed(tail, s0.core.workers), [name]);
    TailStays(before, r.View(), tail, {name}, [name], errs == []);
    StopEndedState(before, r.View(), name, res);
    TailExtends(r.CoreView(), name, tail, errs == [], res.Finished?);
    TailCalledNext(s0, before, r.View(), name, tail, calls, errs, res, call, trace, r.workerStates[name].generation);
    calls' := calls + [call];
    assert errs + [] == errs;
    match res {
      case Crashed => errs', crashed := errs, true;
      case Failing(err) => errs', crashed := errs + [err], false;
      case Finished => errs', crashed := errs, false;
    }
  }

  lemma StopRevivesNone(s: System, t: System, name: Name, generation: nat, call: CallOutcome, trace: seq<Event>)
    requires Passed(s, t, trace) && StopCall(name, generation, call, trace)
    ensures NoneRevived(s, t)
  {
    assert trace == [trace[0], trace[1]];
    PassedRevivesNone(s, t, trace);
  }

  lemma EffectConfigs(s: System, t: System, touched: set<Name>, stops: seq<Name>)
    requires Effect(s, t, touched, stops)
    ensures t.core.configs == s.core.configs
  {
    hide StopsCalled, WorkersKept;
  }

  lemma StopEndedState(s: System, t: System, name: Name, res: Completion)
    requires StopEnded(s, t, name, res)
    ensures name in t.core.workers && t.core.workers[name].lifecycle == if res.Finished? then Stopped else Failed
    ensures !res.Rejected?
  {
    hide Count, IsLifecycleFailure, IsReport;
  }

  /** No worker that may be stopped has its panics re-raised. */
  ghost predicate NobodyCrashes(c: Core) {
    forall n :: n in c.workers && n in c.configs && Stoppable(c.workers[n].lifecycle) ==>
      c.configs[n].panicPolicy != Crash
  }

  lemma NobodyCrashed(s: System, t: System, tail: seq<Name>, calls: seq<CallOutcome>)
    requires TailCrashed(s, t, tail, calls)
    ensures !NobodyCrashes(s.core)
  {
    hide StopsMade, StoppableReversed;
    var names := StoppableReversed(tail, s.core.workers);
    var name := names[|calls| - 1];
    assert name in names;
    StoppableMembers(tail, s.core.workers, name);
  }

  /** StopAll: Stop is called exactly once, in reverse registration order, on exactly the
      workers that were running, draining or failed, and the errors are those of these calls, in
      order. Every worker ends registered, stopped or failed, and no error is returned iff none
      is failed. It ends early only if such a call panics and its worker has the crash policy:
      then that call was the last, and exactly the workers behind it in the order were done.
      Nobody enters service meanwhile. */
  method StopAll(r: Runtime, ctx: Context)
    returns (errs: seq<Error>, crashed: bool, ghost reached: nat, ghost calls: seq<CallOutcome>)
    requires r.Valid() && AtRest(r.CoreView())
    modifies r, ctx
    ensures r.Valid() && AtRest(r.CoreView())
    ensures reached <= |old(r.workerOrder)| && (!crashed ==> reached == 0)
    ensures Effect(old(r.View()), r.View(), Names(old(r.workerOrder)[reached..]),
                   StoppableReversed(old(r.workerOrder)[reached..], old(r.workerStates)))
    ensures if crashed then TailCrashed(old(r.View()), r.View(), old(r.workerOrder)[reached..], calls)
            else TailCalled(old(r.View()), r.View(), old(r.workerOrder), calls, errs)
    ensures NobodyCrashes(old(r.CoreView())) ==> !crashed
    ensures !crashed ==> TailStopped(r.CoreView(), r.workerOrder, errs == [])
    ensures !crashed ==> forall n :: n in r.workerStates ==> n in r.workerOrder
    ensures NoneRevived(old(r.View()), r.View())
    ensures old(ctx.cancelled) ==> ctx.cancelled
  {
    hide Reachable, Effect, TailStopped, StoppableReversed, NoneRevived, TailCalled, TailCrashed, NobodyCrashes;
    ghost var s0 := r.View();
    AtRestWorkers(s0);
    EffectItself(s0);
    RelyItself(s0);
    RelyRevivesNone(s0, s0);
    var order, states := r.workerOrder, r.workerStates;
    errs, crashed, calls := [], false, [];
    var i := |order|;
    reached := i;
    assert order[i..] == [] && Names([]) == {};
    NothingStoppable(s0.core.workers);
    NothingStopped(r.CoreView());
    NothingCalled(s0);
    while i > 0
      invariant 0 <= i <= |order| && reached == i && !crashed
      invariant r.Valid() && AtRest(r.CoreView())
      invariant Effect(s0, r.View(), Names(order[i..]), StoppableReversed(order[i..], s0.core.workers))
      invariant TailStopped(r.CoreView(), order[i..], errs == []) && NoneRevived(s0, r.View())
      invariant TailCalled(s0, r.View(), order[i..], calls, errs)
      invariant old(ctx.cancelled) ==> ctx.cancelled
    {
      i := i - 1;
      reached := i;
      assert order[i..] == [order[i]] + order[i + 1..];
      match states[order[i]].lifecycle {
        case Running | Draining | Failed =>
          errs, crashed, calls := StopNext(r, ctx, s0, order[i], order[i + 1..], errs, calls);
          if crashed {
            NobodyCrashed(s0, r.View(), order[i..], calls);
            return;
          }
        case Registered | Stopped =>
          SkipTail(s0, r.View(), order[i], order[i + 1..], calls, errs);
      }
    }
    assert order[0..] == order;
    EffectOrder(s0, r.View(), Names(order), StoppableReversed(order, s0.core.workers));
  }

  /** A worker of StopAll that is inactive already. */
  lemma SkipTail(s0: System, s: System, name: Name, tail: seq<Name>, calls: seq<CallOutcome>, errs: seq<Error>)
    requires name in s0.core.workers && s0.core.workers[name].lifecycle in {Registered, Stopped} && name !in tail
    requires Effect(s0, s, Names(tail), StoppableReversed(tail, s0.core.workers))
    requires TailStopped(s.core, tail, errs == []) && TailCalled(s0, s, tail, calls, errs)
    ensures Effect(s0, s, Names([name] + tail), StoppableReversed([name] + tail, s0.core.workers))
    ensures TailStopped(s.core, [name] + tail, errs == []) && TailCalled(s0, s, [name] + tail, calls, errs)
  {
    hide Effect, TailStopped, StopsMade, NoneCrashed, StoppableReversed;
    StoppableCons(name, tail, s0.core.workers);
    UntouchedWorker(s0, s, Names(tail), StoppableReversed(tail, s0.core.workers), name);
    EffectWidens(s0, s, Names(tail), Names([name] + tail), StoppableReversed([name] + tail, s0.core.workers));
    TailExtends(s.core, name, tail, errs == [], true);
  }

  lemma NothingStoppable(ws: map<Name, Worker>)
    ensures StoppableReversed([], ws) == []
  {
  }

  lemma NothingStopped(c: Core)
    ensures TailStopped(c, [], true)
  {
  }

  // ---------------------------------------------------------------------------
  // StartAll.

  datatype StartAllResult = AllStarted | HaltedAt(position: nat, why: Completion)

  /** Each worker of the list was started anew if it could be, or was running, and is running
      or failed now. */
  ghost predicate HeadStarted(c: Core, c': Core, head: seq<Name>) {
    forall n :: n in head ==>
      && n in c.workers && n in c'.workers
      && (Startable(c.workers[n].lifecycle) || c.workers[n].lifecycle == Running)
      && (c'.workers[n].lifecycle == Running || c'.workers[n].lifecycle == Failed)
      && c'.workers[n].generation == c.workers[n].generation + if Startable(c.workers[n].lifecycle) then 1 else 0
  }

  lemma HeadStays(s0: Core, s: System, t: System, head: seq<Name>, touched: set<Name>, stops: seq<Name>)
    requires HeadStarted(s0, s.core, head) && Effect(s, t, touched, stops)
    requires forall n :: n in head ==> n !in touched
    ensures HeadStarted(s0, t.core, head)
  {
    hide StopsCalled;
    assert forall n :: n in head ==> n in t.core.workers && FreeChange(s.core.workers[n], t.core.workers[n]);
  }

  lemma HeadExtends(c: Core, c': Core, head: seq<Name>, name: Name)
    requires HeadStarted(c, c', head) && HeadStarted(c, c', [name])
    ensures HeadStarted(c, c', head + [name])
  {
    assert forall n :: n in head + [name] <==> n in head || n in [name];
  }

  lemma StartedOne(c: Core, t: System, s: System, name: Name, res: Completion)
    requires name in c.workers && Startable(c.workers[name].lifecycle) && StartEnded(s, t, name, res)
    requires t.core.workers[name].generation == c.workers[name].generation + 1
    ensures HeadStarted(c, t.core, [name])
  {
    hide Count, IsLifecycleFailure, IsReport;
  }

  /** The Start of one worker, as it counts among several. */
  function RunOf(c: Core, name: Name, calls: seq<CallOutcome>): StartRun
    requires name in c.workers
  {
    StartRun(name, c.workers[name].generation, calls, c.workers[name].lifecycle == Running)
  }

  lemma NamesGrow(head: seq<Name>, name: Name)
    ensures Names(head + [name]) == Names(head) + {name}
  {
  }

  /** One startable worker of StartAll. */
  method StartNext(r: Runtime, ctx: Context, ghost s0: System, ghost head: seq<Name>, name: Name,
                   ghost runs: seq<StartRun>)
    returns (res: Completion, ghost runs': seq<StartRun>)
    requires r.Valid() && AtRest(r.CoreView()) && Reachable(s0)
    requires name in s0.core.workers && Startable(s0.core.workers[name].lifecycle) && name !in head
    requires Effect(s0, r.View(), Names(head), []) && HeadStarted(s0.core, r.CoreView(), head)
    requires StartsMade(s0, r.View(), StartableIn(head, s0.core.workers), runs, Finished)
    modifies r, ctx
    ensures r.Valid() && AtRest(r.CoreView())
    ensures Effect(s0, r.View(), Names(head + [name]), []) && HeadStarted(s0.core, r.CoreView(), head + [name])
    ensures StartsMade(s0, r.View(), StartableIn(head + [name], s0.core.workers), runs', res)
    ensures LastStarted(s0, r.View(), name, res, runs', ctx.cancelled)
    ensures old(ctx.cancelled) ==> ctx.cancelled
  {
    hide Reachable, Effect, StartEnded, HeadStarted, Passed, StartDecided, StartCalls, Service, StartsMade, StartableIn;
    UntouchedWorker(s0, r.View(), Names(head), [], name);
    ghost var before := r.View();
    EffectConfigs(s0, before, Names(head), []);
    StartsLog(s0, before, StartableIn(head, s0.core.workers), runs);
    ghost var calls: seq<CallOutcome>;
    res, calls := Start(r, ctx, name);
    EffectTransitive(s0, before, r.View(), Names(head), {name}, [], []);
    ghost var none: seq<Name> := [];
    assert none + none == none;
    NamesGrow(head, name);
    HeadStays(s0.core, before, r.View(), head, {name}, []);
    StartedOne(s0.core, r.View(), before, name, res);
    HeadExtends(s0.core, r.CoreView(), head, name);
    ghost var run := RunOf(r.CoreView(), name, calls);
    RunIsPassed(before, r.View(), name, calls);
    OneMoreStart(s0, before, r.View(), StartableIn(head, s0.core.workers), runs, name, run, res);
    StartableCons(head, name, s0.core.workers);
    runs' := runs + [run];
    EndedLast(s0, before, r.View(), name, res, runs, calls, ctx.cancelled);
  }

  /** How the last of the Starts ended: the failure events of its worker are accounted for, and
      only the context can have ended it otherwise than its last call. */
  ghost predicate LastStarted(s: System, t: System, name: Name, res: Completion, runs: seq<StartRun>, cancelled: bool) {
    && StartEnded(s, t, name, res)
    && runs != [] && runs[|runs| - 1].calls != []
    && (runs[|runs| - 1].served <==> t.core.workers[name].lifecycle == Running)
    && var calls := runs[|runs| - 1].calls;
       (res == Failing(ContextDone) && calls[|calls| - 1] != Returned(Some(ContextDone)) ==> cancelled)
  }

  lemma StartsLog(s: System, t: System, names: seq<Name>, runs: seq<StartRun>)
    requires StartsMade(s, t, names, runs, Finished)
    ensures s.log <= t.log
  {
  }

  lemma RunIsPassed(s: System, t: System, name: Name, calls: seq<CallOutcome>)
    requires name in t.core.workers
    requires Passed(s, t, StartCalls(name, t.core.workers[name].generation, calls) + Service(t.core, name))
    ensures Passed(s, t, RunTrace(RunOf(t.core, name, calls)))
  {
    hide Passed, StartCalls;
  }

  lemma EndedLast(s: System, m: System, t: System, name: Name, res: Completion, runs: seq<StartRun>,
                  calls: seq<CallOutcome>, cancelled: bool)
    requires s.log <= m.log && StartEnded(m, t, name, res)
    requires name in s.core.configs && StartDecided(s.core.configs[name], calls, res)
    requires res == Failing(ContextDone) && calls[|calls| - 1] != Returned(Some(ContextDone)) ==> cancelled
    ensures LastStarted(s, t, name, res, runs + [RunOf(t.core, name, calls)], cancelled)
  {
    hide Count, IsLifecycleFailure, IsReport, AllRetried, AttemptDecides;
  }

  /** StartAll as it leaves things. The log shows one Start of each worker that may be started,
      in registration order, up to the end or to the position where it halts; all but the last
      finished. It halts at a worker that was draining, or whose own Start ended as said. */
  ghost predicate AllStartsMade(s: System, t: System, res: StartAllResult, runs: seq<StartRun>, cancelled: bool) {
    match res
    case AllStarted => StartsMade(s, t, StartableIn(s.core.order, s.core.workers), runs, Finished)
    case HaltedAt(i, why) =>
      && i < |s.core.order| && s.core.order[i] in s.core.workers
      && if why.Rejected? then
           && s.core.workers[s.core.order[i]].lifecycle == Draining && why == Rejected(InvalidState)
           && StartsMade(s, t, StartableIn(s.core.order[..i], s.core.workers), runs, Finished)
         else
           && why != Finished && Startable(s.core.workers[s.core.order[i]].lifecycle)
           && StartsMade(s, t, StartableIn(s.core.order[..i + 1], s.core.workers), runs, why)
           && LastStarted(s, t, s.core.order[i], why, runs, cancelled)
  }

  /** How many workers of the order StartAll was done with. */
  function ReachedBy(res: StartAllResult, all: nat): nat {
    match res
    case AllStarted => all
    case HaltedAt(i, why) => if why.Rejected? then i else i + 1
  }

  /** StartAll has done with the first i workers. */
  ghost predicate HeadDone(s: System, t: System, i: nat, runs: seq<StartRun>)
    requires i <= |s.core.order|
  {
    var head := s.core.order[..i];
    && Effect(s, t, Names(head), []) && HeadStarted(s.core, t.core, head)
    && StartsMade(s, t, StartableIn(head, s.core.workers), runs, Finished)
  }

  /** One worker of StartAll: done with, or the one at which it halts. */
  method StartOne(r: Runtime, ctx: Context, ghost s0: System, i: nat, name: Name, state: LifecycleState,
                  ghost runs: seq<StartRun>)
    returns (halt: Option<Completion>, ghost runs': seq<StartRun>)
    requires r.Valid() && AtRest(r.CoreView()) && Reachable(s0)
    requires i < |s0.core.order| && s0.core.order[i] == name && name !in s0.core.order[..i]
    requires name in s0.core.workers && s0.core.workers[name].lifecycle == state
    requires state != Starting && state != Stopping
    requires HeadDone(s0, r.View(), i, runs)
    modifies r, ctx
    ensures r.Valid() && AtRest(r.CoreView())
    ensures halt.None? ==> HeadDone(s0, r.View(), i + 1, runs')
    ensures halt.Some? ==>
              var res := HaltedAt(i, halt.value);
              && AllStartsMade(s0, r.View(), res, runs', ctx.cancelled)
              && Effect(s0, r.View(), Names(s0.core.order[..ReachedBy(res, 0)]), [])
              && HeadStarted(s0.core, r.CoreView(), s0.core.order[..ReachedBy(res, 0)])
    ensures old(ctx.cancelled) ==> ctx.cancelled
  {
    hide Reachable, Effect, HeadStarted, StartsMade, StartableIn, LastStarted, AllStartsMade;
    ghost var head := s0.core.order[..i];
    assert s0.core.order[..i + 1] == head + [name];
    match state {
      case Registered | Stopped | Failed =>
        var done;
        done, runs' := StartNext(r, ctx, s0, head, name, runs);
        if done == Finished {
          return None, runs';
        }
        HaltedInStart(s0, r.View(), i, done, runs', ctx.cancelled);
        return Some(done), runs';
      case Running =>
        SkipHead(s0, r.View(), head, name);
        return None, runs;
      case Draining =>
        HaltedAtDraining(s0, r.View(), i, runs, ctx.cancelled);
        return Some(Rejected(InvalidState)), runs;
    }
  }

  /** StartAll: in registration order, stopping at the first worker that cannot be or fails to
      be started. Workers behind that position are left to the free steps, nothing is rolled
      back, and no Stop is called. */
  method StartAll(r: Runtime, ctx: Context)
    returns (res: StartAllResult, ghost reached: nat, ghost runs: seq<StartRun>)
    requires r.Valid() && AtRest(r.CoreView())
    modifies r, ctx
    ensures r.Valid() && AtRest(r.CoreView())
    ensures AllStartsMade(old(r.View()), r.View(), res, runs, ctx.cancelled)
    ensures reached <= |old(r.workerOrder)| && reached == ReachedBy(res, |old(r.workerOrder)|)
    ensures Effect(old(r.View()), r.View(), Names(old(r.workerOrder)[..reached]), [])
    ensures HeadStarted(old(r.CoreView()), r.CoreView(), old(r.workerOrder)[..reached])
    ensures old(ctx.cancelled) ==> ctx.cancelled
  {
    hide Reachable, HeadDone, AllStartsMade, Effect, HeadStarted;
    ghost var s0 := r.View();
    AtRestWorkers(s0);
    var order, states := r.workerOrder, r.workerStates;
    var i := 0;
    runs := [];
    NothingDone(s0);
    while i < |order|
      invariant 0 <= i <= |order|
      invariant r.Valid() && AtRest(r.CoreView())
      invariant HeadDone(s0, r.View(), i, runs)
      invariant old(ctx.cancelled) ==> ctx.cancelled
    {
      var halt;
      halt, runs := StartOne(r, ctx, s0, i, order[i], states[order[i]].lifecycle, runs);
      if halt.Some? {
        return HaltedAt(i, halt.value), ReachedBy(HaltedAt(i, halt.value), 0), runs;
      }
      i := i + 1;
    }
    AllOfThemStarted(s0, r.View(), runs, ctx.cancelled);
    return AllStarted, |order|, runs;
  }

  lemma NothingDone(s: System)
    requires s.core.gate.Held?
    ensures HeadDone(s, s, 0, [])
  {
    hide Effect, StartsMade, StartableIn;
    assert s.core.order[..0] == [] && Names([]) == {};
    EffectItself(s);
    NobodyStarted(s.core, s.core);
    NoStartsMade(s);
    NothingStartable(s.core.workers);
  }

  lemma HaltedInStart(s: System, t: System, i: nat, why: Completion, runs: seq<StartRun>, cancelled: bool)
    requires i < |s.core.order| && s.core.order[i] in s.core.workers
    requires Startable(s.core.workers[s.core.order[i]].lifecycle) && why != Finished
    requires StartsMade(s, t, StartableIn(s.core.order[..i + 1], s.core.workers), runs, why)
    requires LastStarted(s, t, s.core.order[i], why, runs, cancelled)
    ensures AllStartsMade(s, t, HaltedAt(i, why), runs, cancelled) && !why.Rejected?
  {
    hide StartsMade, StartableIn;
  }

  lemma HaltedAtDraining(s: System, t: System, i: nat, runs: seq<StartRun>, cancelled: bool)
    requires i < |s.core.order| && s.core.order[i] in s.core.workers
    requires s.core.workers[s.core.order[i]].lifecycle == Draining
    requires StartsMade(s, t, StartableIn(s.core.order[..i], s.core.workers), runs, Finished)
    ensures AllStartsMade(s, t, HaltedAt(i, Rejected(InvalidState)), runs, cancelled)
  {
    hide StartsMade, StartableIn, LastStarted;
  }

  lemma AllOfThemStarted(s: System, t: System, runs: seq<StartRun>, cancelled: bool)
    requires HeadDone(s, t, |s.core.order|, runs)
    ensures AllStartsMade(s, t, AllStarted, runs, cancelled)
    ensures var head := s.core.order[..|s.core.order|];
            Effect(s, t, Names(head), []) && HeadStarted(s.core, t.core, head)
  {
    hide Effect, HeadStarted, StartsMade, StartableIn;
    assert s.core.order[..|s.core.order|] == s.core.order;
  }

  lemma NothingStartable(ws: map<Name, Worker>)
    ensures StartableIn([], ws) == []
  {
  }

  /** A worker of StartAll that is running already. */
  lemma SkipHead(s0: System, s: System, head: seq<Name>, name: Name)
    requires name in s0.core.workers && s0.core.workers[name].lifecycle == Running && name !in head
    requires Effect(s0, s, Names(head), []) && HeadStarted(s0.core, s.core, head)
    ensures Effect(s0, s, Names(head + [name]), []) && HeadStarted(s0.core, s.core, head + [name])
    ensures StartableIn(head + [name], s0.core.workers) == StartableIn(head, s0.core.workers)
  {
    hide Effect, HeadStarted, StartableIn;
    UntouchedWorker(s0, s, Names(head), [], name);
    NamesGrow(head, name);
    EffectWidens(s0, s, Names(head), Names(head + [name]), []);
    RunningCounts(s0.core, s.core, name);
    HeadExtends(s0.core, s.core, head, name);
    StartableCons(head, name, s0.core.workers);
  }

  lemma NobodyStarted(c: Core, c': Core)
    ensures HeadStarted(c, c', [])
  {
  }

  lemma RunningCounts(c: Core, c': Core, name: Name)
    requires name in c.workers && c.workers[name].lifecycle == Running
    requires name in c'.workers && FreeChange(c.workers[name], c'.workers[name])
    ensures HeadStarted(c, c', [name])
  {
  }

  // ---------------------------------------------------------------------------
  // Draining and waiting.

  /** The running workers of the list. */
  function RunningIn(order: seq<Name>, ws: map<Name, Worker>): set<Name> {
    set n | n in order && n in ws && ws[n].lifecycle == Running
  }

  /** Every worker of the list that was running is draining now, or failed; none is running. */
  ghost predicate HeadDrained(c: Core, c': Core, head: seq<Name>) {
    forall n :: n in head ==>
      && n in c.workers && n in c'.workers
      && c'.workers[n].lifecycle != Running
      && (c.workers[n].lifecycle == Running
          ==> c'.workers[n].lifecycle == Draining || c'.workers[n].lifecycle == Failed)
  }

  lemma DrainedStays(s0: Core, s: System, t: System, head: seq<Name>, touched: set<Name>)
    requires HeadDrained(s0, s.core, head) && Effect(s, t, touched, [])
    requires forall n :: n in head ==> n !in touched
    ensures HeadDrained(s0, t.core, head)
  {
    hide StopsCalled;
    assert forall n :: n in head ==> n in t.core.workers && FreeChange(s.core.workers[n], t.core.workers[n]);
  }

  lemma DrainedExtends(c: Core, c': Core, head: seq<Name>, name: Name)
    requires HeadDrained(c, c', head) && name in c.workers && name in c'.workers
    requires c'.workers[name].lifecycle != Running
    requires c.workers[name].lifecycle == Running ==> c'.workers[name].lifecycle in {Draining, Failed}
    ensures HeadDrained(c, c', head + [name])
  {
    assert forall n :: n in head + [name] <==> n in head || n == name;
  }

  lemma RunningGrow(head: seq<Name>, name: Name, ws: map<Name, Worker>)
    requires name in ws
    ensures RunningIn(head + [name], ws)
         == if ws[name].lifecycle == Running then RunningIn(head, ws) + {name} else RunningIn(head, ws)
  {
  }

  /** These workers of the list were running, and others had failed them when it was their
      turn: one error for each. The other running workers of the list were drained. */
  ghost predicate FailedFirst(s: System, t: System, head: seq<Name>, missed: set<Name>, errs: seq<Error>) {
    && |errs| == |missed| && (forall e :: e in errs ==> e == WrongState)
    && (forall n :: n in missed ==>
          && n in head && n in s.core.workers && n in t.core.workers
          && s.core.workers[n].lifecycle == Running && t.core.workers[n].lifecycle == Failed)
    && forall n :: n in head && n !in missed && n in s.core.workers && s.core.workers[n].lifecycle == Running ==>
         DrainLogged(s, t, n)
  }

  lemma FailedFirstStays(s0: System, s: System, t: System, head: seq<Name>, touched: set<Name>, missed: set<Name>,
                         errs: seq<Error>)
    requires FailedFirst(s0, s, head, missed, errs) && Effect(s, t, touched, []) && s.log <= t.log
    requires forall n :: n in head ==> n !in touched
    ensures FailedFirst(s0, t, head, missed, errs)
  {
    hide StopsCalled, DrainLogged;
    assert forall n :: n in missed ==> n in t.core.workers && FreeChange(s.core.workers[n], t.core.workers[n]);
    forall n | n in head && n !in missed && n in s0.core.workers && s0.core.workers[n].lifecycle == Running
      ensures DrainLogged(s0, t, n)
    {
      DrainStaysLogged(s0, s, t, n);
    }
  }

  lemma FailedFirstExtends(s: System, t: System, head: seq<Name>, missed: set<Name>, errs: seq<Error>, name: Name,
                           miss: bool)
    requires FailedFirst(s, t, head, missed, errs) && name !in head
    requires if miss then
               && name in s.core.workers && name in t.core.workers && s.core.workers[name].lifecycle == Running
               && t.core.workers[name].lifecycle == Failed
             else name in s.core.workers && s.core.workers[name].lifecycle == Running ==> DrainLogged(s, t, name)
    ensures FailedFirst(s, t, head + [name], if miss then missed + {name} else missed,
                        if miss then errs + [WrongState] else errs)
  {
    hide DrainLogged;
    assert name !in missed;
  }

  /** One running worker of DrainAllBestEffort; others may have failed it by now. */
  method DrainNext(r: Runtime, ctx: Context, ghost s0: System, ghost head: seq<Name>, name: Name, errs: seq<Error>,
                   ghost missed: set<Name>)
    returns (errs': seq<Error>, ghost missed': set<Name>)
    requires r.Valid() && AtRest(r.CoreView()) && Reachable(s0)
    requires name in s0.core.workers && s0.core.workers[name].lifecycle == Running && name !in head
    requires Effect(s0, r.View(), RunningIn(head, s0.core.workers), []) && HeadDrained(s0.core, r.CoreView(), head)
    requires Passed(s0, r.View(), []) && FailedFirst(s0, r.View(), head, missed, errs)
    modifies r, ctx
    ensures r.Valid() && AtRest(r.CoreView())
    ensures Effect(s0, r.View(), RunningIn(head + [name], s0.core.workers), [])
    ensures HeadDrained(s0.core, r.CoreView(), head + [name])
    ensures Passed(s0, r.View(), []) && FailedFirst(s0, r.View(), head + [name], missed', errs')
    ensures old(ctx.cancelled) ==> ctx.cancelled
  {
    hide Reachable, Effect, HeadDrained, RunningIn, Passed, FailedFirst;
    UntouchedRunning(s0, r.View(), head, name);
    ghost var before := r.View();
    var res := Drain(r, ctx, name);
    ghost var none: seq<Name> := [];
    assert none + none == none;
    NothingMore(s0, before, r.View());
    RunningGrow(head, name, s0.core.workers);
    if res.Rejected? {
      UntouchedWorker(before, r.View(), {}, [], name);
      EffectWidens(before, r.View(), {}, {name}, []);
    }
    EffectTransitive(s0, before, r.View(), RunningIn(head, s0.core.workers), {name}, [], []);
    DrainedStays(s0.core, before, r.View(), head, {name});
    DrainedExtends(s0.core, r.CoreView(), head, name);
    FailedFirstStays(s0, before, r.View(), head, {name}, missed, errs);
    if !res.Rejected? {
      DrainLoggedEarlier(s0, before, r.View(), name);
    }
    FailedFirstExtends(s0, r.View(), head, missed, errs, name, res.Rejected?);
    missed' := if res.Rejected? then missed + {name} else missed;
    errs' := if res.Rejected? then errs + [WrongState] else errs;
  }

  lemma DrainLoggedEarlier(s: System, m: System, t: System, name: Name)
    requires Passed(s, m, [])
    requires name in m.core.workers && (m.core.workers[name].lifecycle == Running ==> DrainLogged(m, t, name))
    ensures m.core.workers[name].lifecycle == Running ==> DrainLogged(s, t, name)
  {
    if DrainLogged(m, t, name) {
      assert t.log[|s.log|..] == m.log[|s.log|..] + t.log[|m.log|..];
    }
  }

  lemma NothingMore(s: System, m: System, t: System)
    requires Passed(s, m, []) && Passed(m, t, [])
    ensures Passed(s, t, []) && s.log <= m.log <= t.log
  {
    ghost var none: seq<Event> := [];
    assert none + none == none;
    PassedOn(s, m, t, [], []);
  }

  lemma UntouchedRunning(s: System, t: System, head: seq<Name>, name: Name)
    requires Effect(s, t, RunningIn(head, s.core.workers), [])
    requires name in s.core.workers && s.core.workers[name].lifecycle == Running && name !in head
    ensures name in t.core.workers && t.core.workers[name].lifecycle in {Running, Failed}
  {
    UntouchedWorker(s, t, RunningIn(head, s.core.workers), [], name);
  }

  lemma UntouchedIdle(s: System, t: System, touched: set<Name>, name: Name)
    requires Effect(s, t, touched, []) && name in s.core.workers && name !in touched
    requires s.core.workers[name].lifecycle != Running
    ensures name in t.core.workers && t.core.workers[name].lifecycle != Running
  {
    UntouchedWorker(s, t, touched, [], name);
  }

  lemma NobodyDrained(s: System)
    ensures HeadDrained(s.core, s.core, []) && RunningIn([], s.core.workers) == {} && FailedFirst(s, s, [], {}, [])
  {
  }

  /** DrainAllBestEffort: afterwards no worker is running; exactly the running ones were
      drained, unless a failure reported meanwhile was faster, which makes one error each; no
      worker code is called. */
  method DrainAllBestEffort(r: Runtime, ctx: Context) returns (errs: seq<Error>, ghost missed: set<Name>)
    requires r.Valid() && AtRest(r.CoreView())
    modifies r, ctx
    ensures r.Valid() && AtRest(r.CoreView())
    ensures Effect(old(r.View()), r.View(), RunningIn(old(r.workerOrder), old(r.workerStates)), [])
    ensures HeadDrained(old(r.CoreView()), r.CoreView(), old(r.workerOrder))
    ensures Passed(old(r.View()), r.View(), [])
    ensures FailedFirst(old(r.View()), r.View(), old(r.workerOrder), missed, errs)
    ensures old(ctx.cancelled) ==> ctx.cancelled
  {
    hide Reachable, Effect, HeadDrained, RunningIn, Passed, FailedFirst;
    ghost var s0 := r.View();
    AtRestWorkers(s0);
    EffectItself(s0);
    var order, states := r.workerOrder, r.workerStates;
    errs, missed := [], {};
    var i := 0;
    assert order[..0] == [];
    NobodyDrained(s0);
    PassedNothing(s0);
    while i < |order|
      invariant 0 <= i <= |order|
      invariant r.Valid() && AtRest(r.CoreView())
      invariant Effect(s0, r.View(), RunningIn(order[..i], s0.core.workers), [])
      invariant HeadDrained(s0.core, r.CoreView(), order[..i])
      invariant Passed(s0, r.View(), []) && FailedFirst(s0, r.View(), order[..i], missed, errs)
      invariant old(ctx.cancelled) ==> ctx.cancelled
    {
      var name := order[i];
      assert order[..i + 1] == order[..i] + [name] && name !in order[..i];
      match states[name].lifecycle {
        case Running =>
          errs, missed := DrainNext(r, ctx, s0, order[..i], name, errs, missed);
        case Draining | Registered | Stopped | Failed =>
          SkipIdle(s0, r.View(), order[..i], name, missed, errs);
      }
      i := i + 1;
    }
    assert order[..|order|] == order;
  }

  /** A worker of DrainAllBestEffort that is not running. */
  lemma SkipIdle(s0: System, s: System, head: seq<Name>, name: Name, missed: set<Name>, errs: seq<Error>)
    requires name in s0.core.workers && s0.core.workers[name].lifecycle != Running && name !in head
    requires Effect(s0, s, RunningIn(head, s0.core.workers), []) && HeadDrained(s0.core, s.core, head)
    requires FailedFirst(s0, s, head, missed, errs)
    ensures Effect(s0, s, RunningIn(head + [name], s0.core.workers), [])
    ensures HeadDrained(s0.core, s.core, head + [name])
    ensures FailedFirst(s0, s, head + [name], missed, errs)
  {
    hide Effect, HeadDrained, RunningIn, FailedFirst;
    RunningNot(head, name, s0.core.workers);
    UntouchedIdle(s0, s, RunningIn(head, s0.core.workers), name);
    RunningGrow(head, name, s0.core.workers);
    DrainedExtends(s0.core, s.core, head, name);
    FailedFirstExtends(s0, s, head, missed, errs, name, false);
  }

  lemma RunningNot(head: seq<Name>, name: Name, ws: map<Name, Worker>)
    requires name !in head
    ensures name !in RunningIn(head, ws)
  {
  }

  /** A dispatch releases its slot, once its handler has come back. */
  method OneReleases(r: Runtime, ghost s0: System)
    requires r.Valid() && Rely(s0, r.View()) && r.status.inFlight > 0
    modifies r
    ensures r.Valid() && Rely(s0, r.View())
    ensures r.status.inFlight == old(r.status.inFlight) - 1
  {
    hide Reachable, Rely, SumInFlight;
    SlotsAreConserved(r.View());
    var id :| id in r.dispatches;
    if HandlerCall(r.CoreView(), id).InProgress? {
      var outcome: CallOutcome := *;
      ghost var running := r.View();
      FreeStepRelies(running, HandlerReturns(id, outcome));
      RelyTransitive(s0, running, Next(running, HandlerReturns(id, outcome)));
      var _ := r.Step(HandlerReturns(id, outcome));
    }
    ghost var s := r.View();
    ReleaseTakesOneSlot(s, id);
    FreeStepRelies(s, Release(id));
    RelyTransitive(s0, s, Next(s, Release(id)));
    var _ := r.Step(Release(id));
  }

  /** The polls up to the first one that sees fewer commands in flight than were seen before,
      unless the context is done earlier. Polls in between only go on waiting; if slots are
      never released and the context is never done, so does this one. */
  method WaitForIdlePoll(r: Runtime, ctx: Context, ghost s0: System, seen: int) returns (expired: bool)
    requires r.Valid() && Rely(s0, r.View()) && seen > 0
    modifies r, ctx
    ensures r.Valid() && Rely(s0, r.View())
    ensures old(ctx.cancelled) ==> ctx.cancelled
    ensures if expired then ctx.cancelled else r.status.inFlight < seen
  {
    hide Reachable, Rely;
    ghost var before := r.View();
    Interfere(r, ctx);
    RelyTransitive(s0, before, r.View());
    var contextFirst: bool := *;
    if ctx.cancelled && contextFirst {
      return true;
    }
    while r.status.inFlight >= seen
      invariant r.Valid() && Rely(s0, r.View())
      invariant old(ctx.cancelled) ==> ctx.cancelled
      decreases r.status.inFlight
    {
      OneReleases(r, s0);
    }
    return false;
  }

  /** WaitAllIdle: returns without error only having seen no command in flight, and with an
      error only once the context is done. The variant is the lowest count seen so far; while
      admission is closed that is the count itself, and exactly the outstanding releases are
      still to come (RuntimeResults.ReleasesDrainTheRuntime). */
  method WaitAllIdle(r: Runtime, ctx: Context) returns (idle: bool)
    requires r.Valid()
    modifies r, ctx
    ensures r.Valid() && Rely(old(r.View()), r.View())
    ensures if idle then r.status.inFlight == 0 else ctx.cancelled
    ensures old(ctx.cancelled) ==> ctx.cancelled
  {
    hide Reachable, Rely, SumInFlight;
    ghost var s0 := r.View();
    RelyItself(s0);
    SlotsAreConserved(s0);
    while r.status.inFlight != 0
      invariant r.Valid() && Rely(s0, r.View())
      invariant r.status.inFlight >= 0
      invariant old(ctx.cancelled) ==> ctx.cancelled
      decreases r.status.inFlight
    {
      var expired := WaitForIdlePoll(r, ctx, s0, r.status.inFlight);
      if expired {
        return false;
      }
      SlotsAreConserved(r.View());
    }
    return true;
  }
}
