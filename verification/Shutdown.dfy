/** StopAll and Shutdown as callers see them: under the lifecycle gate and with command
    admission closed. */
module Shutdown {
  import opened Basics
  import opened Lifecycle
  import opened EventLog
  import opened RuntimeSteps
  import opened Interference
  import opened RuntimeTheorems
  import opened RuntimeResults
  import opened OperationEffects
  import opened Milestones
  import opened WorkerkitRuntime
  import opened LifecycleOperations
  import opened CallSequences
  import opened BulkOperations

  /** How a sequence of stopping steps ended: never begun because the context was done before
      the gate was taken, run to its end, given up because the context was done, or left by a
      re-raised panic. */
  datatype Ending = NotRun | Completed(errs: seq<Error>) | Expired(errs: seq<Error>) | Panicking

  /** No worker is in service or in transition. */
  ghost predicate AllInactive(c: Core) {
    forall n :: n in c.workers ==> Inactive(c.workers[n].lifecycle)
  }

  ghost predicate SomeFailed(c: Core) {
    exists n :: n in c.workers && c.workers[n].lifecycle == Failed
  }

  /** Every Stop called since s found its runtime and worker idle. */
  ghost predicate IdleStops(s: System, t: System) {
    s.log <= t.log && forall e :: e in t.log[|s.log|..] ==> CallIsIdle(e)
  }

  lemma {:induction false} NoCallsNoEvents(events: seq<Event>)
    requires StopCalls(events) == []
    ensures forall e :: e in events ==> !e.StopCalled?
  {
    if events != [] {
      NoCallsNoEvents(events[..|events| - 1]);
    }
  }

  lemma NoStopsAreIdle(s: System, t: System, touched: set<Name>)
    requires Effect(s, t, touched, [])
    ensures IdleStops(s, t) && StopCalls(t.log) == StopCalls(s.log)
  {
    hide HeldFrame, WorkersKept;
    var events := t.log[|s.log|..];
    assert t.log == s.log + events;
    StopCallsConcat(s.log, events);
    NoCallsNoEvents(events);
  }

  lemma IdleStopsTransitive(a: System, b: System, c: System)
    requires IdleStops(a, b) && IdleStops(b, c)
    ensures IdleStops(a, c)
  {
    assert c.log[|a.log|..] == b.log[|a.log|..] + c.log[|b.log|..];
  }

  lemma IdleRuntimeStops(s: System, t: System, touched: set<Name>, stops: seq<Name>)
    requires Effect(s, t, touched, stops) && s.core.admissionClosed && s.core.status.inFlight == 0
    ensures IdleStops(s, t)
  {
    hide HeldFrame, WorkersKept;
  }

  // ---------------------------------------------------------------------------
  // No worker runs when one is stopped.

  /** Replaying the log, no worker is running at its end. */
  ghost predicate NobodyRuns(log: seq<Event>) {
    forall n :: NotRunning(Play(OfWorker(n), Origin, log))
  }

  predicate NotRunning(at: Option<Point>) {
    at.Some? ==> at.value.lifecycle != Running
  }

  /** Whenever Stop was called since s, no worker was running. */
  ghost predicate DrainedStops(s: System, t: System) {
    s.log <= t.log && forall i :: |s.log| <= i < |t.log| && t.log[i].StopCalled? ==> NobodyRuns(t.log[..i])
  }

  lemma NobodyRunsNow(s: System)
    requires Reachable(s) && forall n :: n in s.core.workers ==> s.core.workers[n].lifecycle != Running
    ensures NobodyRuns(s.log)
  {
    hide Reachable;
    forall n
      ensures NotRunning(Play(OfWorker(n), Origin, s.log))
    {
      EventsReplay(s, OfWorker(n));
    }
  }

  lemma PlayStaysOut(n: Name, log: seq<Event>, e: Event)
    requires NotRunning(Play(OfWorker(n), Origin, log)) && !BeginsToRun(e)
    ensures NotRunning(Play(OfWorker(n), Origin, log + [e]))
  {
    assert (log + [e])[..|log + [e]| - 1] == log;
  }

  lemma {:induction false} NobodyRunsLater(s: System, t: System, i: nat)
    requires NobodyRuns(s.log) && NoneRevived(s, t) && |s.log| <= i <= |t.log|
    ensures NobodyRuns(t.log[..i])
    decreases i
  {
    if i == |s.log| {
      assert t.log[..i] == s.log;
    } else {
      NobodyRunsLater(s, t, i - 1);
      assert t.log[..i] == t.log[..i - 1] + [t.log[i - 1]];
      assert t.log[|s.log|..][i - 1 - |s.log|] == t.log[i - 1];
      forall n
        ensures NotRunning(Play(OfWorker(n), Origin, t.log[..i]))
      {
        PlayStaysOut(n, t.log[..i - 1], t.log[i - 1]);
      }
    }
  }

  /** From a state where nobody runs, while nobody enters service. */
  lemma StopsAreDrained(s: System, m: System, t: System)
    requires Reachable(m) && forall n :: n in m.core.workers ==> m.core.workers[n].lifecycle != Running
    requires s.log <= m.log && StopCalls(m.log) == StopCalls(s.log) && NoneRevived(m, t)
    ensures DrainedStops(s, t)
  {
    hide Reachable;
    NobodyRunsNow(m);
    NoStopBetween(s, m);
    forall i | |m.log| <= i < |t.log|
      ensures NobodyRuns(t.log[..i])
    {
      NobodyRunsLater(m, t, i);
    }
    assert forall i :: |s.log| <= i < |m.log| ==> t.log[i] == m.log[i] && !m.log[i].StopCalled?;
  }

  lemma NoStopBetween(s: System, t: System)
    requires s.log <= t.log && StopCalls(t.log) == StopCalls(s.log)
    ensures forall i :: |s.log| <= i < |t.log| ==> !t.log[i].StopCalled?
  {
    var events := t.log[|s.log|..];
    assert t.log == s.log + events;
    StopCallsConcat(s.log, events);
    NoCallsNoEvents(events);
    forall i | |s.log| <= i < |t.log|
      ensures !t.log[i].StopCalled?
    {
      assert t.log[i] == events[i - |s.log|];
    }
  }

  lemma NoStopsAreDrained(s: System, t: System)
    requires s.log <= t.log && StopCalls(t.log) == StopCalls(s.log)
    ensures DrainedStops(s, t)
  {
    NoStopBetween(s, t);
  }

  // ---------------------------------------------------------------------------
  // Which workers may be stopped does not depend on free steps, nor on draining.

  lemma {:induction false} StoppableSame(order: seq<Name>, ws: map<Name, Worker>, ws': map<Name, Worker>)
    requires forall n :: n in order ==>
               n in ws && n in ws' && (Stoppable(ws[n].lifecycle) <==> Stoppable(ws'[n].lifecycle))
    ensures StoppableReversed(order, ws) == StoppableReversed(order, ws')
  {
    if order != [] {
      StoppableSame(order[1..], ws, ws');
    }
  }

  lemma UntouchedStoppable(s: System, t: System, order: seq<Name>)
    requires Effect(s, t, {}, []) && forall n :: n in order ==> n in s.core.workers
    ensures StoppableReversed(order, t.core.workers) == StoppableReversed(order, s.core.workers)
  {
    forall n | n in order
      ensures n in t.core.workers
              && (Stoppable(s.core.workers[n].lifecycle) <==> Stoppable(t.core.workers[n].lifecycle))
    {
      UntouchedWorker(s, t, {}, [], n);
    }
    StoppableSame(order, s.core.workers, t.core.workers);
  }

  lemma DrainedStoppable(s: System, t: System, order: seq<Name>)
    requires Effect(s, t, RunningIn(order, s.core.workers), []) && HeadDrained(s.core, t.core, order)
    ensures StoppableReversed(order, t.core.workers) == StoppableReversed(order, s.core.workers)
  {
    hide Effect;
    forall n | n in order
      ensures n in s.core.workers && n in t.core.workers
      ensures Stoppable(s.core.workers[n].lifecycle) <==> Stoppable(t.core.workers[n].lifecycle)
    {
      if n !in RunningIn(order, s.core.workers) {
        UntouchedWorker(s, t, RunningIn(order, s.core.workers), [], n);
      }
    }
    StoppableSame(order, s.core.workers, t.core.workers);
  }

  lemma StoppedInactive(c: Core, clean: bool)
    requires TailStopped(c, c.order, clean) && forall n :: n in c.workers ==> n in c.order
    ensures AllInactive(c) && (clean <==> !SomeFailed(c))
  {
    if clean {
      forall n | n in c.workers
        ensures c.workers[n].lifecycle != Failed
      {
        assert n in c.order;
      }
    }
  }

  lemma EffectStops(s: System, t: System, touched: set<Name>, stops: seq<Name>)
    requires Effect(s, t, touched, stops)
    ensures HeldFrame(s.core, t.core) && StopCalls(t.log) == StopCalls(s.log) + stops && s.log <= t.log
  {
    hide WorkersKept;
  }

  // ---------------------------------------------------------------------------
  // The shutdown sequence.

  ghost predicate NobodyRunning(c: Core) {
    forall n :: n in c.workers ==> c.workers[n].lifecycle != Running
  }

  /** The errors of a completed sequence: those of the workers that could not be drained, then
      those of the Stop calls, in order. */
  ghost predicate ErrorsFit(errs: seq<Error>, calls: seq<CallOutcome>) {
    exists k :: 0 <= k <= |errs| && errs[k..] == StopErrors(calls) && forall e :: e in errs[..k] ==> e == WrongState
  }

  /** The Stop calls of a sequence: on the first workers of the list, one on each, in order. */
  ghost predicate CallsInOrder(s: System, t: System, calls: seq<CallOutcome>) {
    var list := StoppableReversed(s.core.order, s.core.workers);
    && s.log <= t.log && |calls| <= |list|
    && StopCalls(t.log) == StopCalls(s.log) + list[..|calls|]
    && StopsMade(s, t, list[..|calls|], calls)
  }

  /** What a stopping sequence promises. It calls Stop in reverse registration order on workers
      that were running, draining or failed, once on each. A completed one has called Stop on
      all of them, no panic was re-raised, it has left none in service, and has no error only if
      none is failed. One that expired, or never began, has called no Stop, but an expired one
      has drained the workers. One left by a panic was left by that of its last call, and of a
      worker under the crash policy. */
  ghost predicate SequenceEnded(s: System, t: System, end: Ending, calls: seq<CallOutcome>) {
    var list := StoppableReversed(s.core.order, s.core.workers);
    && t.core.order == s.core.order && t.core.configs == s.core.configs
    && CallsInOrder(s, t, calls)
    && match end
       case Completed(errs) =>
         && |calls| == |list| && NoneCrashed(s.core.configs, list, calls)
         && AllInactive(t.core) && ErrorsFit(errs, calls)
         && (errs == [] ==> !SomeFailed(t.core))
       case Expired(errs) => calls == [] && NobodyRunning(t.core) && errs != [] && errs[|errs| - 1] == ContextDone
       case NotRun => calls == []
       case Panicking => LastCrashed(s.core.configs, list[..|calls|], calls)
  }

  /** A caller can tell beforehand: if no worker that may be stopped has the crash policy, no
      stopping sequence is left by a panic. */
  lemma NobodyCrashesNoPanic(s: System, t: System, end: Ending, calls: seq<CallOutcome>)
    requires SequenceEnded(s, t, end, calls) && NobodyCrashes(s.core)
    ensures !end.Panicking?
  {
    hide StopsMade, StoppableReversed, AllInactive, SomeFailed, NobodyRunning, ErrorsFit;
    if end.Panicking? {
      var list := StoppableReversed(s.core.order, s.core.workers);
      var name := list[|calls| - 1];
      assert name == list[..|calls|][|calls| - 1] && name in list;
      StoppableMembers(s.core.order, s.core.workers, name);
    }
  }

  /** A re-raised panic is in the log. */
  lemma PanickingIsLogged(s: System, t: System, end: Ending, calls: seq<CallOutcome>)
    requires SequenceEnded(s, t, end, calls) && end.Panicking?
    ensures PanicLogged(s, t)
  {
    hide StopsMade, StoppableReversed, LastCrashed;
    CrashIsLogged(s, t, StoppableReversed(s.core.order, s.core.workers)[..|calls|], calls);
  }

  /** From s to m nothing was called, and the same workers may be stopped. */
  ghost predicate Prepared(s: System, m: System) {
    && s.log <= m.log && StopCalls(m.log) == StopCalls(s.log) && Passed(s, m, [])
    && m.core.order == s.core.order && m.core.configs == s.core.configs
    && StoppableReversed(m.core.order, m.core.workers) == StoppableReversed(s.core.order, s.core.workers)
  }

  lemma TailInOrder(s: System, m: System, t: System, reached: nat, calls: seq<CallOutcome>)
    requires Prepared(s, m) && reached <= |m.core.order|
    requires Effect(m, t, Names(m.core.order[reached..]), StoppableReversed(m.core.order[reached..], m.core.workers))
    requires StopsMade(m, t, StoppableReversed(m.core.order[reached..], m.core.workers), calls)
    requires |calls| == |StoppableReversed(m.core.order[reached..], m.core.workers)|
    ensures CallsInOrder(s, t, calls)
    ensures t.core.order == s.core.order && t.core.configs == s.core.configs
    ensures var list := StoppableReversed(s.core.order, s.core.workers);
            |calls| <= |list| && StoppableReversed(m.core.order[reached..], m.core.workers) == list[..|calls|]
  {
    hide Effect, StopsMade, Passed;
    var names := StoppableReversed(m.core.order[reached..], m.core.workers);
    StoppableOfTail(m.core.order, m.core.workers, reached);
    EffectStops(m, t, Names(m.core.order[reached..]), names);
    StopsMadeBefore(s, m, t, names, calls);
    assert names == StoppableReversed(s.core.order, s.core.workers)[..|calls|];
  }

  lemma SequenceCompletes(s: System, m: System, t: System, drainErrs: seq<Error>, stopErrs: seq<Error>,
                          calls: seq<CallOutcome>)
    requires Prepared(s, m)
    requires Effect(m, t, Names(m.core.order), StoppableReversed(m.core.order, m.core.workers))
    requires TailCalled(m, t, m.core.order, calls, stopErrs)
    requires TailStopped(t.core, t.core.order, stopErrs == [])
    requires forall n :: n in t.core.workers ==> n in t.core.order
    requires forall e :: e in drainErrs ==> e == WrongState
    ensures SequenceEnded(s, t, Completed(drainErrs + stopErrs), calls)
  {
    hide Effect, TailStopped, AllInactive, SomeFailed, StopsMade, NoneCrashed, CallsInOrder, Prepared;
    StoppedInactive(t.core, stopErrs == []);
    assert m.core.order[0..] == m.core.order;
    NoneCrashedLength(m.core.configs, StoppableReversed(m.core.order, m.core.workers), calls);
    TailInOrder(s, m, t, 0, calls);
    PreparedSame(s, m);
    var list := StoppableReversed(s.core.order, s.core.workers);
    assert list[..|calls|] == list;
    var errs := drainErrs + stopErrs;
    assert errs[|drainErrs|..] == stopErrs && errs[..|drainErrs|] == drainErrs;
  }

  lemma NoneCrashedLength(configs: map<Name, WorkerConfig>, names: seq<Name>, calls: seq<CallOutcome>)
    requires NoneCrashed(configs, names, calls)
    ensures |calls| == |names|
  {
  }

  lemma PreparedSame(s: System, m: System)
    requires Prepared(s, m)
    ensures m.core.order == s.core.order && m.core.configs == s.core.configs && s.log <= m.log
    ensures StoppableReversed(m.core.order, m.core.workers) == StoppableReversed(s.core.order, s.core.workers)
  {
  }

  lemma SequenceCrashes(s: System, m: System, t: System, reached: nat, calls: seq<CallOutcome>)
    requires Prepared(s, m) && reached <= |m.core.order|
    requires Effect(m, t, Names(m.core.order[reached..]), StoppableReversed(m.core.order[reached..], m.core.workers))
    requires TailCrashed(m, t, m.core.order[reached..], calls)
    ensures SequenceEnded(s, t, Panicking, calls)
  {
    hide Effect, StopsMade, CallsInOrder, Prepared, NoneCrashed, StoppableReversed;
    TailInOrder(s, m, t, reached, calls);
    PreparedSame(s, m);
  }

  /** The stopping phase of Shutdown, from a state that was seen idle. */
  method StopIdle(r: Runtime, ctx: Context, ghost s0: System, errs: seq<Error>)
    returns (end: Ending, ghost calls: seq<CallOutcome>)
    requires r.Valid() && AtRest(r.CoreView()) && r.commandAdmissionClosed && r.status.inFlight == 0
    requires Prepared(s0, r.View()) && HeldFrame(s0.core, r.CoreView())
    requires IdleStops(s0, r.View())
    requires NobodyRunning(r.CoreView()) && forall e :: e in errs ==> e == WrongState
    modifies r, ctx
    ensures r.Valid() && AtRest(r.CoreView()) && HeldFrame(s0.core, r.CoreView())
    ensures IdleStops(s0, r.View()) && DrainedStops(s0, r.View())
    ensures SequenceEnded(s0, r.View(), end, calls) && (end.Completed? || end.Panicking?)
    ensures old(r.log) <= r.log && (end.Completed? ==> end.errs == errs + StopErrors(calls))
    ensures old(ctx.cancelled) ==> ctx.cancelled
  {
    hide Reachable, Effect, TailStopped, IdleStops, SequenceEnded, StoppableReversed, NoneRevived, DrainedStops,
         TailCalled, TailCrashed, NobodyCrashes, Passed;
    ghost var m := r.View();
    var stopErrs, crashed;
    ghost var reached: nat;
    stopErrs, crashed, reached, calls := StopAll(r, ctx);
    StopsAreDrained(s0, m, r.View());
    ghost var tail := m.core.order[reached..];
    IdleRuntimeStops(m, r.View(), Names(tail), StoppableReversed(tail, m.core.workers));
    EffectStops(m, r.View(), Names(tail), StoppableReversed(tail, m.core.workers));
    if crashed {
      end := Panicking;
      SequenceCrashes(s0, m, r.View(), reached, calls);
    } else {
      assert m.core.order[0..] == m.core.order;
      end := Completed(errs + stopErrs);
      SequenceCompletes(s0, m, r.View(), errs, stopErrs, calls);
      CalledErrors(m, r.View(), m.core.order, calls, stopErrs);
    }
    IdleStopsTransitive(s0, m, r.View());
  }

  lemma ExpiredSequence(s: System, t: System, errs: seq<Error>)
    requires Prepared(s, t) && NobodyRunning(t.core)
    ensures SequenceEnded(s, t, Expired(errs + [ContextDone]), [])
  {
    hide Passed, StoppableReversed;
    NoStopsMade(s, t);
    assert StopCalls(s.log) + [] == StopCalls(s.log);
  }

  /** Draining, as the beginning of Shutdown. */
  lemma DrainedPrepared(s: System, t: System, touched: set<Name>)
    requires Effect(s, t, touched, []) && touched == RunningIn(s.core.order, s.core.workers)
    requires HeadDrained(s.core, t.core, s.core.order) && Passed(s, t, [])
    requires forall n :: n in s.core.workers ==> n in s.core.order
    ensures Prepared(s, t) && IdleStops(s, t) && NobodyRunning(t.core)
  {
    hide Effect, Passed, RunningIn;
    EffectOrder(s, t, touched, []);
    EffectConfigs(s, t, touched, []);
    NoStopsAreIdle(s, t, touched);
    DrainedStoppable(s, t, s.core.order);
  }

  /** Waiting changes nothing for the sequence. */
  lemma WaitedPrepared(s: System, m: System, t: System)
    requires Prepared(s, m) && IdleStops(s, m) && NobodyRunning(m.core)
    requires Rely(m, t) && m.core.gate.Held? && forall n :: n in m.core.order ==> n in m.core.workers
    ensures Prepared(s, t) && IdleStops(s, t) && NobodyRunning(t.core)
  {
    hide Passed, StoppableReversed, Effect, IdleStops;
    PassedRely(s, m, t, []);
    RelyEffect(m, t);
    NoStopsAreIdle(m, t, {});
    IdleStopsTransitive(s, m, t);
    UntouchedStoppable(m, t, m.core.order);
    forall n | n in t.core.workers
      ensures t.core.workers[n].lifecycle != Running
    {
      RelyFacts(m, t, n, 0);
    }
  }

  /** What the errors of a shutdown are: one for each worker that was running and failed before
      it could be drained, the others having been drained; then those of the Stop calls in their
      order, or the context's, given twice if it was done while waiting for the runtime to idle. */
  ghost predicate ErrorsTold(s: System, t: System, end: Ending, calls: seq<CallOutcome>, missed: set<Name>) {
    && (forall n :: n in missed ==> n in s.core.workers && s.core.workers[n].lifecycle == Running)
    && (forall n :: n in s.core.workers && s.core.workers[n].lifecycle == Running && n !in missed ==>
          DrainLogged(s, t, n))
    && match end
       case NotRun => false
       case Completed(errs) =>
         && |missed| <= |errs| && errs[|missed|..] == StopErrors(calls)
         && forall e :: e in errs[..|missed|] ==> e == WrongState
       case Expired(errs) =>
         && |missed| < |errs| && (forall e :: e in errs[..|missed|] ==> e == WrongState)
         && (errs[|missed|..] == [ContextDone] || errs[|missed|..] == [ContextDone, ContextDone])
       case Panicking => true
  }

  lemma ErrorsAreTold(s: System, m: System, t: System, missed: set<Name>, drainErrs: seq<Error>, end: Ending,
                      calls: seq<CallOutcome>)
    requires FailedFirst(s, m, s.core.order, missed, drainErrs) && m.log <= t.log
    requires forall n :: n in s.core.workers ==> n in s.core.order
    requires match end
             case NotRun => false
             case Completed(errs) => errs == drainErrs + StopErrors(calls)
             case Expired(errs) =>
               errs == drainErrs + [ContextDone] || errs == drainErrs + [ContextDone, ContextDone]
             case Panicking => true
    ensures ErrorsTold(s, t, end, calls, missed)
  {
    hide DrainLogged, StopErrors;
    forall n | n in s.core.workers && s.core.workers[n].lifecycle == Running && n !in missed
      ensures DrainLogged(s, t, n)
    {
      DrainStaysLogged(s, m, t, n);
    }
    match end
    case Completed(errs) => assert errs[..|missed|] == drainErrs && errs[|missed|..] == StopErrors(calls);
    case Expired(errs) =>
      assert errs[..|missed|] == drainErrs;
      if errs == drainErrs + [ContextDone] {
        assert errs[|missed|..] == [ContextDone];
      } else {
        assert errs[|missed|..] == [ContextDone, ContextDone];
      }
    case Panicking =>
  }

  lemma ToldStays(s: System, t: System, u: System, end: Ending, calls: seq<CallOutcome>, missed: set<Name>)
    requires ErrorsTold(s, t, end, calls, missed) && t.log <= u.log
    ensures ErrorsTold(s, u, end, calls, missed)
  {
    hide DrainLogged, StopErrors;
    forall n | n in s.core.workers && s.core.workers[n].lifecycle == Running && n !in missed
      ensures DrainLogged(s, u, n)
    {
      DrainStaysLogged(s, t, u, n);
    }
  }

  /** shutdown: drain, wait until idle, stop. Every Stop it calls finds no worker running, and
      the runtime and the worker idle, whatever dispatches race with it; it expires only if the
      context is done. */
  method RunShutdown(r: Runtime, ctx: Context)
    returns (end: Ending, ghost calls: seq<CallOutcome>, ghost missed: set<Name>)
    requires r.Valid() && AtRest(r.CoreView()) && r.commandAdmissionClosed
    modifies r, ctx
    ensures r.Valid() && AtRest(r.CoreView()) && HeldFrame(old(r.CoreView()), r.CoreView())
    ensures IdleStops(old(r.View()), r.View()) && DrainedStops(old(r.View()), r.View())
    ensures SequenceEnded(old(r.View()), r.View(), end, calls) && !end.NotRun?
    ensures ErrorsTold(old(r.View()), r.View(), end, calls, missed)
    ensures end.Expired? ==> ctx.cancelled
    ensures old(ctx.cancelled) ==> ctx.cancelled
  {
    hide Reachable, Effect, HeadDrained, IdleStops, SequenceEnded, StoppableReversed, RunningIn, DrainedStops, Rely,
         Prepared, NobodyRunning, Passed, FailedFirst, ErrorsTold;
    ghost var s0 := r.View();
    AtRestWorkers(s0);
    var errs;
    errs, missed := DrainAllBestEffort(r, ctx);
    ghost var s1, touched := r.View(), RunningIn(s0.core.order, s0.core.workers);
    EffectFrame(s0, s1, touched);
    DrainedPrepared(s0, s1, touched);
    PreparedStops(s0, s1);
    calls := [];
    if ctx.cancelled {
      NoStopsAreDrained(s0, s1);
      ExpiredSequence(s0, s1, errs);
      end := Expired(errs + [ContextDone]);
      ErrorsAreTold(s0, s1, s1, missed, errs, end, calls);
      return;
    }
    AtRestWorkers(s1);
    var idle := WaitAllIdle(r, ctx);
    RelyFacts(s1, r.View(), "", 0);
    ghost var s2 := r.View();
    RelyFrame(s0.core, s1, s2);
    WaitedPrepared(s0, s1, s2);
    PreparedStops(s0, s2);
    if ctx.cancelled {
      NoStopsAreDrained(s0, s2);
      ghost var drainErrs := errs;
      if !idle {
        errs := errs + [ContextDone];
      }
      ExpiredSequence(s0, s2, errs);
      end := Expired(errs + [ContextDone]);
      assert drainErrs + [ContextDone] + [ContextDone] == drainErrs + [ContextDone, ContextDone];
      ErrorsAreTold(s0, s1, s2, missed, drainErrs, end, calls);
      return;
    }
    FailedFirstErrors(s0, s1, s0.core.order, missed, errs);
    end, calls := StopIdle(r, ctx, s0, errs);
    ErrorsAreTold(s0, s1, r.View(), missed, errs, end, calls);
  }

  lemma FailedFirstErrors(s: System, t: System, head: seq<Name>, missed: set<Name>, errs: seq<Error>)
    requires FailedFirst(s, t, head, missed, errs)
    ensures forall e :: e in errs ==> e == WrongState
  {
    hide DrainLogged;
  }

  lemma EffectFrame(s: System, t: System, touched: set<Name>)
    requires Effect(s, t, touched, [])
    ensures HeldFrame(s.core, t.core)
  {
    hide WorkersKept, StopsCalled;
  }

  lemma RelyFrame(c: Core, s: System, t: System)
    requires HeldFrame(c, s.core) && Rely(s, t)
    ensures HeldFrame(c, t.core)
  {
  }

  lemma PreparedStops(s: System, t: System)
    requires Prepared(s, t)
    ensures s.log <= t.log && StopCalls(t.log) == StopCalls(s.log)
  {
  }

  // ---------------------------------------------------------------------------
  // The gate and the admission cutoff around a sequence.

  predicate IsGateStep(l: Label) {
    l.AcquireGate? || l.ReleaseGate? || l.CloseAdmission? || l.RestoreAdmission?
  }

  /** Neither workers nor registrations nor the log differ. */
  ghost predicate SameWork(s: System, t: System) {
    && t.core.workers == s.core.workers && t.core.order == s.core.order && t.core.configs == s.core.configs
    && t.log == s.log && t.mark == s.mark
  }

  lemma GateStepKeeps(s: System, l: Label)
    requires Enabled(s.core, l) && IsGateStep(l)
    ensures SameWork(s, Next(s, l))
  {
    assert s.log + [] == s.log;
  }

  /** Nothing was called, and the workers that may be stopped are the same. */
  ghost predicate Unstopped(s: System, t: System) {
    Prepared(s, t) && IdleStops(s, t)
  }

  lemma SameWorkUnstopped(s: System, t: System)
    requires SameWork(s, t)
    ensures Unstopped(s, t)
  {
    PassedNothing(s);
  }

  lemma RelyUnstopped(s: System, t: System)
    requires Rely(s, t) && forall n :: n in s.core.order ==> n in s.core.workers
    ensures Unstopped(s, t)
  {
    hide Passed;
    var events := t.log[|s.log|..];
    assert t.log == s.log + events;
    StopCallsConcat(s.log, events);
    NoStopCalls(events);
    StoppableSame(s.core.order, s.core.workers, t.core.workers);
    PassedNothing(s);
    PassedRely(s, s, t, []);
  }

  lemma UnstoppedTransitive(a: System, b: System, c: System)
    requires Unstopped(a, b) && Unstopped(b, c)
    ensures Unstopped(a, c)
  {
    hide Passed, IdleStops;
    IdleStopsTransitive(a, b, c);
    NothingMore(a, b, c);
  }

  lemma UnstoppedBefore(a: System, b: System, c: System, end: Ending, calls: seq<CallOutcome>)
    requires Unstopped(a, b) && SequenceEnded(b, c, end, calls)
    ensures SequenceEnded(a, c, end, calls)
  {
    hide AllInactive, SomeFailed, NobodyRunning, ErrorsFit, Passed, StopsMade, IdleStops, LastCrashed, NoneCrashed;
    var list := StoppableReversed(a.core.order, a.core.workers);
    StopsMadeBefore(a, b, c, list[..|calls|], calls);
  }

  lemma SameWorkAfter(a: System, b: System, c: System, end: Ending, calls: seq<CallOutcome>)
    requires SequenceEnded(a, b, end, calls) && SameWork(b, c)
    ensures SequenceEnded(a, c, end, calls)
  {
    hide StopTrace, ErrorsFit, LastCrashed, NoneCrashed, StoppableReversed;
  }

  lemma SameWorkIdle(a: System, b: System, c: System)
    requires IdleStops(a, b) && SameWork(b, c)
    ensures IdleStops(a, c)
  {
  }

  lemma OrderedNames(s: System)
    requires Reachable(s)
    ensures forall n :: n in s.core.order ==> n in s.core.workers
    ensures s.core.gate.Free? ==> !s.core.admissionClosed
    ensures s.core.gate.Held? && s.core.gate.cutoff.Some? ==> s.core.admissionClosed
  {
    ReachableInv(s);
  }

  lemma RelyInactive(s: System, t: System)
    requires Rely(s, t)
    ensures StillInactive(s.core, t.core)
  {
  }

  /** Workers out of service stay so. */
  ghost predicate StillInactive(c: Core, c': Core) {
    && (NobodyRunning(c) ==> NobodyRunning(c'))
    && (AllInactive(c) ==> AllInactive(c') && (SomeFailed(c) <==> SomeFailed(c')))
  }

  /** Free steps, seen from outside the gate: inactive workers stay inactive. */
  method LetStep(r: Runtime, ctx: Context)
    requires r.Valid()
    modifies r, ctx
    ensures r.Valid() && Unstopped(old(r.View()), r.View()) && r.gate == old(r.gate)
    ensures StillInactive(old(r.CoreView()), r.CoreView())
    ensures old(ctx.cancelled) ==> ctx.cancelled
  {
    hide Reachable, Rely, Unstopped, StillInactive;
    OrderedNames(r.View());
    ghost var before := r.View();
    Interfere(r, ctx);
    RelyUnstopped(before, r.View());
    RelyFacts(before, r.View(), "", 0);
    RelyInactive(before, r.View());
  }

  method GateStep(r: Runtime, l: Label)
    requires r.Valid() && Enabled(r.CoreView(), l) && IsGateStep(l)
    modifies r
    ensures r.Valid() && r.View() == Next(old(r.View()), l) && SameWork(old(r.View()), r.View())
  {
    hide Reachable, Enabled, Next, SameWork;
    GateStepKeeps(r.View(), l);
    var _ := r.Step(l);
  }

  /** Any number of steps by every other party, other lifecycle operations included. */
  method LetEveryone(r: Runtime, ctx: Context)
    requires r.Valid()
    modifies r, ctx
    ensures r.Valid() && old(r.log) <= r.log
    ensures old(ctx.cancelled) ==> ctx.cancelled
  {
    hide Reachable, Enabled, Apply;
    var steps: nat := *;
    while steps > 0
      invariant r.Valid() && old(r.log) <= r.log
      invariant old(ctx.cancelled) ==> ctx.cancelled
    {
      var l: Label := *;
      if Enabled(r.CoreView(), l) {
        var _ := r.Step(l);
      }
      var expired: bool := *;
      if expired {
        ctx.cancelled := true;
      }
      steps := steps - 1;
    }
  }

  /** The end of the activity of another operation, however its call comes back. */
  function EndOf(activity: Activity, outcome: CallOutcome): Label {
    match outcome
    case Returned(None) => if activity.StartingWorker? then CompleteStart else CompleteStop
    case Returned(Some(err)) => if err.LoopCleanup? then FailCleanup(err) else FailOperation(err, false)
    case Panicked(id) => FailOperation(RecoveredPanic(id), true)
  }

  lemma EndIsPossible(s: System)
    requires Reachable(s) && Busy(s.core) && s.core.gate.call.Answered?
    ensures Enabled(s.core, EndOf(s.core.gate.activity, s.core.gate.call.outcome))
    ensures !Busy(Next(s, EndOf(s.core.gate.activity, s.core.gate.call.outcome)).core)
    ensures Next(s, EndOf(s.core.gate.activity, s.core.gate.call.outcome)).core.gate.Held?
    ensures s.log <= Next(s, EndOf(s.core.gate.activity, s.core.gate.call.outcome)).log
  {
    hide Reachable, Observed;
    BusyResults(s);
  }

  /** Another operation that holds the gate comes to its end and gives it back. */
  method HolderFinishes(r: Runtime)
    requires r.Valid() && r.gate.Held?
    modifies r
    ensures r.Valid() && r.gate.Free? && old(r.log) <= r.log
  {
    hide Reachable;
    if !r.gate.activity.Idle? {
      HolderAnswers(r);
      EndIsPossible(r.View());
      hide Apply;
      var _ := r.Step(EndOf(r.gate.activity, r.gate.call.outcome));
    }
    if r.gate.cutoff.Some? {
      GateStep(r, RestoreAdmission);
    }
    GateStep(r, ReleaseGate);
  }

  /** Its call is made and comes back. */
  method HolderAnswers(r: Runtime)
    requires r.Valid() && Busy(r.CoreView())
    modifies r
    ensures r.Valid() && Busy(r.CoreView()) && r.gate.call.Answered? && old(r.log) <= r.log
  {
    hide Reachable;
    if r.gate.call.NotCalled? {
      BusyResults(r.View());
      var _ := r.Step(if r.gate.activity.StartingWorker? then CallStart else CallStop);
    }
    if r.gate.call.InProgress? {
      var outcome: CallOutcome := *;
      var _ := r.Step(Answer(outcome));
    }
  }

  /** Takes the lifecycle gate unless the context is done before. If it is contended, other
      lifecycle operations may run first; otherwise only free steps do. */
  method AcquireLifecycle(r: Runtime, ctx: Context, contended: bool) returns (acquired: bool)
    requires r.Valid() && (contended || r.gate.Free?)
    modifies r, ctx
    ensures r.Valid() && old(r.log) <= r.log
    ensures if acquired then r.gate == Held(Idle, None, NotCalled) else ctx.cancelled
    ensures !contended ==> Unstopped(old(r.View()), r.View()) && (!acquired ==> r.gate.Free?)
    ensures old(ctx.cancelled) ==> !acquired
  {
    hide Reachable, Unstopped, SameWork;
    ghost var s0 := r.View();
    SameWorkItself(s0);
    SameWorkUnstopped(s0, s0);
    if ctx.cancelled {
      return false;
    }
    if contended {
      LetEveryone(r, ctx);
    } else {
      LetStep(r, ctx);
      UnstoppedLog(s0, r.View());
    }
    ghost var s1 := r.View();
    var doneFirst: bool := *;
    if ctx.cancelled && doneFirst {
      return false;
    }
    if r.gate.Held? {
      HolderFinishes(r);
    }
    ghost var s2 := r.View();
    acquired := TakeGate(r, ctx);
    if !contended {
      UnstoppedTransitive(s0, s2, r.View());
    }
  }

  lemma UnstoppedLog(s: System, t: System)
    requires Unstopped(s, t)
    ensures s.log <= t.log
  {
  }

  /** Takes the free gate, and gives it back at once if the context is done. */
  method TakeGate(r: Runtime, ctx: Context) returns (acquired: bool)
    requires r.Valid() && r.gate.Free?
    modifies r
    ensures r.Valid() && old(r.log) <= r.log && Unstopped(old(r.View()), r.View())
    ensures acquired <==> !ctx.cancelled
    ensures if acquired then r.gate == Held(Idle, None, NotCalled) else r.gate.Free?
  {
    hide Reachable, Unstopped, SameWork;
    ghost var s0 := r.View();
    GateStep(r, AcquireGate);
    ghost var s1 := r.View();
    SameWorkUnstopped(s0, s1);
    UnstoppedLog(s0, s1);
    acquired := !ctx.cancelled;
    if !acquired {
      GateStep(r, ReleaseGate);
      SameWorkUnstopped(s1, r.View());
      UnstoppedTransitive(s0, s1, r.View());
      UnstoppedLog(s0, r.View());
    }
  }

  lemma SameWorkItself(s: System)
    ensures SameWork(s, s)
  {
  }

  /** Closes admission for a sequence that is about to begin. */
  method CloseForSequence(r: Runtime, ctx: Context)
    requires r.Valid() && AtRest(r.CoreView()) && r.gate.cutoff.None?
    modifies r, ctx
    ensures r.Valid() && AtRest(r.CoreView()) && r.gate.cutoff.Some? && r.commandAdmissionClosed
    ensures Unstopped(old(r.View()), r.View())
    ensures old(ctx.cancelled) ==> ctx.cancelled
  {
    hide Reachable, Unstopped, SameWork;
    ghost var s0 := r.View();
    GateStep(r, CloseAdmission);
    ghost var s1 := r.View();
    SameWorkUnstopped(s0, s1);
    LetStep(r, ctx);
    UnstoppedTransitive(s0, s1, r.View());
    OrderedNames(r.View());
  }

  /** Restores admission and gives the gate back, whatever the sequence came to. */
  method ReopenAfterSequence(r: Runtime, ghost s0: System, ghost end: Ending, ghost calls: seq<CallOutcome>)
    requires r.Valid() && AtRest(r.CoreView()) && r.gate.cutoff.Some?
    requires SequenceEnded(s0, r.View(), end, calls)
    modifies r
    ensures r.Valid() && r.gate.Free? && !r.commandAdmissionClosed
    ensures SequenceEnded(s0, r.View(), end, calls)
    ensures SameWork(old(r.View()), r.View())
  {
    hide Reachable, SequenceEnded;
    ghost var s1 := r.View();
    GateStep(r, RestoreAdmission);
    GateStep(r, ReleaseGate);
    SameWorkAfter(s0, s1, r.View(), end, calls);
    OrderedNames(r.View());
  }

  lemma NotRunSequence(s: System)
    ensures SequenceEnded(s, s, NotRun, []) && IdleStops(s, s) && DrainedStops(s, s)
  {
    PassedNothing(s);
    NoStopsMade(s, s);
    assert StopCalls(s.log) + [] == StopCalls(s.log);
  }

  lemma UnstoppedIdle(a: System, b: System, c: System)
    requires Unstopped(a, b) && IdleStops(b, c)
    ensures IdleStops(a, c)
  {
    IdleStopsTransitive(a, b, c);
  }

  /** Shutdown from the moment it holds the gate: unless it expires or a panic is re-raised,
      every worker is left inactive and had its Stop called exactly once, in reverse order;
      every Stop it calls finds no worker running and no command in flight; the gate and
      admission are given back in every case. */
  method ShutdownHolding(r: Runtime, ctx: Context)
    returns (end: Ending, ghost calls: seq<CallOutcome>, ghost closed: System, ghost missed: set<Name>)
    requires r.Valid() && r.gate == Held(Idle, None, NotCalled)
    modifies r, ctx
    ensures r.Valid() && r.gate.Free? && !r.commandAdmissionClosed && !end.NotRun?
    ensures IdleStops(old(r.View()), r.View()) && DrainedStops(old(r.View()), r.View())
    ensures SequenceEnded(old(r.View()), r.View(), end, calls)
    ensures Unstopped(old(r.View()), closed) && ErrorsTold(closed, r.View(), end, calls, missed)
    ensures NobodyCrashes(old(r.CoreView())) ==> !end.Panicking?
    ensures end.Expired? ==> ctx.cancelled
    ensures old(ctx.cancelled) ==> ctx.cancelled
  {
    hide Reachable, Unstopped, IdleStops, SequenceEnded, SameWork, HeldFrame, DrainedStops, ErrorsTold;
    ghost var s1 := r.View();
    CloseForSequence(r, ctx);
    ghost var s2 := r.View();
    closed := s2;
    end, calls, missed := RunShutdown(r, ctx);
    ghost var s3 := r.View();
    UnstoppedBefore(s1, s2, s3, end, calls);
    UnstoppedIdle(s1, s2, s3);
    UnstoppedDrained(s1, s2, s3);
    HeldCutoff(s2.core, s3.core);
    ReopenAfterSequence(r, s1, end, calls);
    SameWorkIdle(s1, s3, r.View());
    SameWorkDrained(s1, s3, r.View());
    SameLog(s3, r.View());
    ToldStays(s2, s3, r.View(), end, calls, missed);
    if NobodyCrashes(s1.core) {
      NobodyCrashesNoPanic(s1, r.View(), end, calls);
    }
  }

  /** Shutdown: either the context is done before it has the gate, or all the above holds since
      the moment it had it; without contention only free steps came before. */
  method Shutdown(r: Runtime, ctx: Context, contended: bool)
    returns (end: Ending, ghost begun: System, ghost calls: seq<CallOutcome>, ghost closed: System,
             ghost missed: set<Name>)
    requires r.Valid() && (contended || r.gate.Free?)
    modifies r, ctx
    ensures r.Valid() && Reachable(begun) && old(r.log) <= begun.log
    ensures !contended ==> Unstopped(old(r.View()), begun)
    ensures !end.NotRun? ==> begun.core.gate == Held(Idle, None, NotCalled)
    ensures !end.NotRun? || !contended ==> r.gate.Free? && !r.commandAdmissionClosed
    ensures IdleStops(begun, r.View()) && DrainedStops(begun, r.View())
    ensures SequenceEnded(begun, r.View(), end, calls)
    ensures !end.NotRun? ==> Unstopped(begun, closed) && ErrorsTold(closed, r.View(), end, calls, missed)
    ensures NobodyCrashes(begun.core) ==> !end.Panicking?
    ensures end.NotRun? || end.Expired? ==> ctx.cancelled
    ensures old(ctx.cancelled) ==> end.NotRun?
  {
    hide Reachable, Unstopped, IdleStops, SequenceEnded, SameWork, DrainedStops, ErrorsTold;
    var acquired := AcquireLifecycle(r, ctx, contended);
    begun := r.View();
    OrderedNames(begun);
    if acquired {
      end, calls, closed, missed := ShutdownHolding(r, ctx);
    } else {
      NotRunSequence(begun);
      end, calls, closed, missed := NotRun, [], begun, {};
    }
  }

  lemma UnstoppedDrained(a: System, b: System, c: System)
    requires Unstopped(a, b) && DrainedStops(b, c)
    ensures DrainedStops(a, c)
  {
    NoStopBetween(a, b);
    assert forall i :: |a.log| <= i < |b.log| ==> c.log[i] == b.log[i] && !b.log[i].StopCalled?;
  }

  lemma SameLog(s: System, t: System)
    requires SameWork(s, t)
    ensures t.log == s.log
  {
  }

  lemma SameWorkDrained(a: System, b: System, c: System)
    requires DrainedStops(a, b) && SameWork(b, c)
    ensures DrainedStops(a, c)
  {
  }

  lemma HeldCutoff(c: Core, c': Core)
    requires HeldFrame(c, c')
    ensures c.gate.Held? && c'.gate.Held? && c'.gate.cutoff == c.gate.cutoff && c'.order == c.order
  {
  }

  /** StopAll from the moment it holds the gate: it leaves every worker inactive, unless a panic
      is re-raised; it may interrupt commands in flight. */
  method StopAllHolding(r: Runtime, ctx: Context) returns (end: Ending, ghost calls: seq<CallOutcome>)
    requires r.Valid() && r.gate == Held(Idle, None, NotCalled)
    modifies r, ctx
    ensures r.Valid() && r.gate.Free? && !r.commandAdmissionClosed
    ensures SequenceEnded(old(r.View()), r.View(), end, calls) && !end.Expired? && !end.NotRun?
    ensures NobodyCrashes(old(r.CoreView())) ==> !end.Panicking?
    ensures end.Completed? ==> end.errs == StopErrors(calls) && (end.errs == [] <==> !SomeFailed(r.CoreView()))
  {
    hide Reachable, Unstopped, SequenceEnded, Effect, TailStopped, StoppableReversed, NoneRevived, DrainedStops,
         IdleStops, Prepared, TailCalled, TailCrashed, NobodyCrashes, StopErrors;
    ghost var s1 := r.View();
    CloseForSequence(r, ctx);
    ghost var s2 := r.View();
    var errs, crashed;
    ghost var reached: nat;
    errs, crashed, reached, calls := StopAll(r, ctx);
    ghost var s3 := r.View();
    ghost var tail := s2.core.order[reached..];
    EffectStops(s2, s3, Names(tail), StoppableReversed(tail, s2.core.workers));
    SameWorkItself(s2);
    SameWorkUnstopped(s2, s2);
    UnstoppedIsPrepared(s2, s2);
    if crashed {
      end := Panicking;
      SequenceCrashes(s2, s2, s3, reached, calls);
    } else {
      assert s2.core.order[0..] == s2.core.order && [] + errs == errs;
      end := Completed(errs);
      SequenceCompletes(s2, s2, s3, [], errs, calls);
      StoppedInactive(s3.core, errs == []);
      CalledErrors(s2, s3, s2.core.order, calls, errs);
    }
    HeldCutoff(s2.core, s3.core);
    UnstoppedBefore(s1, s2, s3, end, calls);
    ReopenAfterSequence(r, s1, end, calls);
    if NobodyCrashes(s1.core) {
      NobodyCrashesNoPanic(s1, r.View(), end, calls);
    }
  }

  lemma UnstoppedIsPrepared(s: System, t: System)
    requires Unstopped(s, t)
    ensures Prepared(s, t)
  {
  }

  lemma CalledErrors(s: System, t: System, tail: seq<Name>, calls: seq<CallOutcome>, errs: seq<Error>)
    requires TailCalled(s, t, tail, calls, errs)
    ensures errs == StopErrors(calls)
  {
  }

  /** StopAll: either the context is done before it has the gate, or all the above holds since
      the moment it had it; without contention only free steps came before. */
  method StopAllWorkers(r: Runtime, ctx: Context, contended: bool)
    returns (end: Ending, ghost begun: System, ghost calls: seq<CallOutcome>)
    requires r.Valid() && (contended || r.gate.Free?)
    modifies r, ctx
    ensures r.Valid() && Reachable(begun) && old(r.log) <= begun.log
    ensures !contended ==> Unstopped(old(r.View()), begun)
    ensures !end.NotRun? ==> begun.core.gate == Held(Idle, None, NotCalled)
    ensures !end.NotRun? || !contended ==> r.gate.Free? && !r.commandAdmissionClosed
    ensures SequenceEnded(begun, r.View(), end, calls) && !end.Expired?
    ensures NobodyCrashes(begun.core) ==> !end.Panicking?
    ensures end.Completed? ==> end.errs == StopErrors(calls) && (end.errs == [] <==> !SomeFailed(r.CoreView()))
    ensures end.NotRun? ==> ctx.cancelled
    ensures old(ctx.cancelled) ==> end.NotRun?
  {
    hide Reachable, Unstopped, SequenceEnded;
    var acquired := AcquireLifecycle(r, ctx, contended);
    begun := r.View();
    OrderedNames(begun);
    if acquired {
      end, calls := StopAllHolding(r, ctx);
    } else {
      NotRunSequence(begun);
      end, calls := NotRun, [];
    }
  }
}
