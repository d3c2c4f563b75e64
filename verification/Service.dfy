/** servekitservice/service.go: the coordinator that starts the workers, runs a server, and
    shuts the workers down, with a fallback when the shutdown budget runs out. */
module ServekitService {
  import opened Basics
  import opened Lifecycle
  import opened RuntimeSteps
  import opened RuntimeTheorems
  import opened OperationEffects
  import opened Milestones
  import opened WorkerkitRuntime
  import opened LifecycleOperations
  import opened CallSequences
  import opened BulkOperations
  import opened Shutdown

  /** How Run came back: returned errors, joined, or a re-raised panic. */
  datatype RunEnding = Ended(errs: seq<Error>) | Unwound

  /** The fallback StopAll: not needed, run, or given up because its own context was done
      before it took the lifecycle gate. */
  datatype Fallback = NotNeeded | Used | Missed

  function EndingErrors(end: Ending): seq<Error> {
    match end
    case NotRun => [ContextDone]
    case Completed(errs) => errs
    case Expired(errs) => errs
    case Panicking => []
  }

  // ---------------------------------------------------------------------------
  // Starting.

  /** What became of starting the workers: not asked for, given up because the context was done
      before the gate was taken, or StartAll as it left things. */
  datatype Launch = NotAsked | GateMissed | Launched(begun: System, res: StartAllResult, runs: seq<StartRun>)

  function LaunchErrors(launch: Launch): seq<Error> {
    match launch
    case NotAsked => []
    case GateMissed => [ContextDone]
    case Launched(_, AllStarted, _) => []
    case Launched(_, HaltedAt(_, Failing(err)), _) => [err]
    case Launched(_, HaltedAt(_, _), _) => [WrongState]
  }

  predicate LaunchPanics(launch: Launch) { launch.Launched? && launch.res.HaltedAt? && launch.res.why.Crashed? }

  predicate LaunchSucceeds(launch: Launch) { launch.NotAsked? || (launch.Launched? && launch.res.AllStarted?) }

  ghost predicate WorkersLaunched(s: System, t: System, launch: Launch, cancelled: bool) {
    match launch
    case NotAsked => t == s
    case GateMissed => cancelled && Unstopped(s, t)
    case Launched(begun, res, runs) =>
      && Unstopped(s, begun) && IdleStops(begun, t) && t.core.configs == begun.core.configs
      && AllStartsMade(begun, t, res, runs, cancelled)
      && (res.AllStarted? ==> HeadStarted(begun.core, t.core, begun.core.order))
  }

  lemma LaunchedLater(s: System, t: System, launch: Launch, cancelled: bool, later: bool)
    requires WorkersLaunched(s, t, launch, cancelled) && (cancelled ==> later)
    ensures WorkersLaunched(s, t, launch, later)
  {
    hide Unstopped, IdleStops, StartsMade, StartEnded, HeadStarted, StartableIn;
  }

  lemma LaunchIsIdle(s: System, t: System, launch: Launch, cancelled: bool)
    requires WorkersLaunched(s, t, launch, cancelled)
    ensures IdleStops(s, t) && s.log <= t.log && t.core.configs == s.core.configs
  {
    hide AllStartsMade, HeadStarted, Prepared, Passed;
    match launch
    case NotAsked => IdleItself(s);
    case GateMissed => PreparedSame(s, t);
    case Launched(begun, _, _) =>
      PreparedSame(s, begun);
      IdleStopsTransitive(s, begun, t);
  }

  lemma LaunchPanicIsLogged(s: System, t: System, launch: Launch, cancelled: bool)
    requires WorkersLaunched(s, t, launch, cancelled) && LaunchPanics(launch)
    ensures PanicLogged(s, t)
  {
    hide StartEnded, HeadStarted, Prepared, IdleStops, PanicLogged, StartsMade, StartableIn;
    var begun, i := launch.begun, launch.res.position;
    PreparedSame(s, begun);
    StartCrashIsLogged(begun, t, StartableIn(begun.core.order[..i + 1], begun.core.workers), launch.runs) by {
      CrashedIsNotServed(begun, t, begun.core.order[i], launch.runs, cancelled);
    }
    LoggedBefore(s, begun, t);
  }

  lemma CrashedIsNotServed(s: System, t: System, name: Name, runs: seq<StartRun>, cancelled: bool)
    requires LastStarted(s, t, name, Crashed, runs, cancelled)
    ensures runs != [] && !runs[|runs| - 1].served
  {
    hide FailuresSince, ReportsSince;
  }

  // ---------------------------------------------------------------------------
  // Shutting down.

  /** The graceful shutdown, and the fallback from the state it left. */
  datatype Closing = Closing(first: Ending, firstCalls: seq<CallOutcome>, middle: System,
                             second: Ending, secondCalls: seq<CallOutcome>)

  /** A shutdown of the workers. The fallback is run exactly if the first sequence came back
      with an error and its context was done. */
  ghost predicate WorkersClosed(s: System, t: System, end: RunEnding, fallback: Fallback, c: Closing) {
    && SequenceEnded(s, c.middle, c.first, c.firstCalls)
    && IdleStops(s, c.middle) && DrainedStops(s, c.middle)
    && if fallback == NotNeeded then
         && c.middle == t && (c.first.Completed? || c.first.Panicking?)
         && end == if c.first.Panicking? then Unwound else Ended(EndingErrors(c.first))
       else
         && !c.first.Panicking? && EndingErrors(c.first) != []
         && SequenceEnded(c.middle, t, c.second, c.secondCalls) && !c.second.Expired?
         && (fallback == Missed <==> c.second.NotRun?)
         && end == if c.second.Panicking? then Unwound else Ended(EndingErrors(c.first) + EndingErrors(c.second))
  }

  /** What a shutdown of the workers leaves behind. */
  ghost predicate WorkersShutDown(s: System, t: System, end: RunEnding, fallback: Fallback) {
    && (end.Ended? && fallback != Missed ==> AllInactive(t.core))
    && (end.Ended? && end.errs == [] ==> AllInactive(t.core) && !SomeFailed(t.core) && fallback == NotNeeded)
    && (fallback == NotNeeded ==> IdleStops(s, t))
    && (end.Unwound? ==> PanicLogged(s, t))
    && s.log <= t.log && t.core.configs == s.core.configs
  }

  lemma ClosedMeansShutDown(s: System, t: System, end: RunEnding, fallback: Fallback, c: Closing)
    requires WorkersClosed(s, t, end, fallback, c)
    ensures WorkersShutDown(s, t, end, fallback)
  {
    hide AllInactive, SomeFailed, NobodyRunning, PanicLogged, NoneCrashed, LastCrashed, StopsMade, ErrorsFit,
         DrainedStops, IdleStops, StoppableReversed;
    if fallback == NotNeeded {
      if c.first.Panicking? {
        PanickingIsLogged(s, t, c.first, c.firstCalls);
      }
    } else if c.second.Panicking? {
      PanickingIsLogged(c.middle, t, c.second, c.secondCalls);
      LoggedBefore(s, c.middle, t);
    }
  }

  // ---------------------------------------------------------------------------
  // The whole run.

  /** What happened in a Run: the launch, when the workers were launched and when the server had
      run, the errors of the server, and the shutdown of the workers. */
  datatype Story = Story(launch: Launch, ready: System, served: System, serverErrs: seq<Error>,
                         closing: Option<Closing>)

  /** A Run as its configuration asks for. The server runs only if the launch succeeded; the
      workers are shut down, after the server or the failed launch, exactly if that is asked
      for and no panic of the launch was re-raised. */
  ghost predicate RunTold(s: System, t: System, startWorkers: bool, graceful: bool, end: RunEnding,
                          fallback: Fallback, story: Story, cancelled: bool) {
    var errs := LaunchErrors(story.launch) + story.serverErrs;
    && (story.launch.NotAsked? <==> !startWorkers)
    && WorkersLaunched(s, story.ready, story.launch, cancelled)
    && (if LaunchSucceeds(story.launch) then Unstopped(story.ready, story.served)
        else story.served == story.ready && story.serverErrs == [])
    && (story.closing.Some? <==> graceful && !LaunchPanics(story.launch))
    && if story.closing.None? then
         && t == story.served && fallback == NotNeeded
         && end == if LaunchPanics(story.launch) then Unwound else Ended(errs)
       else
         && (end.Ended? ==> errs <= end.errs)
         && WorkersClosed(story.served, t, if end.Unwound? then end else Ended(end.errs[|errs|..]), fallback,
                          story.closing.value)
  }

  /** What a Run that returned says of its launch: an error of the launch comes first, and the
      server was not run; otherwise the server's errors come first. */
  lemma LaunchErrorComesFirst(s: System, t: System, startWorkers: bool, graceful: bool, end: RunEnding,
                              fallback: Fallback, story: Story, cancelled: bool)
    requires RunTold(s, t, startWorkers, graceful, end, fallback, story, cancelled) && end.Ended?
    ensures var unserved := story.serverErrs == [] && story.served == story.ready;
            match story.launch
            case NotAsked => !startWorkers && story.serverErrs <= end.errs
            case GateMissed => [ContextDone] <= end.errs && unserved && cancelled
            case Launched(_, AllStarted, _) => story.serverErrs <= end.errs
            case Launched(_, HaltedAt(_, Failing(err)), _) => [err] <= end.errs && unserved
            case Launched(_, HaltedAt(_, Rejected(_)), _) => [WrongState] <= end.errs && unserved
            case Launched(_, HaltedAt(_, _), _) => false
  {
    hide HeadStarted, WorkersClosed, Unstopped, IdleStops, StartsMade, LastStarted, StartableIn;
  }

  /** Run is left by a panic exactly when one was re-raised: by the launch, by the shutdown or
      by its fallback; the workers are shut down whenever that is asked for, unless the launch
      was left by a panic. */
  lemma UnwoundExactly(s: System, t: System, startWorkers: bool, graceful: bool, end: RunEnding,
                       fallback: Fallback, story: Story, cancelled: bool)
    requires RunTold(s, t, startWorkers, graceful, end, fallback, story, cancelled)
    ensures var crashed := story.launch.Launched? && story.launch.res.HaltedAt? && story.launch.res.why == Crashed;
            && (story.closing.Some? <==> graceful && !crashed)
            && (end.Unwound? <==>
                  || crashed
                  || (story.closing.Some?
                      && (story.closing.value.first.Panicking?
                          || (fallback != NotNeeded && story.closing.value.second.Panicking?))))
  {
    hide WorkersLaunched, Unstopped, IdleStops, SequenceEnded, DrainedStops;
  }

  /** What follows the errors of the launch and the server: nothing without a shutdown of the
      workers; else the errors of Shutdown, and then those of the fallback if it was needed,
      each being the context's error alone if the sequence never got the gate. */
  lemma ClosingErrorsComeLast(s: System, t: System, startWorkers: bool, graceful: bool, end: RunEnding,
                              fallback: Fallback, story: Story, cancelled: bool)
    requires RunTold(s, t, startWorkers, graceful, end, fallback, story, cancelled) && end.Ended?
    ensures var launched := story.launch.NotAsked? || (story.launch.Launched? && story.launch.res.AllStarted?);
            var n := |story.serverErrs| + if launched then 0 else 1;
            && n <= |end.errs|
            && match story.closing
               case None => n == |end.errs|
               case Some(c) =>
                 var first := match c.first
                              case NotRun => [ContextDone]
                              case Completed(errs) => errs
                              case Expired(errs) => errs
                              case Panicking => [];
                 var second := match c.second
                               case NotRun => [ContextDone]
                               case Completed(errs) => errs
                               case Expired(errs) => errs
                               case Panicking => [];
                 && !c.first.Panicking?
                 && end.errs[n..] == if fallback == NotNeeded then first else first + second
  {
    hide WorkersLaunched, Unstopped, IdleStops, SequenceEnded, DrainedStops;
    var own := LaunchErrors(story.launch) + story.serverErrs;
    assert own <= end.errs;
  }

  /** Run returns nil only if everything went well: every worker that could be started was, its
      last call of Worker.Start having come back without error; the server had no error; and
      the shutdown asked for was completed without one. */
  lemma NilMeansAllWentWell(s: System, t: System, startWorkers: bool, graceful: bool, fallback: Fallback,
                            story: Story, cancelled: bool)
    requires RunTold(s, t, startWorkers, graceful, Ended([]), fallback, story, cancelled)
    ensures startWorkers ==> story.launch.Launched? && AllServed(story.launch.begun.core, story.launch.runs)
    ensures story.serverErrs == []
    ensures graceful ==> story.closing.Some? && story.closing.value.first == Completed([]) && fallback == NotNeeded
  {
    hide SequenceEnded, Unstopped, IdleStops, HeadStarted, DrainedStops;
    LaunchErrorComesFirst(s, t, startWorkers, graceful, Ended([]), fallback, story, cancelled);
    ClosingErrorsComeLast(s, t, startWorkers, graceful, Ended([]), fallback, story, cancelled);
    if startWorkers {
      StartsServed(story.launch.begun, story.ready, story.launch.runs);
    }
  }

  /** Every worker that could be started had a Start whose last call came back without error. */
  ghost predicate AllServed(c: Core, runs: seq<StartRun>) {
    forall n :: n in c.order && n in c.workers && c.workers[n].lifecycle in {Registered, Stopped, Failed} ==>
      exists k :: 0 <= k < |runs| && runs[k].name == n && runs[k].calls != []
                  && runs[k].calls[|runs[k].calls| - 1] == Returned(None)
  }

  lemma StartsServed(s: System, t: System, runs: seq<StartRun>)
    requires StartsMade(s, t, StartableIn(s.core.order, s.core.workers), runs, Finished)
    ensures AllServed(s.core, runs)
  {
    hide Passed, AllRetried;
    var names := StartableIn(s.core.order, s.core.workers);
    forall n | n in s.core.order && n in s.core.workers && s.core.workers[n].lifecycle in {Registered, Stopped, Failed}
      ensures exists k :: 0 <= k < |runs| && runs[k].name == n && runs[k].calls != []
                          && runs[k].calls[|runs[k].calls| - 1] == Returned(None)
    {
      StartableMembers(s.core.order, s.core.workers, n);
      var k :| 0 <= k < |names| && names[k] == n;
      assert RunDecided(s.core, runs[k], names[k], Finished);
      FinishedReturns(s.core.configs[n], runs[k].calls);
    }
  }

  lemma FinishedReturns(cfg: WorkerConfig, calls: seq<CallOutcome>)
    requires StartDecided(cfg, calls, Finished)
    ensures calls[|calls| - 1] == Returned(None)
  {
  }

  /** What a Run leaves behind. */
  ghost predicate RunLeaves(s: System, t: System, graceful: bool, end: RunEnding, fallback: Fallback) {
    && (graceful && end.Ended? && fallback != Missed ==> AllInactive(t.core))
    && (graceful && end == Ended([]) ==> !SomeFailed(t.core) && fallback == NotNeeded)
    && (fallback == NotNeeded ==> IdleStops(s, t))
    && (end.Unwound? ==> PanicLogged(s, t))
  }

  lemma ServedIsIdle(s: System, t: System, story: Story, cancelled: bool)
    requires WorkersLaunched(s, story.ready, story.launch, cancelled)
    requires if LaunchSucceeds(story.launch) then Unstopped(story.ready, story.served) else story.served == story.ready
    ensures IdleStops(s, story.served) && s.log <= story.served.log && story.served.core.configs == s.core.configs
  {
    hide WorkersLaunched, Prepared;
    LaunchIsIdle(s, story.ready, story.launch, cancelled);
    if LaunchSucceeds(story.launch) {
      PreparedSame(story.ready, story.served);
      IdleStopsTransitive(s, story.ready, story.served);
    }
  }

  lemma ToldMeansLeft(s: System, t: System, startWorkers: bool, graceful: bool, end: RunEnding, fallback: Fallback,
                      story: Story, cancelled: bool)
    requires RunTold(s, t, startWorkers, graceful, end, fallback, story, cancelled)
    ensures RunLeaves(s, t, graceful, end, fallback)
  {
    hide WorkersLaunched, WorkersClosed, AllInactive, SomeFailed, IdleStops, PanicLogged, Unstopped;
    ServedIsIdle(s, t, story, cancelled);
    if story.closing.None? {
      if LaunchPanics(story.launch) {
        LaunchPanicIsLogged(s, t, story.launch, cancelled);
      }
    } else {
      var errs := LaunchErrors(story.launch) + story.serverErrs;
      var own := if end.Unwound? then end else Ended(end.errs[|errs|..]);
      ClosedMeansShutDown(story.served, t, own, fallback, story.closing.value);
      if fallback == NotNeeded {
        IdleStopsTransitive(s, story.served, t);
      }
      if end.Unwound? {
        LoggedBefore(s, story.served, t);
      }
    }
  }

  /** A caller can tell beforehand: without workers under the crash policy, Run returns. */
  lemma NoCrashPolicyNoUnwinding(s: System, t: System, graceful: bool, end: RunEnding, fallback: Fallback)
    requires RunLeaves(s, t, graceful, end, fallback)
    requires forall n :: n in s.core.configs ==> s.core.configs[n].panicPolicy != Crash
    ensures end.Ended?
  {
    hide AllInactive, SomeFailed, IdleStops;
  }

  class Service {
    const runtime: Runtime
    const startWorkers: bool
    const gracefulWorkerShutdown: bool

    constructor (runtime: Runtime, startWorkers: bool, gracefulWorkerShutdown: bool)
      ensures this.runtime == runtime && this.startWorkers == startWorkers
      ensures this.gracefulWorkerShutdown == gracefulWorkerShutdown
    {
      this.runtime := runtime;
      this.startWorkers := startWorkers;
      this.gracefulWorkerShutdown := gracefulWorkerShutdown;
    }

    /** A context detached from every other, with a budget of its own or none. */
    method NewShutdownContext() returns (ctx: Context)
      ensures fresh(ctx) && !ctx.cancelled
    {
      ctx := new Context();
    }

    /** StartAll under the gate. */
    method StartAllWorkers(ctx: Context)
      returns (started: bool, errs: seq<Error>, panicked: bool, ghost launch: Launch)
      requires runtime.Valid() && runtime.gate.Free?
      modifies runtime, ctx
      ensures runtime.Valid() && runtime.gate.Free?
      ensures !launch.NotAsked? && WorkersLaunched(old(runtime.View()), runtime.View(), launch, ctx.cancelled)
      ensures errs == LaunchErrors(launch) || panicked
      ensures started == LaunchSucceeds(launch) && panicked == LaunchPanics(launch)
      ensures old(ctx.cancelled) ==> ctx.cancelled
    {
      hide Reachable, IdleStops, Effect, HeadStarted, Prepared, SameWork, AllStartsMade;
      ghost var s0 := runtime.View();
      var acquired := AcquireLifecycle(runtime, ctx, false);
      if !acquired {
        launch := GateMissed;
        return false, [ContextDone], false, launch;
      }
      ghost var held := runtime.View();
      LetStep(runtime, ctx);
      ghost var s1 := runtime.View();
      UnstoppedTransitive(s0, held, s1);
      var res;
      ghost var reached, runs;
      res, reached, runs := StartAll(runtime, ctx);
      ghost var s2 := runtime.View();
      ghost var touched := Names(s1.core.order[..reached]);
      assert s1.core.order[..|s1.core.order|] == s1.core.order;
      NoStopsAreIdle(s1, s2, touched);
      EffectCutoff(s1, s2, touched);
      GateStep(runtime, ReleaseGate);
      SameWorkIdle(s1, s2, runtime.View());
      SameWorkLaunched(s1, s2, runtime.View(), res, runs, ctx.cancelled);
      launch := Launched(s1, res, runs);
      HaltedUnfinished(s1, s2, res, runs, ctx.cancelled);
      match res {
        case AllStarted => return true, [], false, launch;
        case HaltedAt(_, Crashed) => return false, [], true, launch;
        case HaltedAt(_, Failing(err)) => return false, [err], false, launch;
        case HaltedAt(_, Rejected(_)) => return false, [WrongState], false, launch;
      }
    }

    /** The server runs, for as long as it likes: others step, and it may have asked for the
        shutdown context, whose budget may be used up when it returns. */
    method RunServer(ctx: Context) returns (errs: seq<Error>, shutdownCtx: Context?)
      requires runtime.Valid() && runtime.gate.Free?
      modifies runtime, ctx
      ensures runtime.Valid() && runtime.gate.Free?
      ensures Unstopped(old(runtime.View()), runtime.View())
      ensures shutdownCtx == null || fresh(shutdownCtx)
      ensures old(ctx.cancelled) ==> ctx.cancelled
    {
      hide Reachable, Unstopped;
      ghost var s0 := runtime.View();
      LetStep(runtime, ctx);
      shutdownCtx := null;
      errs := *;
      var graceful: bool := *;
      if graceful {
        ghost var s1 := runtime.View();
        var detached := NewShutdownContext();
        LetStep(runtime, detached);
        UnstoppedTransitive(s0, s1, runtime.View());
        shutdownCtx := detached;
      }
    }

    /** Shutdown within its budget; when that is used up, StopAll with a fresh one. The fallback
        is run only if the shutdown context is done, and missed only if its own is. */
    method ShutdownWorkersWithContext(shutdownCtx: Context)
      returns (end: RunEnding, fallback: Fallback, ghost closing: Closing, ghost stopCtx: Context?)
      requires runtime.Valid() && runtime.gate.Free?
      modifies runtime, shutdownCtx
      ensures runtime.Valid() && runtime.gate.Free?
      ensures WorkersClosed(old(runtime.View()), runtime.View(), end, fallback, closing)
      ensures WorkersShutDown(old(runtime.View()), runtime.View(), end, fallback)
      ensures fallback != NotNeeded ==> shutdownCtx.cancelled
      ensures fallback == NotNeeded && end.Ended? && closing.first != Completed([]) ==> !shutdownCtx.cancelled
      ensures fallback != NotNeeded ==> stopCtx != null && fresh(stopCtx)
      ensures fallback == Missed ==> stopCtx.cancelled
    {
      hide Reachable, IdleStops, SequenceEnded, Unstopped, AllInactive, SomeFailed, DrainedStops, WorkersShutDown,
           NobodyCrashes;
      ghost var s0 := runtime.View();
      ghost var begun: System, calls: seq<CallOutcome>;
      var first: Ending;
      ghost var closed, missed;
      first, begun, calls, closed, missed := Shutdown.Shutdown(runtime, shutdownCtx, false);
      ghost var s1 := runtime.View();
      UnstoppedIdle(s0, begun, s1);
      UnstoppedDrained(s0, begun, s1);
      UnstoppedBefore(s0, begun, s1, first, calls);
      var errs := EndingErrors(first);
      fallback := NotNeeded;
      closing, stopCtx := Closing(first, calls, s1, NotRun, []), null;
      if first.Panicking? {
        end := Unwound;
        ClosedMeansShutDown(s0, s1, end, fallback, closing);
        return;
      }
      end := Ended(errs);
      if errs == [] {
        NoErrorsMeansCompleted(s0, s1, first, calls);
        ClosedMeansShutDown(s0, s1, end, fallback, closing);
        return;
      }
      LetStep(runtime, shutdownCtx);
      ghost var s2 := runtime.View();
      SequenceStays(s0, s1, s2, first, calls);
      StopsStay(s0, s1, s2);
      closing := closing.(middle := s2);
      if !shutdownCtx.cancelled {
        ClosedMeansShutDown(s0, s2, end, fallback, closing);
        return;
      }
      var detached := NewShutdownContext();
      var second: Ending;
      second, begun, calls := StopAllWorkers(runtime, detached, false);
      UnstoppedBefore(s2, begun, runtime.View(), second, calls);
      closing := closing.(second := second, secondCalls := calls);
      stopCtx := detached;
      fallback := if second.NotRun? then Missed else Used;
      end := if second.Panicking? then Unwound else Ended(errs + EndingErrors(second));
      ClosedMeansShutDown(s0, runtime.View(), end, fallback, closing);
    }

    /** Run: with graceful shutdown enabled and no other lifecycle caller, whichever way it
        returns no worker is left in service or in transition, unless the fallback's own
        context was done before it had the gate; a return without error means none is failed
        either; every Stop called within the shutdown budget finds no command in flight; and it
        is left by a panic only if a call of worker code panicked, of a worker under the crash
        policy. */
    method Run(ctx: Context)
      returns (end: RunEnding, fallback: Fallback, ghost story: Story, ghost shutdownCtx: Context?,
               ghost stopCtx: Context?)
      requires runtime.Valid() && runtime.gate.Free?
      modifies runtime, ctx
      ensures runtime.Valid() && runtime.gate.Free?
      ensures RunTold(old(runtime.View()), runtime.View(), startWorkers, gracefulWorkerShutdown, end, fallback, story,
                      ctx.cancelled)
      ensures RunLeaves(old(runtime.View()), runtime.View(), gracefulWorkerShutdown, end, fallback)
      ensures fallback != NotNeeded ==> shutdownCtx != null && fresh(shutdownCtx) && shutdownCtx.cancelled
      ensures story.closing.Some? && story.closing.value.first != Completed([]) && end.Ended? && fallback == NotNeeded
              ==> shutdownCtx != null && !shutdownCtx.cancelled
      ensures fallback != NotNeeded ==> stopCtx != null && fresh(stopCtx)
      ensures fallback == Missed ==> stopCtx.cancelled
      ensures (forall n :: n in old(runtime.workerConfigs) ==> old(runtime.workerConfigs)[n].panicPolicy != Crash) ==>
                && end.Ended?
                && (gracefulWorkerShutdown && (stopCtx == null || !stopCtx.cancelled) ==>
                      AllInactive(runtime.CoreView()))
    {
      hide Reachable, WorkersLaunched, WorkersClosed, WorkersShutDown, RunTold, RunLeaves, AllInactive, IdleStops,
           Unstopped, PanicLogged;
      ghost var s0 := runtime.View();
      end, fallback, shutdownCtx, stopCtx := Ended([]), NotNeeded, null, null;
      ghost var launch := NotAsked;
      var startErrs: seq<Error> := [];
      var started := true;
      LaunchedNothing(s0, ctx.cancelled);
      if startWorkers {
        var panicked;
        started, startErrs, panicked, launch := StartAllWorkers(ctx);
        if panicked {
          end := Unwound;
          story := Story(launch, runtime.View(), runtime.View(), [], None);
          ToldUnclosed(s0, runtime.View(), startWorkers, gracefulWorkerShutdown, end, story, ctx.cancelled);
          Leaves(s0, end, fallback, story, ctx.cancelled);
          return;
        }
      }
      ghost var ready, early := runtime.View(), ctx.cancelled;
      var runErrs: seq<Error> := [];
      var asked: Context? := null;
      if started {
        runErrs, asked := RunServer(ctx);
      }
      LaunchedLater(s0, ready, launch, early, ctx.cancelled);
      ghost var served := runtime.View();
      story := Story(launch, ready, served, runErrs, None);
      if !gracefulWorkerShutdown {
        end := Ended(startErrs + runErrs);
        ToldUnclosed(s0, served, startWorkers, gracefulWorkerShutdown, end, story, ctx.cancelled);
        Leaves(s0, end, fallback, story, ctx.cancelled);
        return;
      }
      var closeCtx: Context;
      if asked == null {
        closeCtx := NewShutdownContext();
      } else {
        closeCtx := asked;
      }
      ghost var closing: Closing;
      end, fallback, closing, stopCtx := ShutdownWorkersWithContext(closeCtx);
      shutdownCtx := closeCtx;
      story := story.(closing := Some(closing));
      ToldClosed(s0, runtime.View(), startWorkers, end, fallback, story, ctx.cancelled);
      if end.Ended? {
        end := Ended(startErrs + runErrs + end.errs);
      }
      Leaves(s0, end, fallback, story, ctx.cancelled);
    }

    /** What the story of a Run implies. */
    lemma Leaves(s0: System, end: RunEnding, fallback: Fallback, story: Story, cancelled: bool)
      requires RunTold(s0, runtime.View(), startWorkers, gracefulWorkerShutdown, end, fallback, story, cancelled)
      ensures RunLeaves(s0, runtime.View(), gracefulWorkerShutdown, end, fallback)
      ensures (forall n :: n in s0.core.configs ==> s0.core.configs[n].panicPolicy != Crash) ==> end.Ended?
      ensures gracefulWorkerShutdown && end.Ended? && fallback != Missed ==> AllInactive(runtime.CoreView())
    {
      hide RunTold, AllInactive, SomeFailed, IdleStops, PanicLogged;
      ToldMeansLeft(s0, runtime.View(), startWorkers, gracefulWorkerShutdown, end, fallback, story, cancelled);
      if forall n :: n in s0.core.configs ==> s0.core.configs[n].panicPolicy != Crash {
        NoCrashPolicyNoUnwinding(s0, runtime.View(), gracefulWorkerShutdown, end, fallback);
      }
    }
  }

  lemma LaunchedNothing(s: System, cancelled: bool)
    ensures WorkersLaunched(s, s, NotAsked, cancelled)
  {
  }

  lemma ToldUnclosed(s: System, t: System, startWorkers: bool, graceful: bool, end: RunEnding, story: Story,
                     cancelled: bool)
    requires story.closing.None? && t == story.served && (!graceful || LaunchPanics(story.launch))
    requires story.launch.NotAsked? <==> !startWorkers
    requires WorkersLaunched(s, story.ready, story.launch, cancelled)
    requires if LaunchSucceeds(story.launch) then Unstopped(story.ready, story.served)
             else story.served == story.ready && story.serverErrs == []
    requires end == if LaunchPanics(story.launch) then Unwound else Ended(LaunchErrors(story.launch) + story.serverErrs)
    ensures RunTold(s, t, startWorkers, graceful, end, NotNeeded, story, cancelled)
  {
    hide WorkersLaunched, Unstopped;
  }

  lemma ToldClosed(s: System, t: System, startWorkers: bool, own: RunEnding, fallback: Fallback, story: Story,
                   cancelled: bool)
    requires story.closing.Some? && !LaunchPanics(story.launch)
    requires story.launch.NotAsked? <==> !startWorkers
    requires WorkersLaunched(s, story.ready, story.launch, cancelled)
    requires if LaunchSucceeds(story.launch) then Unstopped(story.ready, story.served)
             else story.served == story.ready && story.serverErrs == []
    requires WorkersClosed(story.served, t, own, fallback, story.closing.value)
    ensures var errs := LaunchErrors(story.launch) + story.serverErrs;
            RunTold(s, t, startWorkers, true, if own.Unwound? then own else Ended(errs + own.errs), fallback, story,
                    cancelled)
  {
    hide WorkersLaunched, WorkersClosed, Unstopped;
    var errs := LaunchErrors(story.launch) + story.serverErrs;
    if own.Ended? {
      assert (errs + own.errs)[|errs|..] == own.errs;
    }
  }

  lemma IdleItself(s: System)
    ensures IdleStops(s, s)
  {
  }

  lemma HaltedUnfinished(s: System, t: System, res: StartAllResult, runs: seq<StartRun>, cancelled: bool)
    requires AllStartsMade(s, t, res, runs, cancelled)
    ensures res.HaltedAt? ==> res.why != Finished
  {
    hide StartsMade, StartableIn, LastStarted;
  }

  lemma SameWorkLaunched(s: System, m: System, t: System, res: StartAllResult, runs: seq<StartRun>, cancelled: bool)
    requires AllStartsMade(s, m, res, runs, cancelled) && SameWork(m, t)
    requires res.AllStarted? ==> HeadStarted(s.core, m.core, s.core.order)
    ensures AllStartsMade(s, t, res, runs, cancelled)
    ensures res.AllStarted? ==> HeadStarted(s.core, t.core, s.core.order)
  {
    hide StartableIn, RunDecided;
  }

  lemma EffectCutoff(s: System, t: System, touched: set<Name>)
    requires Effect(s, t, touched, [])
    ensures s.core.gate.Held? && t.core.gate.Held? && t.core.gate.cutoff == s.core.gate.cutoff
    ensures t.core.configs == s.core.configs
  {
    hide WorkersKept, StopsCalled;
  }

  lemma NoErrorsMeansCompleted(s: System, t: System, end: Ending, calls: seq<CallOutcome>)
    requires SequenceEnded(s, t, end, calls) && EndingErrors(end) == [] && !end.Panicking?
    ensures end.Completed?
  {
    hide CallsInOrder, AllInactive, SomeFailed, NobodyRunning, NoneCrashed, LastCrashed, ErrorsFit, StoppableReversed;
  }

  /** A sequence stays ended while others step. */
  lemma SequenceStays(s: System, m: System, t: System, end: Ending, calls: seq<CallOutcome>)
    requires SequenceEnded(s, m, end, calls) && Unstopped(m, t) && StillInactive(m.core, t.core)
    ensures SequenceEnded(s, t, end, calls)
  {
    hide AllInactive, SomeFailed, NobodyRunning, NoneCrashed, LastCrashed, ErrorsFit, StoppableReversed, IdleStops,
         Passed, StopTrace, MilestonesSince;
    StopsMadeAfter(s, m, t, StoppableReversed(s.core.order, s.core.workers)[..|calls|], calls);
  }

  lemma StopsStay(s: System, m: System, t: System)
    requires IdleStops(s, m) && DrainedStops(s, m) && Unstopped(m, t)
    ensures IdleStops(s, t) && DrainedStops(s, t)
  {
    IdleStopsTransitive(s, m, t);
    NoStopBetween(m, t);
    forall i | |s.log| <= i < |t.log| && t.log[i].StopCalled?
      ensures NobodyRuns(t.log[..i])
    {
      assert t.log[i] == m.log[i] && t.log[..i] == m.log[..i];
    }
  }

  lemma StopsMadeAfter(s: System, m: System, t: System, names: seq<Name>, calls: seq<CallOutcome>)
    requires StopsMade(s, m, names, calls) && Passed(m, t, [])
    ensures StopsMade(s, t, names, calls)
  {
    hide StopTrace, MilestonesSince;
    PassedOn(s, m, t, MilestonesSince(s, m), []);
    assert MilestonesSince(s, m) + [] == MilestonesSince(s, m);
  }
}
