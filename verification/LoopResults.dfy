/** The main results about a LoopWorker, over every run of its step system. */
module LoopResults {
  import opened Basics
  import opened LoopSteps
  import opened LoopInvariant

  lemma CallerStepKeeps(w: Loop, l: Step)
    requires LoopOk(w) && CanStep(w, l) && IsCallerStep(l)
    ensures LoopOk(CallerStep(w, l))
  {
    hide EpochsOk, LiveOk, HooksOk, AttemptsOk, CleanupsOk, LivesOk, ReturnOk, CanStep, CallerStep;
    if IsUpStep(l) {
      UpKeepsEpochs(w, l);
      UpKeepsLive(w, l);
      UpKeepsHooks(w, l);
      UpKeepsAttempts(w, l);
      UpKeepsCleanups(w, l);
      UpKeepsLives(w, l);
      UpKeepsReturn(w, l);
    } else if IsDownStep(l) {
      DownKeepsEpochs(w, l);
      DownKeepsLive(w, l);
      DownKeepsHooks(w, l);
      DownKeepsAttempts(w, l);
      DownKeepsCleanups(w, l);
      DownKeepsLives(w, l);
      DownKeepsReturn(w, l);
    } else {
      CleanupKeepsEpochs(w, l);
      CleanupKeepsLive(w, l);
      CleanupKeepsHooks(w, l);
      CleanupKeepsAttempts(w, l);
      CleanupKeepsCleanups(w, l);
      CleanupKeepsLives(w, l);
      CleanupKeepsReturn(w, l);
    }
  }

  lemma RoutineStepKeeps(w: Loop, l: Step)
    requires LoopOk(w) && CanStep(w, l) && !IsCallerStep(l)
    ensures LoopOk(RoutineStep(w, l))
  {
    hide EpochsOk, LiveOk, HooksOk, AttemptsOk, CleanupsOk, LivesOk, ReturnOk, CanStep, RoutineStep;
    if IsExitStep(l) {
      ExitKeepsEpochs(w, l);
      ExitKeepsLive(w, l);
      ExitKeepsHooks(w, l);
      ExitKeepsAttempts(w, l);
      ExitKeepsCleanups(w, l);
      ExitKeepsLives(w, l);
      ExitKeepsReturn(w, l);
    } else if IsSelfHookStep(l) {
      SelfHookKeepsEpochs(w, l);
      SelfHookKeepsLive(w, l);
      SelfHookKeepsHooks(w, l);
      SelfHookKeepsAttempts(w, l);
      SelfHookKeepsCleanups(w, l);
      SelfHookKeepsLives(w, l);
      SelfHookKeepsReturn(w, l);
    } else if IsTellStep(l) {
      TellKeepsEpochs(w, l);
      TellKeepsLive(w, l);
      TellKeepsHooks(w, l);
      TellKeepsAttempts(w, l);
      TellKeepsCleanups(w, l);
      TellKeepsLives(w, l);
      TellKeepsReturn(w, l);
    } else {
      FinishKeepsEpochs(w, l);
      FinishKeepsLive(w, l);
      FinishKeepsHooks(w, l);
      FinishKeepsAttempts(w, l);
      FinishKeepsCleanups(w, l);
      FinishKeepsLives(w, l);
      FinishKeepsReturn(w, l);
    }
  }

  lemma StepKeepsLoopOk(w: Loop, l: Step)
    requires LoopOk(w) && CanStep(w, l)
    ensures LoopOk(Then(w, l))
  {
    hide LoopOk, CallerStep, RoutineStep;
    if IsCallerStep(l) {
      CallerStepKeeps(w, l);
    } else {
      RoutineStepKeeps(w, l);
    }
  }

  lemma {:induction false} RunKeepsLoopOk(w: Loop, run: seq<Step>)
    requires LoopOk(w) && IsLoopRun(w, run)
    ensures LoopOk(AfterLoopRun(w, run))
    decreases |run|
  {
    hide LoopOk, Then;
    if run != [] {
      StepKeepsLoopOk(w, run[0]);
      RunKeepsLoopOk(Then(w, run[0]), run[1..]);
    }
  }

  /** w is the state of some LoopWorker after some run. */
  ghost predicate LoopReachable(w: Loop) {
    exists autoReady, crash, run :: IsLoopRun(NewLoop(autoReady, crash),
          run) && w == AfterLoopRun(NewLoop(autoReady, crash), run)
  }

  lemma LoopReachableOk(w: Loop)
    requires LoopReachable(w)
    ensures LoopOk(w)
  {
    hide LoopOk;
    var autoReady, crash, run :| IsLoopRun(NewLoop(autoReady, crash),
          run) && w == AfterLoopRun(NewLoop(autoReady, crash), run);
    NewLoopOk(autoReady, crash);
    RunKeepsLoopOk(NewLoop(autoReady, crash), run);
  }

  lemma {:induction false} LoopRunExtends(w: Loop, run: seq<Step>, l: Step)
    requires IsLoopRun(w, run) && CanStep(AfterLoopRun(w, run), l)
    ensures IsLoopRun(w, run + [l]) && AfterLoopRun(w, run + [l]) == Then(AfterLoopRun(w, run), l)
    decreases |run|
  {
    hide CanStep, Then;
    if run == [] {
      assert run + [l] == [l];
      assert IsLoopRun(Then(w, l), [l][1..]);
    } else {
      LoopRunExtends(Then(w, run[0]), run[1..], l);
      assert (run + [l])[0] == run[0] && (run + [l])[1..] == run[1..] + [l];
    }
  }

  lemma NewLoopReachable(autoReady: bool, crash: bool)
    ensures LoopReachable(NewLoop(autoReady, crash))
  {
    assert IsLoopRun(NewLoop(autoReady, crash), []);
  }

  lemma LoopStepStaysReachable(w: Loop, l: Step)
    requires LoopReachable(w) && CanStep(w, l)
    ensures LoopReachable(Then(w, l))
  {
    hide CanStep, Then;
    var autoReady, crash, run :| IsLoopRun(NewLoop(autoReady, crash),
          run) && w == AfterLoopRun(NewLoop(autoReady, crash), run);
    LoopRunExtends(NewLoop(autoReady, crash), run, l);
    assert IsLoopRun(NewLoop(autoReady, crash), run + [l]);
  }

  // ---------------------------------------------------------------------------
  // Exclusion.

  /** Who may be executing user code: the caller, or the goroutine of an epoch. */
  datatype Thread = TheCaller | TheRoutine(epoch: nat)

  predicate RunsBody(w: Loop, t: Thread) {
    t.TheRoutine? && t.epoch < |w.lives| && w.lives[t.epoch].at.Body?
  }

  predicate RunsHook(w: Loop, t: Thread) {
    match t
    case TheCaller => w.caller.InHook?
    case TheRoutine(e) => e < |w.lives| && w.lives[e].at.InSelfHook?
  }

  /** At most one thread executes a loop body or a cleanup hook, and never one of each. */
  lemma OneAtATime(w: Loop, s: Thread, t: Thread)
    requires LoopReachable(w)
    requires (RunsBody(w, s) || RunsHook(w, s)) && (RunsBody(w, t) || RunsHook(w, t))
    ensures s == t
  {
    hide LoopReachable;
    LoopReachableOk(w);
  }

  /** A loop is launched only after every earlier one has returned from its body, given up
      its fields, and had exactly one successful cleanup. */
  lemma LaunchFollowsCleanup(w: Loop, earlier: nat)
    requires LoopReachable(w) && w.caller.Spawning? && earlier < w.caller.epoch
    ensures earlier < |w.lives| && (w.lives[earlier].at.Closing? || w.lives[earlier].at.Exited?)
    ensures earlier < |w.cleanups| && w.cleanups[earlier] == 1
  {
    hide LoopReachable;
    LoopReachableOk(w);
  }

  /** An accepted Start finds no earlier loop alive, no cleanup pending and none running. */
  lemma AcceptedMeansClean(w: Loop)
    requires LoopReachable(w) && w.caller.NoCall? && CheckStart(w.fields).Accepted?
    ensures !w.fields.stopHookRunning
    ensures forall e :: 0 <= e < |w.lives| ==> w.lives[e].at.Closing? || w.lives[e].at.Exited?
    ensures forall e :: 0 <= e < |w.cleanups| ==> w.cleanups[e] == 1
  {
    hide LoopReachable;
    LoopReachableOk(w);
  }

  /** The loop of this round has been given up. */
  ghost predicate LoopOver(w: Loop) {
    w.round.Some? && w.round.value < |w.lives| && w.lives[w.round.value].at in {Closing, Exited}
  }

  /** What the state field says: starting exactly while Start is in its hook, running exactly
      while the launched loop has neither been told to stop nor had its exit judged, stopping
      from then until it is given up, and stopped after that. */
  lemma StateTells(w: Loop)
    requires LoopReachable(w)
    ensures w.fields.state == LoopStarting <==> w.caller.InOnStart?
    ensures w.round.Some? ==> w.round.value < |w.lives|
    ensures w.fields.state == LoopRunning <==>
              w.round.Some? && BeforeJudgement(w.lives[w.round.value].at) && !w.lives[w.round.value].requested
    ensures w.fields.state == LoopStopping <==>
              && w.round.Some? && !LoopOver(w)
              && (!BeforeJudgement(w.lives[w.round.value].at) || w.lives[w.round.value].requested)
    ensures w.fields.state == LoopStopped <==> LoopOver(w)
  {
    hide LoopReachable;
    LoopReachableOk(w);
  }

  /** What Start answers. After a launch: accepted iff the loop was given up and its cleanup
      succeeded; refused with the cleanup error iff no cleanup succeeded and either the loop was
      given up or one was attempted; and refused as active iff the loop is not given up and
      that is not so. Before any launch of this round only a cleanup that did not succeed
      stands in the way. */
  lemma StartAnswers(w: Loop, h: Handle)
    requires LoopReachable(w) && w.caller.NoCall?
    ensures w.round.Some? ==> w.round.value < |w.cleanups| && w.cleanups[w.round.value] in {0, 1}
    ensures var attempted := w.fields.stopHookAttempt.Some?;
            var cleaned := if w.round.Some? then w.cleanups[w.round.value] == 1 else w.fields.stopHookComplete;
            var over := w.round.None? || LoopOver(w);
            var pending := !cleaned && (attempted || LoopOver(w));
            match Then(w, CallLoopStart(h)).caller
            case InOnStart(runtime) => runtime == h && over && !pending
            case Returned(Err(LoopCleanup(_)), true) => pending
            case Returned(Err(err), true) => err == WrongState && !over && !pending
            case _ => false
  {
    hide LoopReachable;
    LoopReachableOk(w);
  }

  /** Why Start and Stop must come one at a time: a Stop let in while Start is in its hook
      would find no loop to wait for, and would be free to run the cleanup at once. */
  lemma StopDuringStartWouldClean(w: Loop)
    requires LoopReachable(w) && w.caller.InOnStart?
    ensures StopTarget(w.fields).None? && HookMayRun(w.fields)
  {
    hide LoopReachable;
    LoopReachableOk(w);
  }

  // ---------------------------------------------------------------------------
  // Channels and redundant guards.

  /** No done channel is closed twice. */
  lemma DoneClosesOnce(w: Loop, e: nat)
    requires LoopReachable(w) && CanStep(w, Close(e))
    ensures !w.lives[e].closed
  {
    hide LoopReachable;
    LoopReachableOk(w);
  }

  /** The guards of a goroutine on the current loop always hold. */
  lemma LoopIsCurrent(w: Loop, e: nat)
    requires LoopReachable(w) && (CanStep(w, Finish(e)) || CanStep(w, Judge(e)))
    ensures w.fields.done == Some(e)
  {
    hide LoopReachable;
    LoopReachableOk(w);
  }

  /** No attempt channel is closed twice: whoever ends an attempt ends the current one. */
  lemma AttemptClosesOnce(w: Loop, e: nat)
    requires LoopReachable(w)
    ensures CanStep(w, PublishHook) ==>
              HookIsCurrent(w.fields, w.caller.attempt) && !w.attempts[w.caller.attempt].closed
    ensures CanStep(w, PublishSelfHook(e)) ==>
              HookIsCurrent(w.fields, w.lives[e].at.attempt) && !w.attempts[w.lives[e].at.attempt].closed
  {
    hide LoopReachable;
    LoopReachableOk(w);
  }

  /** A thread that does not get to run the hook finds a published, successful attempt: it
      never dereferences a nil attempt, and never waits for another thread's hook. */
  lemma JoinersNeverWait(w: Loop, e: nat)
    requires LoopReachable(w)
    ensures (CanStep(w, BeginHook) || CanStep(w, BeginSelfHook(e))) && !HookMayRun(w.fields) ==>
              var a := w.fields.stopHookAttempt;
              a.Some? && a.value < |w.attempts| && w.attempts[a.value] == Attempt(true, None)
    ensures w.caller.Joining? ==> CanStep(w, Join) && w.attempts[w.caller.attempt].err.None?
    ensures CanStep(w, BeginSelfHook(e)) ==> HookMayRun(w.fields)
  {
    hide LoopReachable;
    LoopReachableOk(w);
  }

  // ---------------------------------------------------------------------------
  // Exits and reports.

  /** Before a loop is given up and its done channel closed, its body has returned and the exit
      was passed to ReportFailure exactly when it was not intended: it went unreported only if
      a stop was requested, the loop was cancelled, and it returned nil or that cancellation. */
  lemma ExitsAreReported(w: Loop, e: nat)
    requires LoopReachable(w) && e < |w.lives|
    requires w.lives[e].closed || w.lives[e].at.Closing? || w.lives[e].at.Finishing? || w.lives[e].at.Unwound?
    ensures var life := w.lives[e];
            && life.exit.Some?
            && (life.reported <==> !Intended(life))
            && (!life.reported ==>
                  life.requested && life.cancelled && (life.exit.value.None? || life.exit.value == Some(ContextDone)))
  {
    hide LoopReachable;
    LoopReachableOk(w);
    assert LifeOk(w.lives[e]);
  }

  /** A loop's exit is judged to be requested exactly if it had been cancelled by then, for a
      Stop or for a Start that was given up: such an exit is not reported when the loop
      returned nil or the cancellation, and any other is. */
  lemma ExitsAreJudgedByCancellation(w: Loop, e: nat)
    requires LoopReachable(w) && CanStep(w, Judge(e))
    ensures var life := w.lives[e];
            && StopRequested(w.fields, life.cancelled) == life.cancelled
            && (Then(w, Judge(e)).lives[e].at.Finishing? <==>
                  life.cancelled && (life.exit.value.None? || life.exit.value == Some(ContextDone)))
  {
    hide LoopReachable;
    LoopReachableOk(w);
    assert LifeOk(w.lives[e]);
  }

  /** Nothing of the worker executes, its last loop is over, reported if it had to be, and
      cleaned up exactly once. */
  ghost predicate Quiescent(w: Loop) {
    && w.fields.stopHookComplete && !w.fields.stopHookRunning && w.fields.done.None?
    && !CallerHooks(w.caller) && !w.caller.InOnStart? && !w.caller.Spawning?
    && (forall e :: 0 <= e < |w.lives| ==>
          && (w.lives[e].at.Closing? || w.lives[e].at.Exited?)
          && w.lives[e].exit.Some? && (w.lives[e].reported <==> !Intended(w.lives[e])))
    && (forall e :: 0 <= e < |w.cleanups| ==> w.cleanups[e] == 1)
  }

  lemma CompleteIsQuiescent(w: Loop)
    requires LoopOk(w) && w.fields.stopHookComplete && w.fields.done.None?
    ensures Quiescent(w)
  {
    forall e | 0 <= e < |w.lives|
      ensures (w.lives[e].at.Closing? || w.lives[e].at.Exited?) && w.lives[e].exit.Some?
              && (w.lives[e].reported <==> !Intended(w.lives[e]))
    {
      assert LifeOk(w.lives[e]);
    }
  }

  /** Stop returns nil only when the worker is quiescent. */
  lemma StopNilMeansQuiescent(w: Loop)
    requires LoopReachable(w) && w.caller == Returned(Nil, false)
    ensures Quiescent(w)
  {
    hide LoopReachable, Quiescent;
    LoopReachableOk(w);
    CompleteIsQuiescent(w);
  }

  /** A quiescent worker stays so until Start is called; the goroutine of its last loop may
      still close its channel. */
  lemma QuiescenceLasts(w: Loop, l: Step)
    requires LoopReachable(w) && Quiescent(w) && CanStep(w, l) && !l.CallLoopStart?
    ensures Quiescent(Then(w, l))
  {
    hide LoopReachable, Quiescent, LoopOk;
    LoopReachableOk(w);
    StepKeepsLoopOk(w, l);
    StaysComplete(w, l);
    CompleteIsQuiescent(Then(w, l));
  }

  lemma StaysComplete(w: Loop, l: Step)
    requires LoopOk(w) && Quiescent(w) && CanStep(w, l) && !l.CallLoopStart?
    ensures Then(w, l).fields.stopHookComplete && Then(w, l).fields.done.None?
  {
  }
}
