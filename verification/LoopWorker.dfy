/** loop.go as code: the LoopWorker class with its mutex-guarded helpers, Start and Stop, and
    the goroutine of a loop, with the other threads stepping in between. */
module WorkerkitLoop {
  import opened Basics
  import Loops = LoopSteps
  import opened LoopInvariant
  import opened LoopResults

  class LoopWorker {
    const autoReady: bool
    const crashOnPanic: bool

    // The fields the mutex guards.
    var state: Loops.LoopState
    var cancel: Option<nat>
    var done: Option<nat>
    var runtime: Option<Loops.Handle>
    var stopHookRunning: bool
    var stopHookComplete: bool
    var stopHookAttempt: Option<nat>

    // The attempts made so far, and where every thread is.
    var attempts: seq<Loops.Attempt>
    var caller: Loops.Caller
    var lives: seq<Loops.Life>
    var cleanups: seq<nat>
    var round: Option<nat>

    function Fields(): Loops.Fields
      reads this
    {
      Loops.Fields(state, cancel, done, runtime, stopHookRunning, stopHookComplete, stopHookAttempt)
    }

    function View(): Loops.Loop
      reads this
    {
      Loops.Loop(autoReady, crashOnPanic, Fields(), attempts, caller, lives, cleanups, round)
    }

    /** The object is in a state some run of the step system reaches. */
    ghost predicate Valid()
      reads this
    {
      LoopReachable(View())
    }

    constructor (autoReady: bool, crashOnPanic: bool)
      ensures Valid() && View() == Loops.NewLoop(autoReady, crashOnPanic)
    {
      NewLoopReachable(autoReady, crashOnPanic);
      this.autoReady, this.crashOnPanic := autoReady, crashOnPanic;
      state, cancel, done, runtime := Loops.LoopIdle, None, None, None;
      stopHookRunning, stopHookComplete, stopHookAttempt := false, false, None;
      attempts, caller, lives := [], Loops.NoCall, [];
      cleanups, round := [], None;
    }

    // -------------------------------------------------------------------------
    // The mutex-guarded helpers.

    method BeginStart() returns (check: Loops.StartCheck)
      modifies this`state, this`stopHookRunning, this`stopHookComplete, this`stopHookAttempt
      ensures check == Loops.CheckStart(old(Fields()))
      ensures Fields() == if check.Accepted? then Loops.BeginStart(old(Fields())) else old(Fields())
    {
      if !stopHookComplete && (stopHookAttempt.Some? || state == Loops.LoopStopped) {
        return Loops.CleanupPending;
      }
      if state == Loops.LoopStarting || state == Loops.LoopRunning || state == Loops.LoopStopping {
        return Loops.Active;
      }
      state := Loops.LoopStarting;
      stopHookRunning, stopHookComplete, stopHookAttempt := false, false, None;
      return Loops.Accepted;
    }

    method FinishStart(handle: Loops.Handle, epoch: nat)
      modifies this`runtime, this`cancel, this`done, this`state
      ensures Fields() == Loops.FinishStart(old(Fields()), handle, epoch)
    {
      runtime := Some(handle);
      cancel := Some(epoch);
      done := Some(epoch);
      state := Loops.LoopRunning;
    }

    method FinishFailedStart()
      modifies this`state
      ensures Fields() == Loops.FinishFailedStart(old(Fields()))
    {
      state := Loops.LoopIdle;
    }

    method BeginStop() returns (target: Option<nat>)
      modifies this`state
      ensures target == Loops.StopTarget(old(Fields()))
      ensures Fields() == Loops.BeginStop(old(Fields()))
    {
      if cancel.None? || done.None? {
        return None;
      }
      match state {
        case LoopRunning => state := Loops.LoopStopping;
        case LoopStopping =>
        case _ => return None;
      }
      return done;
    }

    method MarkStopping(epoch: nat)
      modifies this`state
      ensures Fields() == Loops.MarkStopping(old(Fields()), epoch)
    {
      if done == Some(epoch) {
        state := Loops.LoopStopping;
      }
    }

    method JudgeExit(epoch: nat, cancelled: bool) returns (stopRequested: bool)
      modifies this`state
      ensures stopRequested == Loops.StopRequested(old(Fields()), cancelled)
      ensures Fields() == Loops.JudgeExit(old(Fields()), epoch, cancelled)
    {
      stopRequested := state == Loops.LoopStopping && cancelled;
      if done == Some(epoch) && !stopRequested {
        state := Loops.LoopStopping;
      }
    }

    method FinishLoop(epoch: nat)
      modifies this`cancel, this`done, this`runtime, this`state
      ensures Fields() == Loops.FinishLoop(old(Fields()), epoch)
    {
      if done == Some(epoch) {
        cancel := None;
        done := None;
        runtime := None;
        state := Loops.LoopStopped;
      }
    }

    method BeginStopHook() returns (attempt: Option<nat>, run: bool)
      modifies this`stopHookAttempt, this`stopHookRunning, this`attempts
      ensures run <==> Loops.HookMayRun(old(Fields()))
      ensures attempt == if run then Some(old(|attempts|)) else old(stopHookAttempt)
      ensures Fields() == Loops.BeginStopHook(old(Fields()), old(|attempts|))
      ensures attempts == if run then old(attempts) + [Loops.Attempt(false, None)] else old(attempts)
    {
      if stopHookComplete {
        return stopHookAttempt, false;
      }
      if stopHookRunning {
        return stopHookAttempt, false;
      }
      attempt := Some(|attempts|);
      attempts := attempts + [Loops.Attempt(false, None)];
      stopHookAttempt := attempt;
      stopHookRunning := true;
      run := true;
    }

    method FinishStopHook(attempt: nat, err: Option<Error>)
      requires attempt < |attempts|
      modifies this`stopHookRunning, this`stopHookComplete, this`attempts
      ensures Fields() == Loops.FinishStopHook(old(Fields()), attempt, err)
      ensures attempts == if Loops.HookIsCurrent(old(Fields()), attempt)
                          then old(attempts)[attempt := Loops.Attempt(true, err)] else old(attempts)
    {
      if stopHookAttempt == Some(attempt) && stopHookRunning {
        attempts := attempts[attempt := Loops.Attempt(true, err)];
        stopHookRunning := false;
        stopHookComplete := err.None?;
      }
    }

    // -------------------------------------------------------------------------
    // Every step of the step system, carried out by the code above.

    method StepUp(l: Loops.Step)
      requires Loops.CanStep(View(), l) && IsUpStep(l)
      modifies this
      ensures View() == Loops.Then(old(View()), l)
    {
      match l {
        case CallLoopStart(handle) =>
          var check := BeginStart();
          match check {
            case Accepted => caller, round := Loops.InOnStart(handle), None;
            case CleanupPending => caller := Loops.Returned(Loops.Err(LoopCleanup(0)), true);
            case Active => caller := Loops.Returned(Loops.Err(WrongState), true);
          }
        case OnStart(result) =>
          if result.Nil? {
            var epoch := |lives|;
            lives := lives + [Loops.Life(caller.runtime, Loops.Unspawned, false, false, None, None, false, false)];
            FinishStart(caller.runtime, epoch);
            cleanups, round := cleanups + [0], Some(epoch);
            caller := Loops.Spawning(epoch);
          } else {
            FinishFailedStart();
            caller := Loops.Returned(result, true);
          }
        case Spawn =>
          lives := lives[caller.epoch := lives[caller.epoch].(at := Loops.Body)];
          caller := if autoReady then Loops.Readying(caller.epoch) else Loops.Returned(Loops.Nil, true);
        case Ready(ok) =>
          caller := if ok then Loops.Returned(Loops.Nil, true) else Loops.Marking(caller.epoch);
      }
    }

    method StepDown(l: Loops.Step)
      requires Loops.CanStep(View(), l) && IsDownStep(l)
      modifies this
      ensures View() == Loops.Then(old(View()), l)
    {
      match l {
        case CallLoopStop =>
          var before := Fields();
          if Loops.StopTarget(before).Some? && Loops.StopTarget(before).value >= |lives| {
            caller := Loops.Cleaning(false);
            return;
          }
          var target := BeginStop();
          if target.Some? {
            lives := lives[target.value := lives[target.value].(requested := true)];
            caller := Loops.Cancelling(target.value, false);
          } else {
            caller := Loops.Cleaning(false);
          }
        case Mark =>
          var epoch := caller.epoch;
          lives := lives[epoch := lives[epoch].(requested := true)];
          MarkStopping(epoch);
          caller := Loops.Cancelling(epoch, true);
        case Cancel =>
          var epoch := caller.epoch;
          lives := lives[epoch := lives[epoch].(cancelled := true)];
          caller := Loops.Waiting(epoch, caller.inStart);
        case SeeDone => caller := Loops.Cleaning(caller.inStart);
        case GiveUp =>
          caller := Loops.Returned(Loops.Err(if caller.inStart then WrongState else ContextDone), caller.inStart);
        case NoHandle => caller := Loops.Returned(Loops.Err(WrongState), false);
      }
    }

    method StepCleanup(l: Loops.Step)
      requires Loops.CanStep(View(), l) && IsCleanupStep(l)
      modifies this
      ensures View() == Loops.Then(old(View()), l)
    {
      match l {
        case BeginHook =>
          var attempt, run := BeginStopHook();
          var joined := if attempt.Some? then attempt.value else 0;
          caller := if run then Loops.InHook(joined, caller.inStart) else Loops.Joining(joined, caller.inStart);
        case HookReturns(result) =>
          caller := Loops.Publishing(caller.attempt, result, caller.inStart);
        case PublishHook =>
          var result := if caller.result.Panic? then Loops.Panic else Loops.AsReturn(Loops.HookError(caller.result));
          cleanups := Loops.PublishAttempt(View(), caller.attempt, caller.result).cleanups;
          FinishStopHook(caller.attempt, Loops.HookError(caller.result));
          caller := Loops.Returned(Loops.AfterCleanup(result, caller.inStart), caller.inStart);
        case Join =>
          var result := Loops.AsReturn(attempts[caller.attempt].err);
          caller := Loops.Returned(Loops.AfterCleanup(result, caller.inStart), caller.inStart);
        case TakeResult => caller := Loops.NoCall;
      }
    }

    method StepExit(l: Loops.Step)
      requires Loops.CanStep(View(), l) && IsExitStep(l)
      modifies this
      ensures View() == Loops.Then(old(View()), l)
    {
      var life := lives[l.epoch];
      match l {
        case BodyReturns(epoch, err) =>
          lives := lives[epoch := life.(exit := Some(err), at := Loops.Judging)];
        case Judge(epoch) =>
          var stopRequested := JudgeExit(epoch, life.cancelled);
          var intentional := stopRequested && Loops.IntentionalLoopStop(life.exit.value, Some(ContextDone));
          lives := lives[epoch := life.(judged := Some(stopRequested),
                at := if intentional then Loops.Finishing else Loops.Reporting)];
        case Report(epoch) =>
          lives := lives[epoch := life.(reported := true, at := Loops.SelfCleaning)];
      }
    }

    method StepSelfHook(l: Loops.Step)
      requires Loops.CanStep(View(), l) && (l.BeginSelfHook? || l.SelfHookReturns?)
      modifies this
      ensures View() == Loops.Then(old(View()), l)
    {
      match l {
        case BeginSelfHook(epoch) =>
          var attempt, run := BeginStopHook();
          var joined := if attempt.Some? then attempt.value else 0;
          lives := lives[epoch := lives[epoch].(at := if run then Loops.InSelfHook(joined)
              else Loops.SelfJoining(joined))];
        case SelfHookReturns(epoch, result) =>
          lives := lives[epoch := lives[epoch].(at := Loops.SelfPublishing(lives[epoch].at.attempt, result))];
      }
    }

    method StepPublishSelf(l: Loops.Step)
      requires Loops.CanStep(View(), l) && l.PublishSelfHook?
      modifies this
      ensures View() == Loops.Then(old(View()), l)
    {
      var at := lives[l.epoch].at;
      cleanups := Loops.PublishAttempt(View(), at.attempt, at.result).cleanups;
      FinishStopHook(at.attempt, Loops.HookError(at.result));
      var next := if at.result.Nil? then Loops.Finishing else Loops.Telling(at.result);
      lives := lives[l.epoch := lives[l.epoch].(at := next)];
    }

    method StepTell(l: Loops.Step)
      requires Loops.CanStep(View(), l) && (l.SelfJoin? || l.SelfTimeout? || l.Tell?)
      modifies this
      ensures View() == Loops.Then(old(View()), l)
    {
      match l {
        case SelfJoin(epoch) =>
          var err := attempts[lives[epoch].at.attempt].err;
          lives := lives[epoch := lives[epoch].(at := if err.None? then Loops.Finishing
              else Loops.Telling(Loops.Err(err.value)))];
        case SelfTimeout(epoch) =>
          lives := lives[epoch := lives[epoch].(at := Loops.Telling(Loops.Err(ContextDone)))];
        case Tell(epoch) =>
          var crash := lives[epoch].at.result.Panic? && crashOnPanic;
          lives := lives[epoch := lives[epoch].(at := if crash then Loops.Unwound else Loops.Finishing)];
      }
    }

    method StepFinish(l: Loops.Step)
      requires Loops.CanStep(View(), l) && (l.Finish? || l.Close?)
      modifies this
      ensures View() == Loops.Then(old(View()), l)
    {
      match l {
        case Finish(epoch) =>
          FinishLoop(epoch);
          lives := lives[epoch := lives[epoch].(at := Loops.Closing)];
        case Close(epoch) =>
          lives := lives[epoch := lives[epoch].(closed := true, at := Loops.Exited)];
      }
    }

    /** Any step that can be taken, carried out by the code. */
    method Step(l: Loops.Step)
      requires Valid() && Loops.CanStep(View(), l)
      modifies this
      ensures Valid() && View() == Loops.Then(old(View()), l)
    {
      hide LoopReachable, Loops.CanStep, Loops.Then;
      LoopStepStaysReachable(View(), l);
      if IsUpStep(l) {
        StepUp(l);
      } else if IsDownStep(l) {
        StepDown(l);
      } else if IsCleanupStep(l) {
        StepCleanup(l);
      } else if IsExitStep(l) {
        StepExit(l);
      } else if l.BeginSelfHook? || l.SelfHookReturns? {
        StepSelfHook(l);
      } else if l.PublishSelfHook? {
        StepPublishSelf(l);
      } else if l.SelfJoin? || l.SelfTimeout? || l.Tell? {
        StepTell(l);
      } else {
        StepFinish(l);
      }
    }

    // -------------------------------------------------------------------------
    // Start and Stop, with the goroutines stepping in between.

    /** Any number of steps by goroutines. */
    method Goroutines()
      requires Valid()
      modifies this
      ensures Valid() && caller == old(caller) && |lives| == old(|lives|)
      ensures CallerCleans(caller) ==> Fields() == old(Fields()) && attempts == old(attempts)
    {
      hide LoopReachable, Loops.CanStep, Loops.Then;
      var steps: nat := *;
      while steps > 0
        invariant Valid() && caller == old(caller) && |lives| == old(|lives|)
        invariant CallerCleans(caller) ==> Fields() == old(Fields()) && attempts == old(attempts)
      {
        var l: Loops.Step := *;
        if !Loops.IsCallerStep(l) && Loops.CanStep(View(), l) {
          RoutineKeepsCaller(View(), l);
          if CallerCleans(caller) {
            RoutinesAreDone(View(), l);
          }
          Step(l);
        }
        steps := steps - 1;
      }
    }

    /** The goroutines step until the loop is over or the context is done, and the context may be
        done in either case. A loop that does not end while the context lasts keeps its Stop
        waiting; this is about the waits that end. */
    method UntilOver(ctx: Context, epoch: nat)
      requires Valid() && epoch < |lives|
      modifies this, ctx
      ensures Valid() && caller == old(caller) && |lives| == old(|lives|)
      ensures lives[epoch].closed || ctx.cancelled
      ensures old(ctx.cancelled) ==> ctx.cancelled
    {
      hide LoopReachable;
      Goroutines();
      var expired: bool := *;
      if expired || !lives[epoch].closed {
        ctx.cancelled := true;
      }
    }

    /** Waits for the cancelled loop to be over, or gives up when the context is done. */
    method WaitDone(ctx: Context)
      requires Valid() && caller.Waiting? && caller.epoch < |lives|
      modifies this, ctx
      ensures Valid() && |lives| == old(|lives|)
      ensures caller == Loops.Cleaning(old(caller.inStart))
              || (ctx.cancelled && caller == Loops.Returned(GivenUp(old(caller.inStart)), old(caller.inStart)))
      ensures old(ctx.cancelled) ==> ctx.cancelled
    {
      hide LoopReachable, Loops.RoutineStep, Loops.StartAttempt, Loops.PublishAttempt;
      UntilOver(ctx, caller.epoch);
      var contextFirst: bool := *;
      if lives[caller.epoch].closed && !(ctx.cancelled && contextFirst) {
        Step(Loops.SeeDone);
      } else {
        Step(Loops.GiveUp);
      }
    }

    /** runStopHook: unless an attempt has succeeded, runs the hook as one new attempt, publishes
        how it came back and returns that; otherwise joins that attempt. */
    method RunStopHook(ctx: Context, hook: Loops.Return) returns (ran: bool)
      requires Valid() && caller.Cleaning?
      modifies this, ctx
      ensures Valid() && |lives| == old(|lives|)
      ensures caller.Returned? && caller.inStart == old(caller.inStart)
      ensures ran <==> !old(stopHookComplete)
      ensures if ran then |attempts| == old(|attempts|) + 1 && attempts[old(|attempts|)] == Published(hook)
              else attempts == old(attempts)
      ensures if ran then stopHookComplete <==> hook.Nil? else stopHookComplete
      ensures ran ==> caller.result == Loops.AfterCleanup(HookReturn(hook), caller.inStart)
      ensures !ran ==> caller.result == Loops.AfterCleanup(Loops.Nil, caller.inStart)
                       || (ctx.cancelled && caller.result == GivenUp(caller.inStart))
      ensures old(ctx.cancelled) ==> ctx.cancelled
    {
      hide LoopReachable, Loops.CanStep, Loops.Then;
      BeginHookLeads(View());
      ran := !stopHookComplete;
      Step(Loops.BeginHook);
      Goroutines();
      if caller.InHook? {
        HookReturnsLeads(View(), hook);
        Step(Loops.HookReturns(hook));
        Goroutines();
        PublishHookLeads(View());
        Step(Loops.PublishHook);
      } else {
        var expired: bool := *;
        if expired {
          ctx.cancelled := true;
        }
        var contextFirst: bool := *;
        var next := if ctx.cancelled && contextFirst then Loops.GiveUp else Loops.Join;
        JoinLeads(View(), next);
        Step(next);
      }
    }

    /** Start, given how onStart and its other preparations come back, whether the worker can be
        marked ready, and how the cleanup hook comes back should it be called. A Start that is
        refused or not prepared launches no loop; any other launches exactly one. The result is
        nil iff the loop was launched and, with auto-ready, marked ready. */
    method Start(handle: Loops.Handle, ctx: Context, prepared: Loops.Return, markedReady: bool, hook: Loops.Return)
      returns (result: Loops.Return)
      requires Valid() && caller.NoCall?
      modifies this, ctx
      ensures Valid() && caller.NoCall?
      ensures |lives| == old(|lives|) + if Loops.CheckStart(old(Fields())).Accepted? && prepared.Nil? then 1 else 0
      ensures StartReturns(Loops.CheckStart(old(Fields())), autoReady, prepared, markedReady, hook, result)
    {
      hide LoopReachable, Loops.RoutineStep, Loops.StartAttempt, Loops.PublishAttempt;
      Bring(handle, ctx, prepared, markedReady, hook);
      result := caller.result;
      Step(Loops.TakeResult);
    }

    method Bring(handle: Loops.Handle, ctx: Context, prepared: Loops.Return, markedReady: bool, hook: Loops.Return)
      requires Valid() && caller.NoCall?
      modifies this, ctx
      ensures Valid() && caller.Returned? && caller.inStart
      ensures |lives| == old(|lives|) + if Loops.CheckStart(old(Fields())).Accepted? && prepared.Nil? then 1 else 0
      ensures StartReturns(Loops.CheckStart(old(Fields())), autoReady, prepared, markedReady, hook, caller.result)
    {
      hide LoopReachable, Loops.CanStep, Loops.Then, Loops.CheckStart;
      CallLoopStartLeads(View(), handle);
      Step(Loops.CallLoopStart(handle));
      if caller.Returned? {
        return;
      }
      Goroutines();
      OnStartLeads(View(), prepared);
      Step(Loops.OnStart(prepared));
      if caller.Returned? {
        return;
      }
      Goroutines();
      SpawnLeads(View());
      Step(Loops.Spawn);
      Goroutines();
      if !autoReady {
        return;
      }
      ReadyLeads(View(), markedReady);
      Step(Loops.Ready(markedReady));
      if !markedReady {
        AbortStart(ctx, hook);
      }
    }

    /** Brings a loop down again that could not be marked ready. */
    method AbortStart(ctx: Context, hook: Loops.Return)
      requires Valid() && caller.Marking?
      modifies this, ctx
      ensures Valid() && caller.Returned? && caller.inStart && |lives| == old(|lives|)
      ensures caller.result == Loops.Err(WrongState) || (caller.result.Panic? && hook.Panic?)
    {
      hide LoopReachable, Loops.RoutineStep, Loops.StartAttempt, Loops.PublishAttempt;
      Goroutines();
      EpochKnown(View());
      Step(Loops.Mark);
      Goroutines();
      Step(Loops.Cancel);
      WaitDone(ctx);
      if caller.Returned? {
        return;
      }
      Goroutines();
      var _ := RunStopHook(ctx, hook);
    }

    /** Stop, given whether its context carries a handle, and how the cleanup hook comes back
        should it be called: nil means that the worker is quiescent. An error means that the
        context is done; or that there was neither a loop nor a handle; or that the hook was
        called and failed or panicked, and then the last attempt tells. No loop is launched. */
    method Stop(ctx: Context, available: bool, hook: Loops.Return) returns (result: Loops.Return)
      requires Valid() && caller.NoCall?
      modifies this, ctx
      ensures Valid() && caller.NoCall? && |lives| == old(|lives|)
      ensures result.Nil? ==> Quiescent(View())
      ensures StopReturns(ctx.cancelled, available || old(runtime).Some?, hook, stopHookComplete, attempts, result)
    {
      hide LoopReachable, Quiescent, Loops.CanStep, Loops.Then;
      TakeDown(ctx, available, hook);
      result := caller.result;
      TakeResultLeads(View());
      if result.Nil? {
        StopNilMeansQuiescent(View());
        QuiescenceLasts(View(), Loops.TakeResult);
      }
      Step(Loops.TakeResult);
    }

    method TakeDown(ctx: Context, available: bool, hook: Loops.Return)
      requires Valid() && caller.NoCall?
      modifies this, ctx
      ensures Valid() && caller.Returned? && !caller.inStart && |lives| == old(|lives|)
      ensures StopReturns(ctx.cancelled, available || old(runtime).Some?, hook, stopHookComplete, attempts,
                          caller.result)
    {
      hide LoopReachable, Quiescent, Loops.CanStep, Loops.Then, HookReturn, Published;
      var known := runtime.Some?;
      CallLoopStopLeads(View());
      Step(Loops.CallLoopStop);
      Goroutines();
      if caller.Cancelling? {
        CancelLeads(View());
        Step(Loops.Cancel);
        WaitDone(ctx);
      }
      if caller.Cleaning? {
        Goroutines();
        if known || available {
          ghost var before := |attempts|;
          var ran := RunStopHook(ctx, hook);
          HookDecides(ctx.cancelled, hook, stopHookComplete, attempts, before, ran, caller.result);
        } else {
          NoHandleLeads(View());
          Step(Loops.NoHandle);
        }
      }
    }

    // -------------------------------------------------------------------------
    // The goroutine of one loop, with the caller and other goroutines stepping in between.

    /** Any number of steps by other threads. */
    method OtherThreads(epoch: nat)
      requires Valid() && epoch < |lives| && !lives[epoch].at.Unspawned?
      modifies this
      ensures Valid() && epoch < |lives| && lives[epoch].at == old(lives)[epoch].at
    {
      hide LoopReachable, Loops.CanStep, Loops.Then;
      var steps: nat := *;
      while steps > 0
        invariant Valid() && epoch < |lives| && lives[epoch].at == old(lives)[epoch].at
      {
        var l: Loops.Step := *;
        if IsOthers(l, epoch) && Loops.CanStep(View(), l) {
          OthersKeepRoutine(View(), l, epoch);
          Step(l);
        }
        steps := steps - 1;
      }
    }

    /** runFailureStopHook: the cleanup a failed loop makes on its own. */
    method RunFailureStopHook(epoch: nat)
      requires Valid() && epoch < |lives| && lives[epoch].at.SelfCleaning?
      modifies this
      ensures Valid() && epoch < |lives| && (lives[epoch].at.Finishing? || (crashOnPanic && lives[epoch].at.Unwound?))
    {
      hide LoopReachable, Loops.CanStep, Loops.Then;
      var attempt := |attempts|;
      BeginSelfHookLeads(View(), epoch);
      Step(Loops.BeginSelfHook(epoch));
      OtherThreads(epoch);
      var result: Loops.Return := *;
      SelfHookReturnsLeads(View(), epoch, attempt, result);
      Step(Loops.SelfHookReturns(epoch, result));
      OtherThreads(epoch);
      PublishSelfHookLeads(View(), epoch, attempt, result);
      Step(Loops.PublishSelfHook(epoch));
      OtherThreads(epoch);
      if lives[epoch].at.Telling? {
        TellLeads(View(), epoch, result);
        Step(Loops.Tell(epoch));
      }
    }

    /** runLoop: when it is over the done channel is closed and the exit was reported exactly
        if it was not intended, unless a cleanup panic was re-raised. */
    method RunLoop(epoch: nat)
      requires Valid() && epoch < |lives| && lives[epoch].at.Body?
      modifies this
      ensures Valid() && epoch < |lives|
      ensures lives[epoch].at.Exited? || (crashOnPanic && lives[epoch].at.Unwound?)
      ensures lives[epoch].at.Exited? ==> lives[epoch].closed
      ensures lives[epoch].exit.Some? && (lives[epoch].reported <==> !Intended(lives[epoch]))
    {
      hide LoopReachable, Loops.CanStep, Loops.Then, Intended;
      OtherThreads(epoch);
      var err: Option<Error> := *;
      BodyReturnsLeads(View(), epoch, err);
      Step(Loops.BodyReturns(epoch, err));
      OtherThreads(epoch);
      JudgeLeads(View(), epoch);
      Step(Loops.Judge(epoch));
      OtherThreads(epoch);
      if lives[epoch].at.Reporting? {
        ReportLeads(View(), epoch);
        Step(Loops.Report(epoch));
        OtherThreads(epoch);
        RunFailureStopHook(epoch);
        if lives[epoch].at.Unwound? {
          ExitsAreReported(View(), epoch);
          return;
        }
      }
      GiveUpLoop(epoch);
    }

    /** finishLoop: gives the fields up and closes the done channel. */
    method GiveUpLoop(epoch: nat)
      requires Valid() && epoch < |lives| && lives[epoch].at.Finishing?
      modifies this
      ensures Valid() && epoch < |lives| && lives[epoch].at.Exited? && lives[epoch].closed
      ensures lives[epoch].exit.Some? && (lives[epoch].reported <==> !Intended(lives[epoch]))
    {
      hide LoopReachable, Loops.CallerStep, Loops.StartAttempt, Loops.PublishAttempt, Intended;
      OtherThreads(epoch);
      RoutineKnown(View(), epoch);
      Step(Loops.Finish(epoch));
      OtherThreads(epoch);
      RoutineKnown(View(), epoch);
      Step(Loops.Close(epoch));
      ExitsAreReported(View(), epoch);
    }
  }

  // ---------------------------------------------------------------------------
  // What the threads know of each other.

  lemma RoutineKeepsCaller(w: Loops.Loop, l: Loops.Step)
    requires Loops.CanStep(w, l) && !Loops.IsCallerStep(l)
    ensures Loops.Then(w, l).caller == w.caller && |Loops.Then(w, l).lives| == |w.lives|
  {
  }

  /** Once the caller is at the cleanup, goroutines only close the channels of loops that are
      over. */
  lemma RoutinesAreDone(w: Loops.Loop, l: Loops.Step)
    requires LoopReachable(w) && CallerCleans(w.caller) && Loops.CanStep(w, l) && !Loops.IsCallerStep(l)
    ensures Loops.Then(w, l).fields == w.fields && Loops.Then(w, l).attempts == w.attempts
  {
    hide LoopReachable, EpochsOk, HooksOk, AttemptsOk, CleanupsOk, LivesOk, ReturnOk;
    LoopReachableOk(w);
    assert !IsLive(w.lives[l.epoch].at);
  }

  /** A step of any thread but the goroutine of this epoch. */
  predicate IsOthers(l: Loops.Step, epoch: nat) {
    Loops.IsCallerStep(l) || l.epoch != epoch
  }

  lemma OthersKeepRoutine(w: Loops.Loop, l: Loops.Step, epoch: nat)
    requires LoopReachable(w) && Loops.CanStep(w, l) && IsOthers(l, epoch)
    requires epoch < |w.lives| && !w.lives[epoch].at.Unspawned?
    ensures epoch < |Loops.Then(w, l).lives| && Loops.Then(w, l).lives[epoch].at == w.lives[epoch].at
  {
    hide LoopReachable, LiveOk, HooksOk, AttemptsOk, CleanupsOk, LivesOk, ReturnOk;
    LoopReachableOk(w);
  }

  lemma EpochKnown(w: Loops.Loop)
    requires LoopReachable(w) && (w.caller.Marking? || w.caller.Cancelling? || w.caller.Waiting?)
    ensures w.caller.epoch < |w.lives|
  {
    hide LoopReachable;
    LoopReachableOk(w);
  }

  /** A goroutine's next step is possible. */
  lemma RoutineKnown(w: Loops.Loop, epoch: nat)
    requires LoopReachable(w) && epoch < |w.lives|
    ensures epoch < |w.lives|
    ensures w.lives[epoch].at.Judging? ==> w.lives[epoch].exit.Some?
    ensures w.lives[epoch].at.SelfPublishing? ==> w.lives[epoch].at.attempt < |w.attempts|
  {
    hide LoopReachable;
    LoopReachableOk(w);
  }

  // What calls return.

  /** What a refused Start returns. */
  function Refusal(check: Loops.StartCheck): Loops.Return {
    Loops.Err(if check.CleanupPending? then LoopCleanup(0) else WrongState)
  }

  /** What a call returns that gave up waiting. */
  function GivenUp(inStart: bool): Loops.Return {
    Loops.Err(if inStart then WrongState else ContextDone)
  }

  /** How a cleanup hook that came back like this is published, and returned. */
  function Published(hook: Loops.Return): Loops.Attempt {
    Loops.Attempt(true, Loops.HookError(hook))
  }

  function HookReturn(hook: Loops.Return): Loops.Return {
    if hook.Panic? then hook else Loops.AsReturn(Loops.HookError(hook))
  }

  predicate StartReturns(check: Loops.StartCheck, autoReady: bool, prepared: Loops.Return, markedReady: bool,
                         hook: Loops.Return, result: Loops.Return) {
    if !check.Accepted? then result == Refusal(check)
    else if !prepared.Nil? then result == prepared
    else if !autoReady || markedReady then result.Nil?
    else result == Loops.Err(WrongState) || (result.Panic? && hook.Panic?)
  }

  /** What Stop returns, by its context, whether it had a handle, how the hook came back if it
      was called, and where the cleanup attempts stand then. */
  predicate StopReturns(cancelled: bool, handle: bool, hook: Loops.Return, complete: bool,
                        attempts: seq<Loops.Attempt>, result: Loops.Return) {
    || result.Nil?
    || (result == Loops.Err(ContextDone) && cancelled)
    || (result == Loops.Err(WrongState) && !handle)
    || (!hook.Nil? && result == HookReturn(hook) && !complete
        && attempts != [] && attempts[|attempts| - 1] == Published(hook))
  }

  /** What an answer of Stop tells: the context was done, there was no handle, or the hook was
      called and came back with an error or a panic, and then the last attempt is closed with a
      cleanup error and none has succeeded. */
  lemma StopAnswers(cancelled: bool, handle: bool, hook: Loops.Return, complete: bool, attempts: seq<Loops.Attempt>,
                    result: Loops.Return)
    requires StopReturns(cancelled, handle, hook, complete, attempts, result)
    ensures match result
            case Nil => true
            case Panic => hook.Panic?
            case Err(LoopCleanup(id)) => hook.Err? && (hook.err == Private(id) || (!hook.err.Private? && id == 0))
            case Err(ContextDone) => cancelled
            case Err(err) => err == WrongState && !handle
    ensures result.Panic? || (result.Err? && result.err.LoopCleanup?) ==>
              && !complete && attempts != []
              && var last := attempts[|attempts| - 1];
                 last.closed && last.err.Some? && last.err.value.LoopCleanup?
  {
  }

  /** Start returns nil exactly if it was accepted, prepared and, with auto-ready, marked ready;
      it is left by a panic only if one of its hooks panicked; and a cleanup error as its own
      answer means that it was refused, or prepared with that error. */
  lemma StartAnswersTell(check: Loops.StartCheck, autoReady: bool, prepared: Loops.Return, markedReady: bool,
                         hook: Loops.Return, result: Loops.Return)
    requires StartReturns(check, autoReady, prepared, markedReady, hook, result)
    ensures result.Nil? <==> check.Accepted? && prepared.Nil? && (!autoReady || markedReady)
    ensures result.Panic? ==> check.Accepted? && (prepared.Panic? || (prepared.Nil? && hook.Panic?))
    ensures check.CleanupPending? ==> result == Loops.Err(LoopCleanup(0))
    ensures check.Active? ==> result == Loops.Err(WrongState)
    ensures result.Err? && result.err.LoopCleanup? ==>
              check.CleanupPending? || (check.Accepted? && result == prepared)
  {
  }

  lemma HookDecides(cancelled: bool, hook: Loops.Return, complete: bool, attempts: seq<Loops.Attempt>, before: nat,
                    ran: bool, result: Loops.Return)
    requires ran ==> |attempts| == before + 1 && attempts[before] == Published(hook) && (complete <==> hook.Nil?)
    requires ran ==> result == Loops.AfterCleanup(HookReturn(hook), false)
    requires !ran ==> result == Loops.AfterCleanup(Loops.Nil, false) || (cancelled && result == GivenUp(false))
    ensures StopReturns(cancelled, true, hook, complete, attempts, result)
  {
  }

  // Where the next step of a thread leads.

  /** The caller came to be where it is, in the same call, with no loop launched. */
  ghost predicate LedTo(w: Loops.Loop, w': Loops.Loop, caller: Loops.Caller) {
    w'.caller == caller && |w'.lives| == |w.lives|
  }

  lemma CallLoopStartLeads(w: Loops.Loop, handle: Loops.Handle)
    requires w.caller.NoCall?
    ensures Loops.CanStep(w, Loops.CallLoopStart(handle))
    ensures var w' := Loops.Then(w, Loops.CallLoopStart(handle));
            LedTo(w, w', w'.caller) &&
            if Loops.CheckStart(w.fields).Accepted? then w'.caller == Loops.InOnStart(handle)
            else w'.caller == Loops.Returned(Refusal(Loops.CheckStart(w.fields)), true)
  {
  }

  lemma OnStartLeads(w: Loops.Loop, result: Loops.Return)
    requires w.caller.InOnStart?
    ensures Loops.CanStep(w, Loops.OnStart(result))
    ensures var w' := Loops.Then(w, Loops.OnStart(result));
            if result.Nil? then w'.caller == Loops.Spawning(|w.lives|) && |w'.lives| == |w.lives| + 1
            else LedTo(w, w', Loops.Returned(result, true))
  {
  }

  lemma SpawnLeads(w: Loops.Loop)
    requires LoopReachable(w) && w.caller.Spawning?
    ensures Loops.CanStep(w, Loops.Spawn)
    ensures var w' := Loops.Then(w, Loops.Spawn);
            LedTo(w, w', if w.autoReady then Loops.Readying(w.caller.epoch) else Loops.Returned(Loops.Nil, true))
  {
    hide LoopReachable;
    LoopReachableOk(w);
  }

  lemma ReadyLeads(w: Loops.Loop, ok: bool)
    requires w.caller.Readying?
    ensures Loops.CanStep(w, Loops.Ready(ok))
    ensures var w' := Loops.Then(w, Loops.Ready(ok));
            LedTo(w, w', if ok then Loops.Returned(Loops.Nil, true) else Loops.Marking(w.caller.epoch))
  {
  }

  lemma BeginHookLeads(w: Loops.Loop)
    requires LoopReachable(w) && w.caller.Cleaning?
    ensures Loops.CanStep(w, Loops.BeginHook)
    ensures var w' := Loops.Then(w, Loops.BeginHook);
            LedTo(w, w', w'.caller) && (w'.caller.InHook? || w'.caller.Joining?)
                && w'.caller.inStart == w.caller.inStart
            && (w'.caller.InHook? <==> !w.fields.stopHookComplete)
            && (if w'.caller.InHook? then w'.caller.attempt == |w.attempts| && |w'.attempts| == |w.attempts| + 1
                else w'.attempts == w.attempts && w'.fields == w.fields)
  {
    hide LoopReachable;
    LoopReachableOk(w);
  }

  lemma HookReturnsLeads(w: Loops.Loop, result: Loops.Return)
    requires w.caller.InHook?
    ensures Loops.CanStep(w, Loops.HookReturns(result))
    ensures LedTo(w, Loops.Then(w, Loops.HookReturns(result)),
              Loops.Publishing(w.caller.attempt, result, w.caller.inStart))
    ensures Loops.Then(w, Loops.HookReturns(result)).attempts == w.attempts
  {
  }

  lemma PublishHookLeads(w: Loops.Loop)
    requires LoopReachable(w) && w.caller.Publishing?
    ensures Loops.CanStep(w, Loops.PublishHook)
    ensures var w' := Loops.Then(w, Loops.PublishHook);
            LedTo(w, w', Loops.Returned(Loops.AfterCleanup(HookReturn(w.caller.result), w.caller.inStart),
                                        w.caller.inStart))
            && |w'.attempts| == |w.attempts| && w.caller.attempt < |w.attempts|
            && w'.attempts[w.caller.attempt] == Published(w.caller.result)
            && (w'.fields.stopHookComplete <==> w.caller.result.Nil?)
  {
    hide LoopReachable, EpochsOk, LiveOk, CleanupsOk, LivesOk, ReturnOk;
    LoopReachableOk(w);
  }

  lemma JoinLeads(w: Loops.Loop, l: Loops.Step)
    requires LoopReachable(w) && w.caller.Joining? && (l == Loops.Join || l == Loops.GiveUp)
    ensures Loops.CanStep(w, l)
    ensures var w' := Loops.Then(w, l);
            LedTo(w, w', Loops.Returned(if l.Join? then Loops.AfterCleanup(Loops.Nil, w.caller.inStart)
                                        else GivenUp(w.caller.inStart), w.caller.inStart))
            && w'.attempts == w.attempts && w'.fields == w.fields
  {
    hide LoopReachable;
    JoinersNeverWait(w, 0);
  }

  lemma CallLoopStopLeads(w: Loops.Loop)
    requires w.caller.NoCall?
    ensures Loops.CanStep(w, Loops.CallLoopStop)
    ensures var w' := Loops.Then(w, Loops.CallLoopStop);
            LedTo(w, w', w'.caller)
            && (w'.caller == Loops.Cleaning(false) || (w'.caller.Cancelling? && !w'.caller.inStart))
  {
  }

  lemma CancelLeads(w: Loops.Loop)
    requires LoopReachable(w) && w.caller.Cancelling?
    ensures Loops.CanStep(w, Loops.Cancel) && w.caller.epoch < |w.lives|
    ensures LedTo(w, Loops.Then(w, Loops.Cancel), Loops.Waiting(w.caller.epoch, w.caller.inStart))
  {
    hide LoopReachable;
    EpochKnown(w);
  }

  lemma NoHandleLeads(w: Loops.Loop)
    requires w.caller == Loops.Cleaning(false)
    ensures Loops.CanStep(w, Loops.NoHandle)
    ensures LedTo(w, Loops.Then(w, Loops.NoHandle), Loops.Returned(Loops.Err(WrongState), false))
  {
  }

  lemma TakeResultLeads(w: Loops.Loop)
    requires w.caller.Returned?
    ensures Loops.CanStep(w, Loops.TakeResult)
    ensures LedTo(w, Loops.Then(w, Loops.TakeResult), Loops.NoCall)
    ensures Loops.Then(w, Loops.TakeResult) == w.(caller := Loops.NoCall)
  {
  }

  /** The goroutine came to be where it is. */
  ghost predicate RoutineAt(w: Loops.Loop, epoch: nat, r: Loops.Routine) {
    epoch < |w.lives| && w.lives[epoch].at == r
  }

  lemma BodyReturnsLeads(w: Loops.Loop, epoch: nat, err: Option<Error>)
    requires RoutineAt(w, epoch, Loops.Body)
    ensures Loops.CanStep(w, Loops.BodyReturns(epoch, err))
    ensures RoutineAt(Loops.Then(w, Loops.BodyReturns(epoch, err)), epoch, Loops.Judging)
  {
  }

  lemma JudgeLeads(w: Loops.Loop, epoch: nat)
    requires LoopReachable(w) && RoutineAt(w, epoch, Loops.Judging)
    ensures Loops.CanStep(w, Loops.Judge(epoch))
    ensures RoutineAt(Loops.Then(w, Loops.Judge(epoch)), epoch, Loops.Finishing)
            || RoutineAt(Loops.Then(w, Loops.Judge(epoch)), epoch, Loops.Reporting)
  {
    hide LoopReachable;
    RoutineKnown(w, epoch);
  }

  lemma ReportLeads(w: Loops.Loop, epoch: nat)
    requires RoutineAt(w, epoch, Loops.Reporting)
    ensures Loops.CanStep(w, Loops.Report(epoch))
    ensures RoutineAt(Loops.Then(w, Loops.Report(epoch)), epoch, Loops.SelfCleaning)
  {
  }

  lemma BeginSelfHookLeads(w: Loops.Loop, epoch: nat)
    requires LoopReachable(w) && RoutineAt(w, epoch, Loops.SelfCleaning)
    ensures Loops.CanStep(w, Loops.BeginSelfHook(epoch))
    ensures RoutineAt(Loops.Then(w, Loops.BeginSelfHook(epoch)), epoch, Loops.InSelfHook(|w.attempts|))
  {
    hide LoopReachable, Loops.StartAttempt;
    RoutineKnown(w, epoch);
    JoinersNeverWait(w, epoch);
  }

  lemma SelfHookReturnsLeads(w: Loops.Loop, epoch: nat, attempt: nat, result: Loops.Return)
    requires LoopReachable(w) && RoutineAt(w, epoch, Loops.InSelfHook(attempt))
    ensures Loops.CanStep(w, Loops.SelfHookReturns(epoch, result))
    ensures RoutineAt(Loops.Then(w, Loops.SelfHookReturns(epoch, result)), epoch, Loops.SelfPublishing(attempt, result))
  {
    hide LoopReachable;
    RoutineKnown(w, epoch);
  }

  lemma PublishSelfHookLeads(w: Loops.Loop, epoch: nat, attempt: nat, result: Loops.Return)
    requires LoopReachable(w) && RoutineAt(w, epoch, Loops.SelfPublishing(attempt, result))
    ensures Loops.CanStep(w, Loops.PublishSelfHook(epoch))
    ensures RoutineAt(Loops.Then(w, Loops.PublishSelfHook(epoch)), epoch,
          if result.Nil? then Loops.Finishing else Loops.Telling(result))
  {
    hide LoopReachable, Loops.PublishAttempt;
    RoutineKnown(w, epoch);
  }

  lemma TellLeads(w: Loops.Loop, epoch: nat, result: Loops.Return)
    requires LoopReachable(w) && RoutineAt(w, epoch, Loops.Telling(result))
    ensures Loops.CanStep(w, Loops.Tell(epoch))
    ensures RoutineAt(Loops.Then(w, Loops.Tell(epoch)), epoch,
                      if result.Panic? && w.crashOnPanic then Loops.Unwound else Loops.Finishing)
  {
    hide LoopReachable;
    RoutineKnown(w, epoch);
  }
}
