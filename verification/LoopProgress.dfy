/** What calls of a LoopWorker can still come to: from which states a Start or a Stop can return
    without an error. */
module LoopProgress {
  import opened Basics
  import opened LoopSteps
  import opened LoopInvariant
  import opened LoopResults

  /** Some run leads from w to done. */
  ghost predicate Leads(w: Loop, done: Loop) {
    exists run :: IsLoopRun(w, run) && done == AfterLoopRun(w, run)
  }

  lemma LeadsNowhere(w: Loop)
    ensures Leads(w, w)
  {
    assert IsLoopRun(w, []);
  }

  /** One more step of a run that goes on from w. */
  lemma Taken(start: Loop, w: Loop, l: Step) returns (w': Loop)
    requires LoopReachable(w) && CanStep(w, l) && Leads(start, w)
    ensures LoopReachable(w') && w' == Then(w, l) && Leads(start, w')
  {
    hide LoopReachable, CanStep, Then;
    LoopStepStaysReachable(w, l);
    w' := Then(w, l);
    var run :| IsLoopRun(start, run) && w == AfterLoopRun(start, run);
    LoopRunExtends(start, run, l);
    assert IsLoopRun(start, run + [l]);
  }

  // ---------------------------------------------------------------------------
  // Bringing a loop down.

  /** The goroutine re-raises a cleanup panic, or is about to. */
  predicate Unwinds(crashOnPanic: bool, at: Routine) {
    || at.Unwound?
    || (crashOnPanic && ((at.SelfPublishing? && at.result.Panic?) || (at.Telling? && at.result.Panic?)))
  }

  /** The current loop will never give its fields up. */
  predicate Doomed(w: Loop) {
    w.fields.done.Some? && w.fields.done.value < |w.lives| && Unwinds(w.crashOnPanic, w.lives[w.fields.done.value].at)
  }

  /** The step that brings a goroutine closer to its end, its own cleanup succeeding. */
  function Onward(e: nat, at: Routine): Step {
    match at
    case Body => BodyReturns(e, None)
    case Judging => Judge(e)
    case Reporting => Report(e)
    case SelfCleaning => BeginSelfHook(e)
    case InSelfHook(_) => SelfHookReturns(e, Nil)
    case SelfPublishing(_, _) => PublishSelfHook(e)
    case Telling(_) => Tell(e)
    case Finishing => Finish(e)
    case _ => Close(e)
  }

  function StepsLeft(at: Routine): nat {
    match at
    case Body => 9
    case Judging => 8
    case Reporting => 7
    case SelfCleaning => 6
    case InSelfHook(_) => 5
    case SelfPublishing(_, _) => 4
    case Telling(_) => 3
    case Finishing => 2
    case Closing => 1
    case _ => 0
  }

  /** A goroutine that has not ended can take that step. */
  lemma OnwardIsPossible(w: Loop, e: nat)
    requires LoopReachable(w) && e < |w.lives| && StepsLeft(w.lives[e].at) > 0
    ensures CanStep(w, Onward(e, w.lives[e].at)) && !IsCallerStep(Onward(e, w.lives[e].at))
    ensures w.lives[e].at.SelfCleaning? ==> HookMayRun(w.fields)
  {
    hide LoopReachable;
    LoopReachableOk(w);
    assert LifeOk(w.lives[e]) && HookFits(w.fields, w.lives[e].at);
  }

  /** The goroutine has come closer to its end, and does not unwind. */
  ghost predicate Closer(w: Loop, w': Loop, e: nat)
    requires e < |w.lives|
  {
    && |w'.lives| == |w.lives| && w'.caller == w.caller && w'.crashOnPanic == w.crashOnPanic
    && StepsLeft(w'.lives[e].at) < StepsLeft(w.lives[e].at)
    && !Unwinds(w'.crashOnPanic, w'.lives[e].at) && !w'.lives[e].at.Unspawned?
  }

  predicate IsExiting(at: Routine) { at.Body? || at.Judging? || at.Reporting? }

  predicate IsSelfCleaning(at: Routine) { at.SelfCleaning? || at.InSelfHook? || at.SelfPublishing? }

  lemma ExitComesCloser(w: Loop, e: nat)
    requires e < |w.lives| && IsExiting(w.lives[e].at)
    requires CanStep(w, Onward(e, w.lives[e].at)) && !Unwinds(w.crashOnPanic, w.lives[e].at)
    requires w.lives[e].at.SelfCleaning? ==> HookMayRun(w.fields)
    ensures Closer(w, Then(w, Onward(e, w.lives[e].at)), e)
  {
    hide PublishAttempt, StartAttempt, CallerStep;
  }

  lemma SelfHookComesCloser(w: Loop, e: nat)
    requires e < |w.lives| && IsSelfCleaning(w.lives[e].at)
    requires CanStep(w, Onward(e, w.lives[e].at)) && !Unwinds(w.crashOnPanic, w.lives[e].at)
    requires w.lives[e].at.SelfCleaning? ==> HookMayRun(w.fields)
    ensures Closer(w, Then(w, Onward(e, w.lives[e].at)), e)
  {
    hide PublishAttempt, StartAttempt, CallerStep;
  }

  lemma FinishComesCloser(w: Loop, e: nat)
    requires e < |w.lives| && (w.lives[e].at.Telling? || w.lives[e].at.Finishing? || w.lives[e].at.Closing?)
    requires CanStep(w, Onward(e, w.lives[e].at)) && !Unwinds(w.crashOnPanic, w.lives[e].at)
    requires w.lives[e].at.SelfCleaning? ==> HookMayRun(w.fields)
    ensures Closer(w, Then(w, Onward(e, w.lives[e].at)), e)
  {
    hide PublishAttempt, StartAttempt, CallerStep;
  }

  lemma OnwardComesCloser(w: Loop, e: nat)
    requires e < |w.lives| && StepsLeft(w.lives[e].at) > 0 && !Unwinds(w.crashOnPanic, w.lives[e].at)
    requires CanStep(w, Onward(e, w.lives[e].at))
    requires w.lives[e].at.SelfCleaning? ==> HookMayRun(w.fields)
    ensures Closer(w, Then(w, Onward(e, w.lives[e].at)), e)
  {
    hide Then, Closer, Unwinds, CanStep, Onward;
    if IsExiting(w.lives[e].at) {
      ExitComesCloser(w, e);
    } else if IsSelfCleaning(w.lives[e].at) {
      SelfHookComesCloser(w, e);
    } else {
      FinishComesCloser(w, e);
    }
  }

  /** Steps of its own bring a loop to its end, unless it unwinds. */
  lemma {:induction false} LoopEnds(start: Loop, w: Loop, e: nat) returns (done: Loop)
    requires LoopReachable(w) && Leads(start, w) && e < |w.lives|
    requires !w.lives[e].at.Unspawned? && !Unwinds(w.crashOnPanic, w.lives[e].at)
    ensures LoopReachable(done) && Leads(start, done) && done.caller == w.caller
    ensures e < |done.lives| && done.lives[e].closed
    decreases StepsLeft(w.lives[e].at)
  {
    hide LoopReachable, Leads, CanStep, Then;
    if StepsLeft(w.lives[e].at) == 0 {
      done := w;
      EndedIsClosed(w, e);
    } else {
      OnwardIsPossible(w, e);
      OnwardComesCloser(w, e);
      var next := Taken(start, w, Onward(e, w.lives[e].at));
      done := LoopEnds(start, next, e);
    }
  }

  lemma EndedIsClosed(w: Loop, e: nat)
    requires LoopReachable(w) && e < |w.lives| && StepsLeft(w.lives[e].at) == 0
    requires !w.lives[e].at.Unspawned? && !w.lives[e].at.Unwound?
    ensures w.lives[e].closed
  {
    hide LoopReachable;
    LoopReachableOk(w);
    assert LifeOk(w.lives[e]) && HookFits(w.fields, w.lives[e].at);
  }

  // ---------------------------------------------------------------------------
  // Cleaning up.

  lemma CleanupBegins(w: Loop)
    requires LoopReachable(w) && w.caller == Cleaning(false)
    ensures CanStep(w, BeginHook)
    ensures var w' := Then(w, BeginHook);
            w'.caller == if HookMayRun(w.fields) then InHook(|w.attempts|, false) else Joining(Joined(w.fields), false)
  {
    hide StartAttempt;
  }

  lemma HookPublishes(w: Loop)
    requires LoopReachable(w) && w.caller.Publishing? && w.caller.result.Nil? && !w.caller.inStart
    ensures CanStep(w, PublishHook) && Then(w, PublishHook).caller == Returned(Nil, false)
  {
    hide LoopReachable, PublishAttempt;
    LoopReachableOk(w);
  }

  lemma JoinerReturns(w: Loop)
    requires LoopReachable(w) && w.caller.Joining? && !w.caller.inStart
    ensures CanStep(w, Join) && Then(w, Join).caller == Returned(Nil, false)
  {
    hide LoopReachable;
    JoinersNeverWait(w, 0);
  }

  /** From the cleanup on, Stop can return nil: its hook succeeds, or one has. */
  lemma CleanupSucceeds(start: Loop, w: Loop) returns (done: Loop)
    requires LoopReachable(w) && Leads(start, w) && w.caller == Cleaning(false)
    ensures LoopReachable(done) && Leads(start, done) && done.caller == Returned(Nil, false)
  {
    hide LoopReachable, Leads, Then;
    CleanupBegins(w);
    done := Taken(start, w, BeginHook);
    if HookMayRun(w.fields) {
      HookComesBack(done);
      done := Taken(start, done, HookReturns(Nil));
      HookPublishes(done);
      done := Taken(start, done, PublishHook);
    } else {
      JoinerReturns(done);
      done := Taken(start, done, Join);
    }
  }

  lemma HookComesBack(w: Loop)
    requires w.caller.InHook?
    ensures CanStep(w, HookReturns(Nil))
    ensures Then(w, HookReturns(Nil)).caller == Publishing(w.caller.attempt, Nil, w.caller.inStart)
  {
  }

  // ---------------------------------------------------------------------------
  // Stop.

  lemma StopBegins(w: Loop)
    requires LoopReachable(w) && w.caller.NoCall?
    ensures CanStep(w, CallLoopStop)
    ensures var w' := Then(w, CallLoopStop);
            && |w'.lives| == |w.lives| && w'.crashOnPanic == w.crashOnPanic
            && if w.fields.done.None? then w'.caller == Cleaning(false)
               else w.fields.done.value < |w.lives| && w'.caller == Cancelling(w.fields.done.value, false)
                    && w'.lives[w.fields.done.value].at == w.lives[w.fields.done.value].at
                    && !w.lives[w.fields.done.value].at.Unspawned?
  {
    hide LoopReachable;
    LoopReachableOk(w);
  }

  lemma LoopIsCancelled(w: Loop, e: nat)
    requires w.caller == Cancelling(e, false) && e < |w.lives|
    ensures CanStep(w, Cancel)
    ensures var w' := Then(w, Cancel);
            w'.caller == Waiting(e, false) && |w'.lives| == |w.lives| && w'.lives[e].at == w.lives[e].at
            && w'.crashOnPanic == w.crashOnPanic
  {
  }

  lemma DoneIsSeen(w: Loop, e: nat)
    requires w.caller == Waiting(e, false) && e < |w.lives| && w.lives[e].closed
    ensures CanStep(w, SeeDone) && Then(w, SeeDone).caller == Cleaning(false)
  {
  }

  /** Whatever happened before, a Stop can return nil, the worker quiescent, as long as the
      current loop does not unwind. */
  lemma StopCanSucceed(w: Loop) returns (done: Loop)
    requires LoopReachable(w) && w.caller.NoCall? && !Doomed(w)
    ensures LoopReachable(done) && Leads(w, done) && done.caller == Returned(Nil, false) && Quiescent(done)
  {
    hide LoopReachable, Leads, Then, Quiescent, CanStep;
    LeadsNowhere(w);
    StopBegins(w);
    done := Taken(w, w, CallLoopStop);
    if w.fields.done.Some? {
      var e := w.fields.done.value;
      LoopIsCancelled(done, e);
      done := Taken(w, done, Cancel);
      done := LoopEnds(w, done, e);
      DoneIsSeen(done, e);
      done := Taken(w, done, SeeDone);
    }
    done := CleanupSucceeds(w, done);
    StopNilMeansQuiescent(done);
  }

  lemma CallerKeepsDoom(w: Loop, l: Step)
    requires LoopOk(w) && Doomed(w) && CanStep(w, l) && IsCallerStep(l)
    ensures Doomed(CallerStep(w, l))
  {
    hide PublishAttempt, StartAttempt, AttemptsOk, CleanupsOk;
  }

  lemma RoutineKeepsDoom(w: Loop, l: Step)
    requires LoopOk(w) && Doomed(w) && CanStep(w, l) && !IsCallerStep(l)
    ensures Doomed(RoutineStep(w, l))
  {
    hide PublishAttempt, StartAttempt, AttemptsOk, CleanupsOk;
  }

  lemma DoomLasts(w: Loop, l: Step)
    requires LoopReachable(w) && Doomed(w) && CanStep(w, l)
    ensures Doomed(Then(w, l))
  {
    hide LoopReachable, LoopOk, CallerStep, RoutineStep, Doomed, CanStep;
    LoopReachableOk(w);
    if IsCallerStep(l) {
      CallerKeepsDoom(w, l);
    } else {
      RoutineKeepsDoom(w, l);
    }
  }

  lemma {:induction false} DoomLastsForever(w: Loop, run: seq<Step>)
    requires LoopReachable(w) && Doomed(w) && IsLoopRun(w, run)
    ensures Doomed(AfterLoopRun(w, run)) && LoopReachable(AfterLoopRun(w, run))
    decreases |run|
  {
    hide LoopReachable, Doomed, Then, CanStep;
    if run != [] {
      DoomLasts(w, run[0]);
      LoopStepStaysReachable(w, run[0]);
      DoomLastsForever(Then(w, run[0]), run[1..]);
    }
  }

  lemma DoomedReturnsNoNil(w: Loop)
    requires LoopReachable(w) && Doomed(w)
    ensures w.caller != Returned(Nil, false)
  {
    hide LoopReachable;
    LoopReachableOk(w);
  }

  /** A Stop can return nil exactly from the states whose loop does not unwind. */
  lemma StopSucceedsIffNotDoomed(w: Loop)
    requires LoopReachable(w) && w.caller.NoCall?
    ensures (exists done :: Leads(w, done) && done.caller == Returned(Nil, false)) <==> !Doomed(w)
  {
    hide LoopReachable, Doomed, Quiescent;
    if !Doomed(w) {
      var done := StopCanSucceed(w);
    } else {
      forall done | Leads(w, done)
        ensures done.caller != Returned(Nil, false)
      {
        var run :| IsLoopRun(w, run) && done == AfterLoopRun(w, run);
        DoomLastsForever(w, run);
        DoomedReturnsNoNil(done);
      }
    }
  }

  // ---------------------------------------------------------------------------
  // Start.

  /** The last loop launched is in its body. */
  ghost predicate Launched(w: Loop, count: nat) {
    |w.lives| == count && count > 0 && w.lives[count - 1].at.Body? && w.round == Some(count - 1)
  }

  lemma StartComesUp(start: Loop, w: Loop, h: Handle) returns (done: Loop)
    requires LoopReachable(w) && Leads(start, w) && w.caller.NoCall? && CheckStart(w.fields).Accepted?
    ensures LoopReachable(done) && Leads(start, done) && Launched(done, |w.lives| + 1)
    ensures done.caller == if w.autoReady then Readying(|w.lives|) else Returned(Nil, true)
  {
    hide LoopReachable, Leads;
    done := Taken(start, w, CallLoopStart(h));
    done := Taken(start, done, OnStart(Nil));
    done := Taken(start, done, Spawn);
  }

  /** An accepted Start can return nil, its new loop in service, with or without auto-ready. */
  lemma StartCanSucceed(w: Loop, h: Handle) returns (done: Loop)
    requires LoopReachable(w) && w.caller.NoCall? && CheckStart(w.fields).Accepted?
    ensures LoopReachable(done) && Leads(w, done) && done.caller == Returned(Nil, true) && Launched(done, |w.lives| + 1)
  {
    hide LoopReachable, Leads, Launched;
    LeadsNowhere(w);
    done := StartComesUp(w, w, h);
    if w.autoReady {
      var up := done;
      done := Taken(w, up, Ready(true));
      assert Launched(done, |w.lives| + 1) by { ReadyKeepsLoop(up, |w.lives| + 1); }
    }
  }

  lemma ReadyKeepsLoop(w: Loop, count: nat)
    requires w.caller.Readying? && Launched(w, count)
    ensures Launched(Then(w, Ready(true)), count)
  {
  }

  /** After a Stop that returned nil the next Start is accepted. */
  lemma StoppedMayStart(w: Loop)
    requires LoopReachable(w) && w.caller == Returned(Nil, false)
    ensures CanStep(w, TakeResult)
    ensures Then(w, TakeResult).caller.NoCall? && CheckStart(Then(w, TakeResult).fields).Accepted?
  {
    hide LoopReachable;
    LoopReachableOk(w);
  }
}
