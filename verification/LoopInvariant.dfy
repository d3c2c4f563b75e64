/** What every step of a LoopWorker keeps, while Start and Stop calls come one at a time. */
module LoopInvariant {
  import opened Basics
  import opened LoopSteps

  // ---------------------------------------------------------------------------
  // The invariant, part by part.

  /** The goroutine has not yet given its loop up. */
  predicate IsLive(r: Routine) { !r.Closing? && !r.Exited? }

  predicate InOwnHook(r: Routine) { r.InSelfHook? || r.SelfPublishing? }

  predicate BeforeOwnHook(r: Routine) { r.Unspawned? || r.Body? || r.Judging? || r.Reporting? || r.SelfCleaning? }

  predicate CallerHooks(c: Caller) { c.InHook? || c.Publishing? }

  /** The caller is at the cleanup of a loop that has already been given up. */
  predicate CallerCleans(c: Caller) { c.Cleaning? || c.InHook? || c.Publishing? || c.Joining? }

  /** The round is that of the last epoch, and the caller is concerned with no other. */
  ghost predicate EpochsOk(w: Loop) {
    && (w.round.Some? ==> w.round.value + 1 == |w.lives|)
    && (w.caller.Readying? || w.caller.Marking? || w.caller.Cancelling? || w.caller.Waiting? || w.caller.Spawning? ==>
          w.round == Some(w.caller.epoch))
    && (forall e :: 0 <= e < |w.lives| ==> (w.lives[e].at.Unspawned? <==> w.caller == Spawning(e)))
  }

  /** A live loop is the one the fields are about, and nobody else's cleanup runs. */
  ghost predicate LiveOk(w: Loop) {
    && w.fields.cancel == w.fields.done
    && (forall e :: 0 <= e < |w.lives| && IsLive(w.lives[e].at) ==> w.fields.done == Some(e))
    && (w.fields.done.Some? ==>
          w.round == w.fields.done && w.round.value < |w.lives| && IsLive(w.lives[w.round.value].at))
    && (w.fields.done.Some? <==> w.fields.state == LoopRunning || w.fields.state == LoopStopping)
    && (w.fields.state == LoopStarting <==> w.caller.InOnStart?)
    && (w.caller.Spawning? ==> w.fields.done == Some(w.caller.epoch) && w.fields.state == LoopRunning)
    && (w.round.Some? <==> w.fields.done.Some? || w.fields.state == LoopStopped)
    && (CallerCleans(w.caller) ==> w.fields.done.None?)
  }

  /** What the fields say about the hook, seen from one goroutine. */
  predicate HookFits(f: Fields, r: Routine) {
    && (InOwnHook(r) ==> HookIsCurrent(f, r.attempt))
    && (BeforeOwnHook(r) ==> f.stopHookAttempt.None? && HookMayRun(f))
    && !r.SelfJoining?
  }

  /** Some thread is at the cleanup attempt in progress. */
  predicate SomeoneHooks(w: Loop) {
    CallerHooks(w.caller)
    || (w.fields.done.Some? && w.fields.done.value < |w.lives| && InOwnHook(w.lives[w.fields.done.value].at))
  }

  /** The cleanup attempt in progress is the current one, and has one thread. */
  ghost predicate HooksOk(w: Loop) {
    && (forall e :: 0 <= e < |w.lives| ==> HookFits(w.fields, w.lives[e].at))
    && (CallerHooks(w.caller) ==> HookIsCurrent(w.fields, w.caller.attempt))
    && (w.caller.InOnStart? ==> w.fields.stopHookAttempt.None? && HookMayRun(w.fields))
    && (w.caller.Joining? ==> w.fields.stopHookComplete && w.fields.stopHookAttempt == Some(w.caller.attempt))
    && (w.fields.stopHookRunning ==> !w.fields.stopHookComplete && SomeoneHooks(w))
  }

  /** Attempts are open exactly while running; a complete one is published without error. */
  ghost predicate AttemptsOk(w: Loop) {
    && (w.fields.stopHookAttempt.Some? ==> w.fields.stopHookAttempt.value < |w.attempts|)
    && (w.fields.stopHookRunning || w.fields.stopHookComplete ==> w.fields.stopHookAttempt.Some?)
    && (forall a :: 0 <= a < |w.attempts| ==>
          (w.attempts[a].closed <==> !(w.fields.stopHookRunning && w.fields.stopHookAttempt == Some(a))))
    && (w.fields.stopHookComplete ==> w.attempts[w.fields.stopHookAttempt.value].err.None?)
  }

  /** Every loop but that of this round had exactly one successful cleanup. */
  ghost predicate CleanupsOk(w: Loop) {
    && |w.cleanups| == |w.lives|
    && forall e :: 0 <= e < |w.cleanups| ==>
         w.cleanups[e] == if w.round == Some(e) && !w.fields.stopHookComplete then 0 else 1
  }

  /** What a loop exit counts as, once judged. */
  predicate Intended(life: Life) {
    life.judged == Some(true) && life.exit.Some? && (life.exit.value.None? || life.exit.value == Some(ContextDone))
  }

  /** The goroutine has not got to the judgement of its exit, or not past its report. */
  predicate BeforeJudgement(r: Routine) { r.Unspawned? || r.Body? || r.Judging? }

  predicate AfterReport(r: Routine) { !BeforeJudgement(r) && !r.Reporting? && !r.Exited? }

  ghost predicate LifeOk(life: Life) {
    && (life.exit.Some? <==> !life.at.Unspawned? && !life.at.Body?)
    && (life.judged.Some? <==> !BeforeJudgement(life.at))
    && (life.closed <==> life.at.Exited?)
    && (life.cancelled ==> life.requested)
    && (life.judged == Some(true) ==> life.cancelled)
    && (life.at.Unspawned? ==> !life.requested)
    && (BeforeJudgement(life.at) ==> !life.reported)
    && (life.at.Reporting? ==> !life.reported && !Intended(life))
    && (!BeforeJudgement(life.at) && !life.at.Reporting? ==> (life.reported <==> !Intended(life)))
  }

  ghost predicate LivesOk(w: Loop) {
    && (forall e :: 0 <= e < |w.lives| ==> LifeOk(w.lives[e]))
    && (forall e :: 0 <= e < |w.lives| && IsLive(w.lives[e].at) ==>
          (w.fields.state == LoopRunning <==> BeforeJudgement(w.lives[e].at) && !w.lives[e].requested))
    && (w.caller.Cancelling? && w.caller.epoch < |w.lives| ==> w.lives[w.caller.epoch].requested)
  }

  /** A call that returned without error has left things in order. */
  ghost predicate ReturnOk(w: Loop) {
    && (w.caller.Returned? && w.caller.result.Nil? && !w.caller.inStart ==>
          w.fields.stopHookComplete && w.fields.done.None?)
    && (w.caller.Publishing? && w.caller.inStart ==> w.fields.done.None?)
  }

  ghost predicate LoopOk(w: Loop) {
    EpochsOk(w) && LiveOk(w) && HooksOk(w) && AttemptsOk(w) && CleanupsOk(w) && LivesOk(w) && ReturnOk(w)
  }

  lemma NewLoopOk(autoReady: bool, crashOnPanic: bool)
    ensures LoopOk(NewLoop(autoReady, crashOnPanic))
  {
  }

  /** Caller steps by phase: bringing a loop up, bringing it down, and cleaning up. */
  predicate IsUpStep(l: Step) { l.CallLoopStart? || l.OnStart? || l.Spawn? || l.Ready? }

  predicate IsDownStep(l: Step) { l.CallLoopStop? || l.Mark? || l.Cancel? || l.SeeDone? || l.GiveUp? || l.NoHandle? }

  predicate IsCleanupStep(l: Step) { l.BeginHook? || l.HookReturns? || l.PublishHook? || l.Join? || l.TakeResult? }

  /** Goroutine steps up to the end of the failure report, those of its own cleanup, those that
      follow the cleanup, and those that give the loop up. */
  predicate IsExitStep(l: Step) { l.BodyReturns? || l.Judge? || l.Report? }

  predicate IsSelfHookStep(l: Step) { l.BeginSelfHook? || l.SelfHookReturns? || l.PublishSelfHook? }

  predicate IsTellStep(l: Step) { l.SelfJoin? || l.SelfTimeout? || l.Tell? }

  predicate IsFinishStep(l: Step) { l.Finish? || l.Close? }

  lemma UpKeepsEpochs(w: Loop, l: Step)
    requires EpochsOk(w) && LiveOk(w)
    requires CanStep(w, l) && IsUpStep(l)
    ensures EpochsOk(CallerStep(w, l))
  {
  }

  lemma DownKeepsEpochs(w: Loop, l: Step)
    requires EpochsOk(w) && LiveOk(w)
    requires CanStep(w, l) && IsDownStep(l)
    ensures EpochsOk(CallerStep(w, l))
  {
  }

  lemma CleanupKeepsEpochs(w: Loop, l: Step)
    requires EpochsOk(w) && LiveOk(w)
    requires CanStep(w, l) && IsCleanupStep(l)
    ensures EpochsOk(CallerStep(w, l))
  {
    hide PublishAttempt, StartAttempt;
  }

  lemma ExitKeepsEpochs(w: Loop, l: Step)
    requires EpochsOk(w) && LiveOk(w)
    requires CanStep(w, l) && IsExitStep(l)
    ensures EpochsOk(RoutineStep(w, l))
  {
  }

  lemma SelfHookKeepsEpochs(w: Loop, l: Step)
    requires EpochsOk(w) && LiveOk(w)
    requires CanStep(w, l) && IsSelfHookStep(l)
    ensures EpochsOk(RoutineStep(w, l))
  {
    hide PublishAttempt, StartAttempt;
  }

  lemma TellKeepsEpochs(w: Loop, l: Step)
    requires EpochsOk(w) && LiveOk(w)
    requires CanStep(w, l) && IsTellStep(l)
    ensures EpochsOk(RoutineStep(w, l))
  {
  }

  lemma FinishKeepsEpochs(w: Loop, l: Step)
    requires EpochsOk(w) && LiveOk(w)
    requires CanStep(w, l) && IsFinishStep(l)
    ensures EpochsOk(RoutineStep(w, l))
  {
  }

  lemma UpKeepsLive(w: Loop, l: Step)
    requires EpochsOk(w) && LiveOk(w) && LivesOk(w)
    requires CanStep(w, l) && IsUpStep(l)
    ensures LiveOk(CallerStep(w, l))
  {
    match l
    case CallLoopStart(h) =>
    case OnStart(result) => OnStartKeepsLive(w, result);
    case Spawn => SpawnKeepsLive(w);
    case Ready(ok) =>
  }

  lemma OnStartKeepsLive(w: Loop, result: Return)
    requires EpochsOk(w) && LiveOk(w) && LivesOk(w)
    requires CanStep(w, OnStart(result))
    ensures LiveOk(CallerStep(w, OnStart(result)))
  {
    hide BeginStart, BeginStop;
  }

  lemma SpawnKeepsLive(w: Loop)
    requires EpochsOk(w) && LiveOk(w) && LivesOk(w)
    requires CanStep(w, Spawn)
    ensures LiveOk(CallerStep(w, Spawn))
  {
  }

  lemma DownKeepsLive(w: Loop, l: Step)
    requires EpochsOk(w) && LiveOk(w) && LivesOk(w)
    requires CanStep(w, l) && IsDownStep(l)
    ensures LiveOk(CallerStep(w, l))
  {
    match l
    case CallLoopStop =>
    case Mark =>
    case Cancel =>
    case SeeDone =>
    case GiveUp =>
    case NoHandle =>
  }

  lemma CleanupKeepsLive(w: Loop, l: Step)
    requires EpochsOk(w) && LiveOk(w) && LivesOk(w)
    requires CanStep(w, l) && IsCleanupStep(l)
    ensures LiveOk(CallerStep(w, l))
  {
    hide PublishAttempt, StartAttempt;
  }

  lemma ExitKeepsLive(w: Loop, l: Step)
    requires EpochsOk(w) && LiveOk(w) && LivesOk(w)
    requires CanStep(w, l) && IsExitStep(l)
    ensures LiveOk(RoutineStep(w, l))
  {
  }

  lemma SelfHookKeepsLive(w: Loop, l: Step)
    requires EpochsOk(w) && LiveOk(w) && LivesOk(w)
    requires CanStep(w, l) && IsSelfHookStep(l)
    ensures LiveOk(RoutineStep(w, l))
  {
    hide PublishAttempt, StartAttempt;
  }

  lemma TellKeepsLive(w: Loop, l: Step)
    requires EpochsOk(w) && LiveOk(w) && LivesOk(w)
    requires CanStep(w, l) && IsTellStep(l)
    ensures LiveOk(RoutineStep(w, l))
  {
  }

  lemma FinishKeepsLive(w: Loop, l: Step)
    requires EpochsOk(w) && LiveOk(w) && LivesOk(w)
    requires CanStep(w, l) && IsFinishStep(l)
    ensures LiveOk(RoutineStep(w, l))
  {
  }

  lemma UpKeepsHooks(w: Loop, l: Step)
    requires EpochsOk(w) && LiveOk(w) && HooksOk(w) && AttemptsOk(w)
    requires CanStep(w, l) && IsUpStep(l)
    ensures HooksOk(CallerStep(w, l))
  {
  }

  lemma DownKeepsHooks(w: Loop, l: Step)
    requires EpochsOk(w) && LiveOk(w) && HooksOk(w) && AttemptsOk(w)
    requires CanStep(w, l) && IsDownStep(l)
    ensures HooksOk(CallerStep(w, l))
  {
    hide EpochsOk, AttemptsOk;
    match l
    case CallLoopStop =>
    case Mark =>
    case Cancel =>
    case SeeDone =>
    case GiveUp =>
    case NoHandle =>
  }

  lemma CleanupKeepsHooks(w: Loop, l: Step)
    requires EpochsOk(w) && LiveOk(w) && HooksOk(w) && AttemptsOk(w)
    requires CanStep(w, l) && IsCleanupStep(l)
    ensures HooksOk(CallerStep(w, l))
  {
  }

  lemma ExitKeepsHooks(w: Loop, l: Step)
    requires EpochsOk(w) && LiveOk(w) && HooksOk(w) && AttemptsOk(w)
    requires CanStep(w, l) && IsExitStep(l)
    ensures HooksOk(RoutineStep(w, l))
  {
  }

  lemma SelfHookKeepsHooks(w: Loop, l: Step)
    requires EpochsOk(w) && LiveOk(w) && HooksOk(w) && AttemptsOk(w)
    requires CanStep(w, l) && IsSelfHookStep(l)
    ensures HooksOk(RoutineStep(w, l))
  {
  }

  lemma TellKeepsHooks(w: Loop, l: Step)
    requires EpochsOk(w) && LiveOk(w) && HooksOk(w) && AttemptsOk(w)
    requires CanStep(w, l) && IsTellStep(l)
    ensures HooksOk(RoutineStep(w, l))
  {
  }

  lemma FinishKeepsHooks(w: Loop, l: Step)
    requires EpochsOk(w) && LiveOk(w) && HooksOk(w) && AttemptsOk(w)
    requires CanStep(w, l) && IsFinishStep(l)
    ensures HooksOk(RoutineStep(w, l))
  {
  }

  lemma UpKeepsAttempts(w: Loop, l: Step)
    requires HooksOk(w) && AttemptsOk(w)
    requires CanStep(w, l) && IsUpStep(l)
    ensures AttemptsOk(CallerStep(w, l))
  {
  }

  lemma DownKeepsAttempts(w: Loop, l: Step)
    requires HooksOk(w) && AttemptsOk(w)
    requires CanStep(w, l) && IsDownStep(l)
    ensures AttemptsOk(CallerStep(w, l))
  {
  }

  lemma CleanupKeepsAttempts(w: Loop, l: Step)
    requires HooksOk(w) && AttemptsOk(w)
    requires CanStep(w, l) && IsCleanupStep(l)
    ensures AttemptsOk(CallerStep(w, l))
  {
  }

  lemma ExitKeepsAttempts(w: Loop, l: Step)
    requires HooksOk(w) && AttemptsOk(w)
    requires CanStep(w, l) && IsExitStep(l)
    ensures AttemptsOk(RoutineStep(w, l))
  {
  }

  lemma SelfHookKeepsAttempts(w: Loop, l: Step)
    requires HooksOk(w) && AttemptsOk(w)
    requires CanStep(w, l) && IsSelfHookStep(l)
    ensures AttemptsOk(RoutineStep(w, l))
  {
  }

  lemma TellKeepsAttempts(w: Loop, l: Step)
    requires HooksOk(w) && AttemptsOk(w)
    requires CanStep(w, l) && IsTellStep(l)
    ensures AttemptsOk(RoutineStep(w, l))
  {
  }

  lemma FinishKeepsAttempts(w: Loop, l: Step)
    requires HooksOk(w) && AttemptsOk(w)
    requires CanStep(w, l) && IsFinishStep(l)
    ensures AttemptsOk(RoutineStep(w, l))
  {
  }

  lemma UpKeepsCleanups(w: Loop, l: Step)
    requires EpochsOk(w) && LiveOk(w) && HooksOk(w) && AttemptsOk(w) && CleanupsOk(w)
    requires CanStep(w, l) && IsUpStep(l)
    ensures CleanupsOk(CallerStep(w, l))
  {
  }

  lemma DownKeepsCleanups(w: Loop, l: Step)
    requires EpochsOk(w) && LiveOk(w) && HooksOk(w) && AttemptsOk(w) && CleanupsOk(w)
    requires CanStep(w, l) && IsDownStep(l)
    ensures CleanupsOk(CallerStep(w, l))
  {
  }

  lemma CleanupKeepsCleanups(w: Loop, l: Step)
    requires EpochsOk(w) && LiveOk(w) && HooksOk(w) && AttemptsOk(w) && CleanupsOk(w)
    requires CanStep(w, l) && IsCleanupStep(l)
    ensures CleanupsOk(CallerStep(w, l))
  {
  }

  lemma ExitKeepsCleanups(w: Loop, l: Step)
    requires EpochsOk(w) && LiveOk(w) && HooksOk(w) && AttemptsOk(w) && CleanupsOk(w)
    requires CanStep(w, l) && IsExitStep(l)
    ensures CleanupsOk(RoutineStep(w, l))
  {
  }

  lemma SelfHookKeepsCleanups(w: Loop, l: Step)
    requires EpochsOk(w) && LiveOk(w) && HooksOk(w) && AttemptsOk(w) && CleanupsOk(w)
    requires CanStep(w, l) && IsSelfHookStep(l)
    ensures CleanupsOk(RoutineStep(w, l))
  {
  }

  lemma TellKeepsCleanups(w: Loop, l: Step)
    requires EpochsOk(w) && LiveOk(w) && HooksOk(w) && AttemptsOk(w) && CleanupsOk(w)
    requires CanStep(w, l) && IsTellStep(l)
    ensures CleanupsOk(RoutineStep(w, l))
  {
  }

  lemma FinishKeepsCleanups(w: Loop, l: Step)
    requires EpochsOk(w) && LiveOk(w) && HooksOk(w) && AttemptsOk(w) && CleanupsOk(w)
    requires CanStep(w, l) && IsFinishStep(l)
    ensures CleanupsOk(RoutineStep(w, l))
  {
  }

  lemma UpKeepsLives(w: Loop, l: Step)
    requires EpochsOk(w) && LiveOk(w) && LivesOk(w)
    requires CanStep(w, l) && IsUpStep(l)
    ensures LivesOk(CallerStep(w, l))
  {
  }

  lemma DownKeepsLives(w: Loop, l: Step)
    requires EpochsOk(w) && LiveOk(w) && LivesOk(w)
    requires CanStep(w, l) && IsDownStep(l)
    ensures LivesOk(CallerStep(w, l))
  {
  }

  lemma CleanupKeepsLives(w: Loop, l: Step)
    requires EpochsOk(w) && LiveOk(w) && LivesOk(w)
    requires CanStep(w, l) && IsCleanupStep(l)
    ensures LivesOk(CallerStep(w, l))
  {
    hide PublishAttempt, StartAttempt;
  }

  lemma ExitKeepsLives(w: Loop, l: Step)
    requires EpochsOk(w) && LiveOk(w) && LivesOk(w)
    requires CanStep(w, l) && IsExitStep(l)
    ensures LivesOk(RoutineStep(w, l))
  {
  }

  lemma SelfHookKeepsLives(w: Loop, l: Step)
    requires EpochsOk(w) && LiveOk(w) && LivesOk(w)
    requires CanStep(w, l) && IsSelfHookStep(l)
    ensures LivesOk(RoutineStep(w, l))
  {
    hide PublishAttempt, StartAttempt, EpochsOk, LiveOk, LivesOk;
    MovedKeepsLives(w, RoutineStep(w, l), l.epoch);
  }

  lemma TellKeepsLives(w: Loop, l: Step)
    requires EpochsOk(w) && LiveOk(w) && LivesOk(w)
    requires CanStep(w, l) && IsTellStep(l)
    ensures LivesOk(RoutineStep(w, l))
  {
    hide EpochsOk, LiveOk, LivesOk;
    MovedKeepsLives(w, RoutineStep(w, l), l.epoch);
  }

  /** A goroutine past its report moved on, and nothing its life tells changed. */
  lemma MovedKeepsLives(w: Loop, w': Loop, e: nat)
    requires e < |w.lives| == |w'.lives| && LivesOk(w)
    requires w'.fields.state == w.fields.state && w'.caller == w.caller
    requires w'.lives == w.lives[e := w.lives[e].(at := w'.lives[e].at)]
    requires AfterReport(w.lives[e].at) && IsLive(w.lives[e].at) && AfterReport(w'.lives[e].at)
    ensures LivesOk(w')
  {
    assert LifeOk(w'.lives[e]);
  }

  lemma FinishKeepsLives(w: Loop, l: Step)
    requires EpochsOk(w) && LiveOk(w) && LivesOk(w)
    requires CanStep(w, l) && IsFinishStep(l)
    ensures LivesOk(RoutineStep(w, l))
  {
  }

  lemma UpKeepsReturn(w: Loop, l: Step)
    requires LiveOk(w) && HooksOk(w) && AttemptsOk(w) && ReturnOk(w)
    requires CanStep(w, l) && IsUpStep(l)
    ensures ReturnOk(CallerStep(w, l))
  {
  }

  lemma DownKeepsReturn(w: Loop, l: Step)
    requires LiveOk(w) && HooksOk(w) && AttemptsOk(w) && ReturnOk(w)
    requires CanStep(w, l) && IsDownStep(l)
    ensures ReturnOk(CallerStep(w, l))
  {
  }

  lemma CleanupKeepsReturn(w: Loop, l: Step)
    requires LiveOk(w) && HooksOk(w) && AttemptsOk(w) && ReturnOk(w)
    requires CanStep(w, l) && IsCleanupStep(l)
    ensures ReturnOk(CallerStep(w, l))
  {
  }

  lemma ExitKeepsReturn(w: Loop, l: Step)
    requires LiveOk(w) && HooksOk(w) && AttemptsOk(w) && ReturnOk(w)
    requires CanStep(w, l) && IsExitStep(l)
    ensures ReturnOk(RoutineStep(w, l))
  {
  }

  lemma SelfHookKeepsReturn(w: Loop, l: Step)
    requires LiveOk(w) && HooksOk(w) && AttemptsOk(w) && ReturnOk(w)
    requires CanStep(w, l) && IsSelfHookStep(l)
    ensures ReturnOk(RoutineStep(w, l))
  {
  }

  lemma TellKeepsReturn(w: Loop, l: Step)
    requires LiveOk(w) && HooksOk(w) && AttemptsOk(w) && ReturnOk(w)
    requires CanStep(w, l) && IsTellStep(l)
    ensures ReturnOk(RoutineStep(w, l))
  {
  }

  lemma FinishKeepsReturn(w: Loop, l: Step)
    requires LiveOk(w) && HooksOk(w) && AttemptsOk(w) && ReturnOk(w)
    requires CanStep(w, l) && IsFinishStep(l)
    ensures ReturnOk(RoutineStep(w, l))
  {
  }

}
