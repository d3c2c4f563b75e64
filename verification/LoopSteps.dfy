/** loop.go as a step system: the caller of Start or Stop (one at a time, as the lifecycle
    gate of the runtime makes it), and one goroutine for every loop ever launched. */
module LoopSteps {
  import opened Basics
  import RuntimeSteps

  type Handle = RuntimeSteps.Handle

  datatype LoopState = LoopIdle | LoopStarting | LoopRunning | LoopStopping | LoopStopped

  /** The fields of a LoopWorker its mutex guards. A loop is named by its epoch, which stands
      for its cancel function and its done channel; a cleanup attempt by a number. */
  datatype Fields = Fields(
    state: LoopState,
    cancel: Option<nat>,
    done: Option<nat>,
    runtime: Option<Handle>,
    stopHookRunning: bool,
    stopHookComplete: bool,
    stopHookAttempt: Option<nat>)

  const NewFields := Fields(LoopIdle, None, None, None, false, false, None)

  /** One cleanup attempt: whether its channel is closed, and the published error. */
  datatype Attempt = Attempt(closed: bool, err: Option<Error>)

  /** How a call or a hook came back. */
  datatype Return = Nil | Err(err: Error) | Panic

  // ---------------------------------------------------------------------------
  // The mutex-guarded helpers, on the fields.

  datatype StartCheck = Accepted | CleanupPending | Active

  function CheckStart(f: Fields): StartCheck {
    if !f.stopHookComplete && (f.stopHookAttempt.Some? || f.state == LoopStopped) then CleanupPending
    else if f.state == LoopStarting || f.state == LoopRunning || f.state == LoopStopping then Active
    else Accepted
  }

  function BeginStart(f: Fields): Fields {
    f.(state := LoopStarting, stopHookRunning := false, stopHookComplete := false, stopHookAttempt := None)
  }

  function FinishStart(f: Fields, runtime: Handle, epoch: nat): Fields {
    f.(runtime := Some(runtime), cancel := Some(epoch), done := Some(epoch), state := LoopRunning)
  }

  function FinishFailedStart(f: Fields): Fields { f.(state := LoopIdle) }

  /** The loop a Stop has to cancel and wait for, if any. */
  function StopTarget(f: Fields): Option<nat> {
    if f.cancel.None? || f.done.None? then None
    else if f.state == LoopRunning || f.state == LoopStopping then f.done
    else None
  }

  function BeginStop(f: Fields): Fields {
    if StopTarget(f).Some? then f.(state := LoopStopping) else f
  }

  function MarkStopping(f: Fields, epoch: nat): Fields {
    if f.done == Some(epoch) then f.(state := LoopStopping) else f
  }

  predicate StopRequested(f: Fields, cancelled: bool) { f.state == LoopStopping && cancelled }

  function JudgeExit(f: Fields, epoch: nat, cancelled: bool): Fields {
    if f.done == Some(epoch) && !StopRequested(f, cancelled) then f.(state := LoopStopping) else f
  }

  /** A nil exit or the cancellation itself, of a cancelled loop. */
  predicate IntentionalLoopStop(loopErr: Option<Error>, contextErr: Option<Error>) {
    contextErr.Some? && (loopErr.None? || loopErr == contextErr)
  }

  function FinishLoop(f: Fields, epoch: nat): Fields {
    if f.done == Some(epoch) then f.(cancel := None, done := None, runtime := None, state := LoopStopped) else f
  }

  /** A new attempt may run: none is running and none has succeeded. */
  predicate HookMayRun(f: Fields) { !f.stopHookComplete && !f.stopHookRunning }

  function BeginStopHook(f: Fields, attempt: nat): Fields {
    if HookMayRun(f) then f.(stopHookAttempt := Some(attempt), stopHookRunning := true) else f
  }

  predicate HookIsCurrent(f: Fields, attempt: nat) { f.stopHookAttempt == Some(attempt) && f.stopHookRunning }

  function FinishStopHook(f: Fields, attempt: nat, err: Option<Error>): Fields {
    if HookIsCurrent(f, attempt) then f.(stopHookRunning := false, stopHookComplete := err.None?) else f
  }

  // ---------------------------------------------------------------------------
  // Threads.

  /** Where the one caller of Start or Stop is; inStart tells which of the two it is in. */
  datatype Caller =
    | NoCall
    | InOnStart(runtime: Handle)
    | Spawning(epoch: nat)
    | Readying(epoch: nat)
    | Marking(epoch: nat)
    | Cancelling(epoch: nat, inStart: bool)
    | Waiting(epoch: nat, inStart: bool)
    | Cleaning(inStart: bool)
    | InHook(attempt: nat, inStart: bool)
    | Publishing(attempt: nat, result: Return, inStart: bool)
    | Joining(attempt: nat, inStart: bool)
    | Returned(result: Return, inStart: bool)

  /** Where the goroutine of one loop is. */
  datatype Routine =
    | Unspawned
    | Body
    | Judging
    | Reporting
    | SelfCleaning
    | InSelfHook(attempt: nat)
    | SelfPublishing(attempt: nat, result: Return)
    | SelfJoining(attempt: nat)
    | Telling(result: Return)
    | Finishing
    | Closing
    | Exited
    | Unwound   // a cleanup panic was re-raised

  /** What is known about the life of one loop: the handle it was launched with, where its
      goroutine is, whether a stop was requested and its cancel function called, how its body
      came back, whether the exit was judged to be requested, whether it was reported, and
      whether its done channel was closed. */
  datatype Life = Life(
    handle: Handle,
    at: Routine,
    requested: bool,
    cancelled: bool,
    exit: Option<Option<Error>>,
    judged: Option<bool>,
    reported: bool,
    closed: bool)

  datatype Loop = Loop(
    autoReady: bool,
    crashOnPanic: bool,
    fields: Fields,
    attempts: seq<Attempt>,
    caller: Caller,
    lives: seq<Life>,                // one for every epoch so far
    cleanups: seq<nat>,              // for every epoch, how many cleanups succeeded
    round: Option<nat>)              // the epoch launched since the last accepted Start

  function NewLoop(autoReady: bool, crashOnPanic: bool): Loop {
    Loop(autoReady, crashOnPanic, NewFields, [], NoCall, [], [], None)
  }

  datatype Step =
    // The caller.
    | CallLoopStart(runtime: Handle)
    | CallLoopStop
    | OnStart(result: Return)
    | Spawn
    | Ready(ok: bool)
    | Mark
    | Cancel
    | SeeDone
    | GiveUp
    | NoHandle
    | BeginHook
    | HookReturns(result: Return)
    | PublishHook
    | Join
    | TakeResult
    // The goroutine of one epoch.
    | BodyReturns(epoch: nat, err: Option<Error>)
    | Judge(epoch: nat)
    | Report(epoch: nat)
    | BeginSelfHook(epoch: nat)
    | SelfHookReturns(epoch: nat, result: Return)
    | PublishSelfHook(epoch: nat)
    | SelfJoin(epoch: nat)
    | SelfTimeout(epoch: nat)
    | Tell(epoch: nat)
    | Finish(epoch: nat)
    | Close(epoch: nat)

  predicate IsCallerStep(l: Step) {
    l.CallLoopStart? || l.CallLoopStop? || l.OnStart? || l.Spawn? || l.Ready? || l.Mark? || l.Cancel? || l.SeeDone?
    || l.GiveUp? || l.NoHandle? || l.BeginHook? || l.HookReturns? || l.PublishHook? || l.Join? || l.TakeResult?
  }

  predicate At(w: Loop, epoch: nat, r: Routine) {
    epoch < |w.lives| && w.lives[epoch].at == r
  }

  predicate CanStep(w: Loop, l: Step) {
    match l
    case CallLoopStart(_) => w.caller.NoCall?
    case CallLoopStop => w.caller.NoCall?
    case OnStart(_) => w.caller.InOnStart?
    case Spawn => w.caller.Spawning? && w.caller.epoch < |w.lives|
    case Ready(_) => w.caller.Readying?
    case Mark => w.caller.Marking? && w.caller.epoch < |w.lives|
    case Cancel => w.caller.Cancelling? && w.caller.epoch < |w.lives|
    case SeeDone => w.caller.Waiting? && w.caller.epoch < |w.lives| && w.lives[w.caller.epoch].closed
    case GiveUp => w.caller.Waiting? || w.caller.Joining?
    case NoHandle => w.caller.Cleaning? && !w.caller.inStart
    case BeginHook => w.caller.Cleaning?
    case HookReturns(_) => w.caller.InHook?
    case PublishHook => w.caller.Publishing? && w.caller.attempt < |w.attempts|
    case Join => w.caller.Joining? && w.caller.attempt < |w.attempts| && w.attempts[w.caller.attempt].closed
    case TakeResult => w.caller.Returned?
    case BodyReturns(e, _) => At(w, e, Body)
    case Judge(e) => At(w, e, Judging) && w.lives[e].exit.Some?
    case Report(e) => At(w, e, Reporting)
    case BeginSelfHook(e) => At(w, e, SelfCleaning)
    case SelfHookReturns(e, _) => e < |w.lives| && w.lives[e].at.InSelfHook?
    case PublishSelfHook(e) => e < |w.lives| && w.lives[e].at.SelfPublishing? && w.lives[e].at.attempt < |w.attempts|
    case SelfJoin(e) => e < |w.lives| && w.lives[e].at.SelfJoining? && w.lives[e].at.attempt < |w.attempts|
                        && w.attempts[w.lives[e].at.attempt].closed
    case SelfTimeout(e) => e < |w.lives| && w.lives[e].at.SelfJoining?
    case Tell(e) => e < |w.lives| && w.lives[e].at.Telling?
    case Finish(e) => At(w, e, Finishing)
    case Close(e) => At(w, e, Closing)
  }

  // The error of a hook, as published and returned: told apart by its type.
  function HookError(result: Return): Option<Error> {
    match result
    case Nil => None
    case Err(err) => Some(LoopCleanup(if err.Private? then err.id else 0))
    case Panic => Some(LoopCleanup(0))
  }

  function AsReturn(err: Option<Error>): Return {
    if err.None? then Nil else Err(err.value)
  }

  /** What Start or Stop returns after its cleanup. Start failed for another reason already: it
      returns that error, or joins a cleanup error to it, which the runtime does not take for a
      loop-cleanup error then. */
  function AfterCleanup(result: Return, inStart: bool): Return {
    if inStart && !result.Panic? then Err(WrongState) else result
  }

  function MoveTo(w: Loop, epoch: nat, r: Routine): Loop
    requires epoch < |w.lives|
  {
    w.(lives := w.lives[epoch := w.lives[epoch].(at := r)])
  }

  function ChangeLife(w: Loop, epoch: nat, life: Life): Loop
    requires epoch < |w.lives|
  {
    w.(lives := w.lives[epoch := life])
  }

  /** finishStopHook: publishes the result of an attempt and closes its channel. A success
      counts for the loop launched in this round. */
  function PublishAttempt(w: Loop, attempt: nat, result: Return): (w': Loop)
    requires attempt < |w.attempts|
    ensures w' == w.(fields := w'.fields, attempts := w'.attempts, cleanups := w'.cleanups)
    ensures w'.fields == w.fields.(stopHookRunning := w'.fields.stopHookRunning,
          stopHookComplete := w'.fields.stopHookComplete)
  {
    var err := HookError(result);
    if !HookIsCurrent(w.fields, attempt) then w
    else
      w.(fields := FinishStopHook(w.fields, attempt, err),
         attempts := w.attempts[attempt := Attempt(true, err)],
         cleanups := if err.None? && w.round.Some? && w.round.value < |w.cleanups|
                     then w.cleanups[w.round.value := w.cleanups[w.round.value] + 1]
                     else w.cleanups)
  }

  /** beginStopHook: a new attempt, unless one is running or has succeeded. */
  function StartAttempt(w: Loop): (w': Loop)
    ensures w' == w.(fields := w'.fields, attempts := w'.attempts)
    ensures w'.fields == w.fields.(stopHookRunning := w'.fields.stopHookRunning,
          stopHookAttempt := w'.fields.stopHookAttempt)
  {
    if HookMayRun(w.fields)
    then w.(fields := BeginStopHook(w.fields, |w.attempts|), attempts := w.attempts + [Attempt(false, None)])
    else w
  }

  /** The attempt a joining thread waits for; a nil one would be dereferenced. */
  function Joined(f: Fields): nat {
    if f.stopHookAttempt.Some? then f.stopHookAttempt.value else 0
  }

  function CallerStep(w: Loop, l: Step): Loop
    requires CanStep(w, l) && IsCallerStep(l)
  {
    match l
    case CallLoopStart(h) =>
      (match CheckStart(w.fields)
       case Accepted => w.(fields := BeginStart(w.fields), caller := InOnStart(h), round := None)
       case CleanupPending => w.(caller := Returned(Err(LoopCleanup(0)), true))
       case Active => w.(caller := Returned(Err(WrongState), true)))
    case OnStart(result) =>
      if result.Nil? then
        var e := |w.lives|;
        w.(fields := FinishStart(w.fields, w.caller.runtime, e),
           lives := w.lives + [Life(w.caller.runtime, Unspawned, false, false, None, None, false, false)],
           cleanups := w.cleanups + [0],
           round := Some(e),
           caller := Spawning(e))
      else w.(fields := FinishFailedStart(w.fields), caller := Returned(result, true))
    case Spawn =>
      var e := w.caller.epoch;
      MoveTo(w, e, Body).(caller := if w.autoReady then Readying(e) else Returned(Nil, true))
    case Ready(ok) => w.(caller := if ok then Returned(Nil, true) else Marking(w.caller.epoch))
    case Mark =>
      var e := w.caller.epoch;
      ChangeLife(w, e, w.lives[e].(requested := true)).(fields := MarkStopping(w.fields, e),
          caller := Cancelling(e, true))
    case CallLoopStop =>
      var target := StopTarget(w.fields);
      if target.Some? && target.value < |w.lives| then
        var e := target.value;
        ChangeLife(w, e, w.lives[e].(requested := true)).(fields := BeginStop(w.fields), caller := Cancelling(e, false))
      else w.(caller := Cleaning(false))
    case Cancel =>
      var e := w.caller.epoch;
      ChangeLife(w, e, w.lives[e].(cancelled := true)).(caller := Waiting(e, w.caller.inStart))
    case SeeDone => w.(caller := Cleaning(w.caller.inStart))
    case GiveUp => w.(caller := Returned(Err(if w.caller.inStart then WrongState else ContextDone), w.caller.inStart))
    case NoHandle => w.(caller := Returned(Err(WrongState), false))
    case BeginHook =>
      StartAttempt(w).(caller := if HookMayRun(w.fields) then InHook(|w.attempts|, w.caller.inStart)
                          else Joining(Joined(w.fields), w.caller.inStart))
    case HookReturns(result) => w.(caller := Publishing(w.caller.attempt, result, w.caller.inStart))
    case PublishHook =>
      var result := if w.caller.result.Panic? then Panic else AsReturn(HookError(w.caller.result));
      PublishAttempt(w, w.caller.attempt, w.caller.result).(caller := Returned(AfterCleanup(result,
            w.caller.inStart), w.caller.inStart))
    case Join =>
      w.(caller := Returned(AfterCleanup(AsReturn(w.attempts[w.caller.attempt].err), w.caller.inStart),
          w.caller.inStart))
    case TakeResult => w.(caller := NoCall)
  }

  function RoutineStep(w: Loop, l: Step): Loop
    requires CanStep(w, l) && !IsCallerStep(l)
  {
    var life := w.lives[l.epoch];
    match l
    case BodyReturns(e, err) => ChangeLife(w, e, life.(exit := Some(err), at := Judging))
    case Judge(e) =>
      var stopRequested := StopRequested(w.fields, life.cancelled);
      var intentional := stopRequested && IntentionalLoopStop(life.exit.value,
            if life.cancelled then Some(ContextDone) else None);
      ChangeLife(w, e, life.(judged := Some(stopRequested), at := if intentional then Finishing else Reporting)).(
        fields := JudgeExit(w.fields, e, life.cancelled))
    case Report(e) => ChangeLife(w, e, life.(reported := true, at := SelfCleaning))
    case BeginSelfHook(e) =>
      MoveTo(StartAttempt(w), e, if HookMayRun(w.fields) then InSelfHook(|w.attempts|)
          else SelfJoining(Joined(w.fields)))
    case SelfHookReturns(e, result) => MoveTo(w, e, SelfPublishing(w.lives[e].at.attempt, result))
    case PublishSelfHook(e) =>
      var result := w.lives[e].at.result;
      MoveTo(PublishAttempt(w, w.lives[e].at.attempt, result), e, if result.Nil? then Finishing else Telling(result))
    case SelfJoin(e) =>
      var err := w.attempts[w.lives[e].at.attempt].err;
      MoveTo(w, e, if err.None? then Finishing else Telling(Err(err.value)))
    case SelfTimeout(e) => MoveTo(w, e, Telling(Err(ContextDone)))
    case Tell(e) => MoveTo(w, e, if w.lives[e].at.result.Panic? && w.crashOnPanic then Unwound else Finishing)
    case Finish(e) => MoveTo(w, e, Closing).(fields := FinishLoop(w.fields, e))
    case Close(e) => ChangeLife(w, e, life.(closed := true, at := Exited))
  }

  function Then(w: Loop, l: Step): Loop
    requires CanStep(w, l)
  {
    if IsCallerStep(l) then CallerStep(w, l) else RoutineStep(w, l)
  }

  predicate IsLoopRun(w: Loop, run: seq<Step>)
    decreases |run|
  {
    run == [] || (CanStep(w, run[0]) && IsLoopRun(Then(w, run[0]), run[1..]))
  }

  function AfterLoopRun(w: Loop, run: seq<Step>): Loop
    requires IsLoopRun(w, run)
    decreases |run|
  {
    if run == [] then w else AfterLoopRun(Then(w, run[0]), run[1..])
  }
}
