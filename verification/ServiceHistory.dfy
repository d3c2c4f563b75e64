/** What a worker's signals come to: when they are taken, and what they mean for as long as the
    worker serves. */
module ServiceHistory {
  import opened Basics
  import opened Lifecycle
  import opened EventLog
  import opened RuntimeSteps
  import opened RuntimeInvariant
  import opened RuntimeSafety
  import opened Interference
  import opened OperationSteps
  import opened RuntimeTheorems

  /** Signals are taken from the current generation while the worker starts or runs; while it
      drains, only those that take something back. */
  ghost predicate TakesSignal(c: Core, h: Handle, positive: bool) {
    && h.worker in c.workers && c.workers[h.worker].generation == h.generation
    && (c.workers[h.worker].lifecycle in {Starting, Running}
        || (c.workers[h.worker].lifecycle == Draining && !positive))
  }

  /** Why a signal is refused. */
  ghost function SignalRefusal(c: Core, h: Handle): Result
    requires h.worker in c.workers
  {
    if c.workers[h.worker].generation != h.generation then StaleGeneration else InvalidState
  }

  /** The worker is ready afterwards iff the signal says so, and nothing but the status follows
      from it. */
  lemma ReadySignal(s: System, h: Handle, ready: bool)
    requires Reachable(s) && Enabled(s.core, SetReady(h, ready))
    ensures var c, t := s.core, Next(s, SetReady(h, ready));
            && h.worker in c.workers
            && Apply(c, SetReady(h, ready)).result
               == (if TakesSignal(c, h, ready) then Done else SignalRefusal(c, h))
            && if TakesSignal(c, h, ready) then
                 var w := c.workers[h.worker];
                 var w' := w.(ready := ready, readySetDuringStart := w.lifecycle == Starting);
                 t.core == c.(workers := c.workers[h.worker := w'], status := t.core.status)
               else t == s
  {
    hide Reachable, Observed;
    HandleIsIssued(s, h);
    assert s.log + [] == s.log;
  }

  lemma AcceptingSignal(s: System, h: Handle, accepting: bool)
    requires Reachable(s) && Enabled(s.core, SetAcceptingWork(h, accepting))
    ensures var c, t := s.core, Next(s, SetAcceptingWork(h, accepting));
            && h.worker in c.workers && t.log == s.log
            && Apply(c, SetAcceptingWork(h, accepting)).result
               == (if TakesSignal(c, h, accepting) then Done else SignalRefusal(c, h))
            && if TakesSignal(c, h, accepting) then
                 var w := c.workers[h.worker];
                 var w' := w.(acceptingWork := accepting, acceptingWorkSetDuringStart := w.lifecycle == Starting);
                 t.core == c.(workers := c.workers[h.worker := w'], status := t.core.status)
               else t == s
  {
    hide Reachable, Commit;
    HandleIsIssued(s, h);
    assert s.log + [] == s.log;
  }

  lemma HandleIsIssued(s: System, h: Handle)
    requires Reachable(s) && h in s.core.handles
    ensures h.worker in s.core.workers && RecordOk(s.core.workers[h.worker])
  {
    ReachableInv(s);
    assert Issued(s.core, h);
  }

  // ---------------------------------------------------------------------------
  // One worker's lifecycle, step by step.

  /** What any step does to lifecycle and generation: a new generation comes only with entering
      a start; everything else is a legal change within the generation. */
  ghost predicate Advances(w: Worker, w': Worker) {
    || (w'.generation == w.generation + 1 && w'.lifecycle == Starting && LegalChange(w.lifecycle, Starting))
    || (w'.generation == w.generation
        && (w'.lifecycle == w.lifecycle || (LegalChange(w.lifecycle, w'.lifecycle) && w'.lifecycle != Starting)))
  }

  lemma StartAdvances(c: Core, name: Name)
    requires name in c.workers
    ensures var c' := BeginWorkerStart(c, name).core;
            name in c'.workers && Advances(c.workers[name], c'.workers[name])
  {
    hide Observed;
  }

  lemma StopAdvances(c: Core, name: Name)
    requires name in c.workers
    ensures var c' := BeginWorkerStop(c, name).core;
            name in c'.workers && Advances(c.workers[name], c'.workers[name])
  {
    hide Observed;
  }

  lemma DrainAdvances(c: Core, name: Name)
    requires name in c.workers
    ensures var c' := BeginWorkerDrain(c, name).core;
            name in c'.workers && Advances(c.workers[name], c'.workers[name])
  {
    hide Observed, Commit;
  }

  lemma BeginAdvances(c: Core, l: Label)
    requires Enabled(c, l) && (l.BeginStart? || l.BeginStop? || l.BeginDrain?) && l.name in c.workers
    ensures l.name in Apply(c, l).core.workers && Advances(c.workers[l.name], Apply(c, l).core.workers[l.name])
  {
    hide BeginWorkerStart, BeginWorkerStop, BeginWorkerDrain, Advances;
    match l
    case BeginStart(name) => StartAdvances(c, name);
    case BeginStop(name) => StopAdvances(c, name);
    case BeginDrain(name) => DrainAdvances(c, name);
  }

  lemma CompletionAdvances(c: Core, name: Name, generation: nat, ready: bool, accepting: bool)
    requires name in c.workers
    ensures var c' := CompleteWorkerStart(c, name, generation, ready, accepting).core;
            name in c'.workers && Advances(c.workers[name], c'.workers[name])
    ensures var c' := CompleteWorkerStop(c, name, generation).core;
            name in c'.workers && Advances(c.workers[name], c'.workers[name])
  {
    hide Observed;
  }

  lemma FailureAdvances(c: Core, name: Name, generation: nat, err: Error, panicked: bool)
    requires name in c.workers && c.workers[name].lifecycle in {Starting, Stopping}
    ensures var c' := FailWorker(c, name, generation, err, panicked).core;
            name in c'.workers && Advances(c.workers[name], c'.workers[name])
    ensures var c' := FailLoopCleanup(c, name, generation, err).core;
            name in c'.workers && Advances(c.workers[name], c'.workers[name])
  {
    hide Observed;
  }

  lemma BusyAdvances(c: Core, l: Label, n: Name, c': Core)
    requires Enabled(c, l) && c' == Apply(c, l).core && Busy(c) && n == c.gate.activity.name
    requires l.CompleteStart? || l.CompleteStop? || l.FailOperation? || l.FailCleanup?
    requires n in c.workers && c.workers[n].lifecycle in {Starting, Stopping}
    ensures n in c'.workers && Advances(c.workers[n], c'.workers[n])
  {
    hide CompleteWorkerStart, CompleteWorkerStop, FailWorker, FailLoopCleanup, Advances, FailsWith;
    var g := c.gate.activity.generation;
    match l
    case CompleteStart => CompletionAdvances(c, n, g, c.configs[n].readyOnStart, c.configs[n].acceptingWork);
    case CompleteStop => CompletionAdvances(c, n, g, false, false);
    case FailOperation(err, panicked) => FailureAdvances(c, n, g, err, panicked);
    case FailCleanup(err) => FailureAdvances(c, n, g, err, false);
  }

  lemma CallAdvances(c: Core, l: Label, n: Name)
    requires Enabled(c, l) && (l.CallStart? || l.CallStop? || l.Answer? || l.RecordFailure?) && n in c.workers
    ensures n in Apply(c, l).core.workers && Advances(c.workers[n], Apply(c, l).core.workers[n])
  {
  }

  lemma OperationAdvances(c: Core, l: Label, n: Name)
    requires Enabled(c, l) && IsOperationStep(l) && n in c.workers
    requires CoreOk(c)
    ensures n in Apply(c, l).core.workers && Advances(c.workers[n], Apply(c, l).core.workers[n])
  {
    hide Apply, CoreOk, Advances, CallsNoStop;
    StepOperates(c, l);
    if n != OperatesOn(c, l) {
      Unmoved(c.workers[n]);
    } else if l.BeginStart? || l.BeginStop? || l.BeginDrain? {
      BeginAdvances(c, l);
    } else if l.CallStart? || l.CallStop? || l.Answer? || l.RecordFailure? {
      CallAdvances(c, l, n);
    } else {
      BusyRecord(c);
      BusyAdvances(c, l, n, Apply(c, l).core);
    }
  }

  lemma Unmoved(w: Worker)
    ensures Advances(w, w)
  {
  }

  lemma FreeAdvances(w: Worker, w': Worker)
    requires FreeChange(w, w')
    ensures Advances(w, w')
  {
  }

  lemma TouchedAdvances(c: Core, c': Core, m: Name, n: Name)
    requires TouchesAtMost(c, c', m) && n in c.workers
    ensures n in c'.workers && Advances(c.workers[n], c'.workers[n])
  {
    hide Advances;
    Unmoved(c.workers[n]);
    if c'.workers != c.workers && n == m {
      FreeAdvances(c.workers[n], c'.workers[n]);
    }
  }

  /** Every step of every party. */
  lemma StepAdvances(s: System, l: Label, n: Name)
    requires Reachable(s) && Enabled(s.core, l) && n in s.core.workers
    ensures n in Next(s, l).core.workers && Advances(s.core.workers[n], Next(s, l).core.workers[n])
  {
    hide Apply, CoreOk, Advances, TouchesAtMost, Reachable, Inv, GrowsAtMost;
    ReachableInv(s);
    InvCore(s);
    var c, c' := s.core, Apply(s.core, l).core;
    Unmoved(c.workers[n]);
    if IsHandleStep(l) {
      HandleStepTouches(c, l);
      TouchedAdvances(c, c', Target(c, l), n);
    } else if IsDispatchStep(l) {
      DispatchStepTouches(c, l);
      TouchedAdvances(c, c', Target(c, l), n);
    } else if l.Register? {
      RegisterAdvances(c, l, n);
    } else if IsOperationStep(l) {
      OperationAdvances(c, l, n);
    } else {
      GateStepWorkers(c, l);
    }
  }

  lemma RegisterAdvances(c: Core, l: Label, n: Name)
    requires CoreOk(c) && Enabled(c, l) && l.Register? && n in c.workers
    ensures n in Apply(c, l).core.workers && Apply(c, l).core.workers[n] == c.workers[n]
  {
    hide Recompute, GateOk, StatusOk, SlotsOk, HandlesOk, RecordsOk;
  }

  // ---------------------------------------------------------------------------
  // Serving.

  /** The worker runs, in this generation. */
  ghost predicate Serves(c: Core, h: Handle) {
    h.worker in c.workers && c.workers[h.worker].lifecycle == Running && c.workers[h.worker].generation == h.generation
  }

  /** The worker's service in this generation is over. */
  ghost predicate Served(c: Core, h: Handle) {
    && h.worker in c.workers
    && (c.workers[h.worker].generation > h.generation
        || (c.workers[h.worker].generation == h.generation
            && c.workers[h.worker].lifecycle in {Draining, Stopping, Stopped, Failed}))
  }

  lemma ServiceEndsOnce(s: System, l: Label, h: Handle)
    requires Reachable(s) && Enabled(s.core, l)
    ensures Served(s.core, h) ==> Served(Next(s, l).core, h)
    ensures Serves(s.core, h) ==> Serves(Next(s, l).core, h) || Served(Next(s, l).core, h)
  {
    hide Reachable, Next;
    if h.worker in s.core.workers {
      StepAdvances(s, l, h.worker);
    }
  }

  lemma {:induction false} ServedForGood(s: System, run: seq<Label>, h: Handle)
    requires Reachable(s) && IsRun(s, run) && Served(s.core, h)
    ensures Served(After(s, run).core, h)
    decreases |run|
  {
    hide Reachable, Next, Served;
    if run != [] {
      ServiceEndsOnce(s, run[0], h);
      StepStaysReachable(s, run[0]);
      ServedForGood(Next(s, run[0]), run[1..], h);
    }
  }

  /** The last readiness signal of a handle in the run, or what was before. */
  function LastReady(run: seq<Label>, h: Handle, before: bool): bool {
    if run == [] then before
    else LastReady(run[1..], h, if run[0].SetReady? && run[0].handle == h then run[0].ready else before)
  }

  function LastAccepting(run: seq<Label>, h: Handle, before: bool): bool {
    if run == [] then before
    else LastAccepting(run[1..], h, if run[0].SetAcceptingWork? && run[0].handle == h then run[0].accepting else before)
  }

  lemma OperationSpares(c: Core, l: Label, h: Handle)
    requires CoreOk(c) && Enabled(c, l) && IsOperationStep(l) && Serves(c, h) && Serves(Apply(c, l).core, h)
    ensures var w, w' := c.workers[h.worker], Apply(c, l).core.workers[h.worker];
            w'.ready == w.ready && w'.acceptingWork == w.acceptingWork
  {
    hide Apply, UngatedOk, CallsNoStop;
    StepOperates(c, l);
    if h.worker == OperatesOn(c, l) {
      if l.BeginStart? || l.BeginStop? || l.BeginDrain? {
        BeginEndsService(c, l);
      } else {
        BusyRecord(c);
      }
    }
  }

  lemma BeginEndsService(c: Core, l: Label)
    requires Enabled(c, l) && (l.BeginStart? || l.BeginStop? || l.BeginDrain?)
    requires l.name in c.workers && c.workers[l.name].lifecycle == Running
    ensures var c' := Apply(c, l).core;
            if l.BeginStart? then c' == c
            else l.name in c'.workers && c'.workers[l.name].lifecycle in {Stopping, Draining}
  {
    hide Observed;
  }

  lemma SetReadySignals(c: Core, g: Handle, ready: bool, h: Handle)
    requires Serves(c, h)
    ensures var c' := SetWorkerReady(c, g.worker, g.generation, ready).core;
            && h.worker in c'.workers
            && c'.workers[h.worker].ready == (if g == h then ready else c.workers[h.worker].ready)
            && c'.workers[h.worker].acceptingWork == c.workers[h.worker].acceptingWork
  {
    hide Observed;
  }

  lemma SetAcceptingSignals(c: Core, g: Handle, accepting: bool, h: Handle)
    requires Serves(c, h)
    ensures var c' := SetWorkerAcceptingWork(c, g.worker, g.generation, accepting).core;
            && h.worker in c'.workers
            && c'.workers[h.worker].ready == c.workers[h.worker].ready
            && c'.workers[h.worker].acceptingWork == (if g == h then accepting else c.workers[h.worker].acceptingWork)
  {
    hide Commit;
  }

  lemma ReportSignals(c: Core, g: Handle, err: Error, h: Handle)
    requires Serves(c, h) && Serves(ReportWorkerFailure(c, g.worker, g.generation, err).core, h)
    ensures ReportWorkerFailure(c, g.worker, g.generation, err).core.workers[h.worker] == c.workers[h.worker]
  {
    hide Observed;
  }

  lemma HandleStepSignals(c: Core, l: Label, h: Handle)
    requires Enabled(c, l) && IsHandleStep(l) && Serves(c, h) && Serves(Apply(c, l).core, h)
    ensures var w, w' := c.workers[h.worker], Apply(c, l).core.workers[h.worker];
            && w'.ready == LastReady([l], h, w.ready)
            && w'.acceptingWork == LastAccepting([l], h, w.acceptingWork)
  {
    hide SetWorkerReady, SetWorkerAcceptingWork, ReportWorkerFailure;
    assert [l][1..] == [];
    match l
    case SetReady(g, ready) => SetReadySignals(c, g, ready, h);
    case SetAcceptingWork(g, accepting) => SetAcceptingSignals(c, g, accepting, h);
    case ReportFailure(g, err) => ReportSignals(c, g, err, h);
    case ObserveCleanup(_, _, _) =>
  }

  /** Counting a command in or out spares the signals. */
  lemma SlotSpares(c: Core, id: nat, name: Name, n: Name)
    requires n in c.workers
    ensures var c' := AdmitCommand(c, id, name).core;
            n in c'.workers && c'.workers[n] == c.workers[n].(inFlight := c'.workers[n].inFlight)
    ensures var c' := ReleaseCommandSlot(c, id, name).core;
            n in c'.workers && c'.workers[n] == c.workers[n].(inFlight := c'.workers[n].inFlight)
  {
  }

  /** Recording a command's failure spares them, as long as the worker goes on serving. */
  lemma RecordSpares(c: Core, id: nat, g: Handle, err: Error, h: Handle)
    requires g.worker in c.workers && Serves(c, h)
    ensures var c' := RecordCommandFailure(c, id, g.worker, g.generation, err).core;
            && h.worker in c'.workers
            && var w, w' := c.workers[h.worker], c'.workers[h.worker];
               w' == w.(lastCommandFailure := w'.lastCommandFailure)
    ensures var c' := RecordCommandPanic(c, id, g.worker, g.generation, err).core;
            Serves(c', h) ==> c'.workers[h.worker] == c.workers[h.worker]
  {
    hide Observed, RecordCommandPanic;
    PanicCases(c, id, g.worker, g.generation, err);
  }

  predicate SameSignals(w: Worker, w': Worker) { w'.ready == w.ready && w'.acceptingWork == w.acceptingWork }

  lemma SlotStepSpares(c: Core, l: Label, n: Name)
    requires Enabled(c, l) && (l.Admit? || l.Release?) && n in c.workers
    ensures n in Apply(c, l).core.workers && SameSignals(c.workers[n], Apply(c, l).core.workers[n])
  {
    hide AdmitCommand, ReleaseCommandSlot;
    if l.Admit? {
      SlotSpares(c.(pending := c.pending - {l.id}, replies := c.replies - {l.id}), l.id, l.name, n);
    } else {
      SlotSpares(c, l.id, c.dispatches[l.id].worker, n);
    }
  }

  lemma RecordStepSpares(c: Core, l: Label, h: Handle)
    requires Enabled(c, l) && (l.CommandFailed? || l.CommandPanicked?) && Serves(c, h) && Serves(Apply(c, l).core, h)
    ensures SameSignals(c.workers[h.worker], Apply(c, l).core.workers[h.worker])
  {
    hide RecordCommandFailure, RecordCommandPanic;
    RecordSpares(c, l.id, c.dispatches[l.id], l.err, h);
  }

  lemma QuietStepSpares(c: Core, l: Label)
    requires Enabled(c, l) && (l.NewDispatch? || l.CallHandler? || l.HandlerReturns? || l.EndObservation?)
    ensures Apply(c, l).core.workers == c.workers
  {
  }

  lemma DispatchStepSpares(c: Core, l: Label, h: Handle)
    requires Enabled(c, l) && IsDispatchStep(l) && Serves(c, h) && Serves(Apply(c, l).core, h)
    ensures SameSignals(c.workers[h.worker], Apply(c, l).core.workers[h.worker])
  {
    hide Apply, Enabled;
    if l.Admit? || l.Release? {
      SlotStepSpares(c, l, h.worker);
    } else if l.CommandFailed? || l.CommandPanicked? {
      RecordStepSpares(c, l, h);
    } else {
      QuietStepSpares(c, l);
    }
  }

  /** While it serves, a worker's readiness changes with its own signals only. */
  lemma StepSignals(s: System, l: Label, h: Handle)
    requires Reachable(s) && Enabled(s.core, l) && Serves(s.core, h) && Serves(Next(s, l).core, h)
    ensures var w, w' := s.core.workers[h.worker], Next(s, l).core.workers[h.worker];
            && w'.ready == LastReady([l], h, w.ready)
            && w'.acceptingWork == LastAccepting([l], h, w.acceptingWork)
  {
    hide Apply, CoreOk, Reachable, Inv, Serves;
    ReachableInv(s);
    InvCore(s);
    var c := s.core;
    assert [l][1..] == [];
    ServesHere(c, h);
    if IsHandleStep(l) {
      HandleStepSignals(c, l, h);
    } else if IsDispatchStep(l) {
      DispatchStepSpares(c, l, h);
    } else if l.Register? {
      RegisterAdvances(c, l, h.worker);
    } else if IsOperationStep(l) {
      OperationSpares(c, l, h);
    } else {
      GateStepWorkers(c, l);
    }
  }

  lemma ServesHere(c: Core, h: Handle)
    requires Serves(c, h)
    ensures h.worker in c.workers
  {
  }

  /** As long as a worker serves in one generation, it is ready, and accepts work, as its last
      signal of that generation said, or as when it entered service. */
  lemma {:induction false} LastSignalCounts(s: System, run: seq<Label>, h: Handle)
    requires Reachable(s) && IsRun(s, run) && Serves(s.core, h) && Serves(After(s, run).core, h)
    ensures var w, w' := s.core.workers[h.worker], After(s, run).core.workers[h.worker];
            && w'.ready == LastReady(run, h, w.ready)
            && w'.acceptingWork == LastAccepting(run, h, w.acceptingWork)
    decreases |run|
  {
    hide Reachable, Next;
    if run != [] {
      var m := Next(s, run[0]);
      StepStaysReachable(s, run[0]);
      ServiceEndsOnce(s, run[0], h);
      if Served(m.core, h) {
        ServedForGood(m, run[1..], h);
        assert false;
      }
      StepSignals(s, run[0], h);
      assert [run[0]][1..] == [];
      LastSignalCounts(m, run[1..], h);
    }
  }
}
