/** What steps that hold no lifecycle gate can and cannot do to the runtime. */
module Interference {
  import opened Lifecycle
  import opened RuntimeSteps
  import opened Basics

  /** The worker a free step is about. */
  function Target(c: Core, l: Label): Name
    requires Enabled(c, l) && IsFreeStep(l)
  {
    match l
    case SetReady(h, _) => h.worker
    case SetAcceptingWork(h, _) => h.worker
    case ReportFailure(h, _) => h.worker
    case ObserveCleanup(h, _, _) => h.worker
    case Admit(_, name) => name
    case CallHandler(id) => c.dispatches[id].worker
    case HandlerReturns(id, _) => c.dispatches[id].worker
    case CommandFailed(id, _) => c.dispatches[id].worker
    case CommandPanicked(id, _) => c.dispatches[id].worker
    case Release(id) => c.dispatches[id].worker
    case _ => ""
  }

  /** A free step may fail a serving worker; it never starts, stops or revives one, and never
      takes back a failure reported during start. */
  ghost predicate FreeChange(w: Worker, w': Worker) {
    && w'.generation == w.generation
    && (w'.lifecycle == w.lifecycle
        || ((w.lifecycle == Running || w.lifecycle == Draining) && w'.lifecycle == Failed))
    && (w.lifecycle == Starting && w.failureReportedDuringStart ==> w'.failureReportedDuringStart)
  }

  ghost predicate SameFrame(c: Core, c': Core) {
    && c'.config == c.config && c'.order == c.order && c'.configs == c.configs
    && c'.gate == c.gate && c'.admissionClosed == c.admissionClosed
  }

  ghost predicate TouchesAtMost(c: Core, c': Core, n: Name) {
    || c'.workers == c.workers
    || (n in c.workers && n in c'.workers && c'.workers == c.workers[n := c'.workers[n]]
        && FreeChange(c.workers[n], c'.workers[n])
        && (c.admissionClosed ==> c'.workers[n].inFlight <= c.workers[n].inFlight))
  }

  lemma SetReadyTouches(c: Core, name: Name, generation: nat, ready: bool)
    ensures var c' := SetWorkerReady(c, name, generation, ready).core;
            SameFrame(c, c') && TouchesAtMost(c, c', name) && c'.status.inFlight == c.status.inFlight
  {
    hide Observed;
  }

  lemma SetAcceptingWorkTouches(c: Core, name: Name, generation: nat, accepting: bool)
    ensures var c' := SetWorkerAcceptingWork(c, name, generation, accepting).core;
            SameFrame(c, c') && TouchesAtMost(c, c', name) && c'.status.inFlight == c.status.inFlight
  {
    hide Commit;
  }

  lemma ReportTouches(c: Core, name: Name, generation: nat, err: Error)
    ensures var c' := ReportWorkerFailure(c, name, generation, err).core;
            SameFrame(c, c') && TouchesAtMost(c, c', name) && c'.status.inFlight == c.status.inFlight
  {
    hide Observed;
  }

  lemma CommandFailureTouches(c: Core, id: nat, name: Name, generation: nat, err: Error)
    requires name in c.workers
    ensures var c' := RecordCommandFailure(c, id, name, generation, err).core;
            SameFrame(c, c') && TouchesAtMost(c, c', name) && c'.status.inFlight == c.status.inFlight
  {
  }

  lemma CommandPanicTouches(c: Core, id: nat, name: Name, generation: nat, err: Error)
    requires name in c.workers
    ensures var c' := RecordCommandPanic(c, id, name, generation, err).core;
            SameFrame(c, c') && TouchesAtMost(c, c', name) && c'.status.inFlight == c.status.inFlight
  {
    hide Observed, RecordCommandPanic, TouchesAtMost;
    PanicCases(c, id, name, generation, err);
    var c' := RecordCommandPanic(c, id, name, generation, err).core;
    if c' == c {
      SameTouches(c, c, name);
    } else {
      RecordTouches(c, c', name, c'.workers[name]);
    }
  }

  lemma RecordTouches(c: Core, c': Core, n: Name, after: Worker)
    requires n in c.workers && c'.workers == c.workers[n := after] && FreeChange(c.workers[n], after)
    requires after.inFlight == c.workers[n].inFlight
    ensures TouchesAtMost(c, c', n)
  {
  }

  lemma AdmitTouches(c: Core, id: nat, name: Name)
    requires id in c.pending
    ensures var c' := Apply(c, Admit(id, name)).core;
            SameFrame(c, c') && TouchesAtMost(c, c', name)
                && (c.admissionClosed ==> c'.status.inFlight == c.status.inFlight)
  {
  }

  lemma ReleaseTouches(c: Core, id: nat, name: Name)
    ensures var c' := ReleaseCommandSlot(c, id, name).core;
            SameFrame(c, c') && TouchesAtMost(c, c', name) && c'.status.inFlight <= c.status.inFlight
  {
  }

  lemma HandleStepTouches(c: Core, l: Label)
    requires Enabled(c, l) && IsHandleStep(l)
    ensures var c' := Apply(c, l).core;
            SameFrame(c, c') && TouchesAtMost(c, c', Target(c, l)) && c'.status.inFlight == c.status.inFlight
  {
    hide SetWorkerReady, SetWorkerAcceptingWork, ReportWorkerFailure, TouchesAtMost;
    match l
    case SetReady(h, ready) => SetReadyTouches(c, h.worker, h.generation, ready);
    case SetAcceptingWork(h, accepting) => SetAcceptingWorkTouches(c, h.worker, h.generation, accepting);
    case ReportFailure(h, err) => ReportTouches(c, h.worker, h.generation, err);
    case ObserveCleanup(h, _, _) => SameTouches(c, c, h.worker);
  }

  lemma SameTouches(c: Core, c': Core, n: Name)
    requires c'.workers == c.workers
    ensures TouchesAtMost(c, c', n)
  {
  }

  lemma DispatchStepTouches(c: Core, l: Label)
    requires Enabled(c, l) && IsDispatchStep(l)
    ensures var c' := Apply(c, l).core;
            SameFrame(c, c') && TouchesAtMost(c, c', Target(c, l))
            && (c.admissionClosed ==> c'.status.inFlight <= c.status.inFlight)
  {
    hide RecordCommandFailure, RecordCommandPanic, ReleaseCommandSlot, TouchesAtMost;
    match l
    case Admit(id, name) => AdmitTouches(c, id, name);
    case CommandFailed(id, err) =>
      CommandFailureTouches(c, id, c.dispatches[id].worker, c.dispatches[id].generation, err);
    case CommandPanicked(id, err) =>
      CommandPanicTouches(c, id, c.dispatches[id].worker, c.dispatches[id].generation, err);
    case Release(id) => ReleaseTouches(c, id, c.dispatches[id].worker);
    case NewDispatch | CallHandler(_) | HandlerReturns(_, _) | EndObservation(_, _, _) =>
      SameTouches(c, Apply(c, l).core, Target(c, l));
  }

  // ---------------------------------------------------------------------------
  // The relation that any number of free steps stays in.

  ghost predicate WorkersRely(c: Core, c': Core) {
    && c'.workers.Keys == c.workers.Keys
    && (forall n :: n in c.workers ==> FreeChange(c.workers[n], c'.workers[n]))
    && (c.admissionClosed ==>
          && c'.status.inFlight <= c.status.inFlight
          && forall n :: n in c.workers ==> c'.workers[n].inFlight <= c.workers[n].inFlight)
  }

  /** A worker enters service. */
  predicate BeginsToRun(e: Event) {
    e.Transition? && e.subject.OfWorker? && e.to == Running
  }

  /** What a lifecycle operation makes known of its progress: its calls into worker code, what
      they came back with, and that a worker enters service. */
  predicate IsMilestone(e: Event) {
    e.StartCalled? || e.StopCalled? || e.CallReturned? || BeginsToRun(e)
  }

  /** Events free steps do not commit: milestones of operations, and their terminal failures. */
  predicate IsQuiet(e: Event) {
    !IsMilestone(e) && !(e.Failure? && (e.source.Operation? || e.source.CleanupPending?))
  }

  ghost predicate LogRely(s: System, t: System) {
    && s.log <= t.log
    && t.mark == s.mark
    && forall e :: e in t.log[|s.log|..] ==> IsQuiet(e)
  }

  ghost predicate Rely(s: System, t: System) {
    SameFrame(s.core, t.core) && WorkersRely(s.core, t.core) && LogRely(s, t)
  }

  lemma RelyItself(s: System)
    ensures Rely(s, s)
  {
  }

  lemma WorkersRelyTransitive(a: Core, b: Core, c: Core)
    requires SameFrame(a, b) && WorkersRely(a, b) && WorkersRely(b, c)
    ensures WorkersRely(a, c)
  {
  }

  lemma LogRelyTransitive(a: System, b: System, c: System)
    requires LogRely(a, b) && LogRely(b, c)
    ensures LogRely(a, c)
  {
    assert c.log[|a.log|..] == b.log[|a.log|..] + c.log[|b.log|..];
  }

  lemma RelyTransitive(a: System, b: System, c: System)
    requires Rely(a, b) && Rely(b, c)
    ensures Rely(a, c)
  {
    hide WorkersRely, LogRely;
    WorkersRelyTransitive(a.core, b.core, c.core);
    LogRelyTransitive(a, b, c);
  }

  lemma HandleStepIsQuiet(c: Core, l: Label)
    requires Enabled(c, l) && IsHandleStep(l)
    ensures forall e :: e in Apply(c, l).events ==> IsQuiet(e)
  {
    hide Commit, Observed;
  }

  lemma DispatchStepIsQuiet(c: Core, l: Label)
    requires Enabled(c, l) && IsDispatchStep(l)
    ensures forall e :: e in Apply(c, l).events ==> IsQuiet(e)
  {
    hide Commit, Observed;
    if l.CommandPanicked? {
      PanicIsQuiet(c, l.id, c.dispatches[l.id].worker, c.dispatches[l.id].generation, l.err);
    } else {
      hide RecordCommandPanic;
    }
  }

  lemma PanicIsQuiet(c: Core, id: nat, name: Name, generation: nat, err: Error)
    requires name in c.workers
    ensures forall e :: e in RecordCommandPanic(c, id, name, generation, err).events ==> IsQuiet(e)
  {
    hide Commit, Observed, RecordCommandPanic;
    PanicCases(c, id, name, generation, err);
  }

  lemma QuietEventsRely(s: System, t: System, events: seq<Event>)
    requires t.log == s.log + events && t.mark == s.mark
    requires forall e :: e in events ==> IsQuiet(e)
    ensures LogRely(s, t)
  {
    assert t.log[|s.log|..] == events;
  }

  lemma TouchRelies(c: Core, c': Core, n: Name)
    requires TouchesAtMost(c, c', n)
    requires c.admissionClosed ==> c'.status.inFlight <= c.status.inFlight
    ensures WorkersRely(c, c')
  {
  }

  /** One free step stays in the relation. */
  lemma FreeStepRelies(s: System, l: Label)
    requires Enabled(s.core, l) && IsFreeStep(l)
    ensures Rely(s, Next(s, l))
  {
    hide Apply, WorkersRely, TouchesAtMost, IsQuiet, LogRely;
    var o := Apply(s.core, l);
    if IsHandleStep(l) {
      HandleStepTouches(s.core, l);
      HandleStepIsQuiet(s.core, l);
    } else {
      DispatchStepTouches(s.core, l);
      DispatchStepIsQuiet(s.core, l);
    }
    TouchRelies(s.core, o.core, Target(s.core, l));
    QuietEventsRely(s, Next(s, l), o.events);
  }
}
