/** The failures of a run: which ones the records show in the end, and which ones were told. */
module FailureHistory {
  import opened Basics
  import opened Lifecycle
  import opened RuntimeSteps
  import opened RuntimeInvariant
  import opened RuntimeSafety
  import opened OperationSteps
  import opened RuntimeTheorems
  import opened ServiceHistory

  /** The failures a record shows: of the worker, and of a command of it. */
  datatype Shown = Shown(worker: Option<Error>, command: Option<Error>)

  function ShownBy(w: Worker): Shown { Shown(w.lastFailure, w.lastCommandFailure) }

  /** The gate holder is starting or stopping this worker. */
  predicate OnGate(c: Core, n: Name) { Busy(c) && c.gate.activity.name == n }

  /** The handle is of the worker's current generation. */
  predicate OfCurrent(c: Core, n: Name, h: Handle) {
    n in c.workers && h == Handle(n, c.workers[n].generation)
  }

  /** What one step adds to the failures a worker shows. A report counts from the current
      generation of a worker not at rest; an attempt and the end of a Start or Stop always, but
      pending cleanup only where there is nothing yet; a serving worker fails with the panic of
      a current command. A Start that completes unreported starts afresh. */
  ghost function NotedIn(c: Core, l: Label, n: Name, shown: Shown): Shown
    requires Enabled(c, l) && n in c.workers
  {
    var w := c.workers[n];
    match l
    case ReportFailure(h, err) =>
      if OfCurrent(c, n, h) && w.lifecycle in {Starting, Running, Draining, Stopping}
      then shown.(worker := Some(err)) else shown
    case RecordFailure(err) => if OnGate(c, n) then shown.(worker := Some(err)) else shown
    case FailOperation(err, _) => if OnGate(c, n) then shown.(worker := Some(err)) else shown
    case FailCleanup(err) => if OnGate(c, n) && shown.worker.None? then shown.(worker := Some(err)) else shown
    case CompleteStart => if OnGate(c, n) && !w.failureReportedDuringStart then shown.(worker := None) else shown
    case CommandFailed(id, err) =>
      if OfCurrent(c, n, c.dispatches[id]) then shown.(command := Some(err)) else shown
    case CommandPanicked(id, err) =>
      if !OfCurrent(c, n, c.dispatches[id]) then shown
      else if w.lifecycle in {Running, Draining} then Shown(Some(err), Some(err))
      else shown.(command := Some(err))
    case _ => shown
  }

  /** The record shows this after the step, wherever the worker is. */
  ghost predicate Shows(c': Core, n: Name, shown: Shown) {
    n in c'.workers && ShownBy(c'.workers[n]) == shown
  }

  lemma UntouchedShows(c: Core, c': Core, m: Name, n: Name)
    requires OneRecord(c.workers, c'.workers, m) && n in c.workers && n != m
    ensures Shows(c', n, ShownBy(c.workers[n]))
  {
  }

  lemma BeginShows(c: Core, name: Name)
    requires name in c.workers
    ensures Shows(BeginWorkerStart(c, name).core, name, ShownBy(c.workers[name]))
    ensures Shows(BeginWorkerStop(c, name).core, name, ShownBy(c.workers[name]))
    ensures Shows(BeginWorkerDrain(c, name).core, name, ShownBy(c.workers[name]))
  {
    hide Observed, Commit;
  }

  lemma CompletionShows(c: Core, name: Name, generation: nat, ready: bool, accepting: bool)
    requires name in c.workers && c.workers[name].generation == generation && c.workers[name].lifecycle == Starting
    ensures var w := c.workers[name];
            Shows(CompleteWorkerStart(c, name, generation, ready, accepting).core, name,
                  if w.failureReportedDuringStart then ShownBy(w) else ShownBy(w).(worker := None))
  {
    hide Observed;
  }

  lemma StoppedShows(c: Core, name: Name, generation: nat)
    requires name in c.workers
    ensures Shows(CompleteWorkerStop(c, name, generation).core, name, ShownBy(c.workers[name]))
  {
    hide Observed;
  }

  lemma FailedShows(c: Core, name: Name, generation: nat, err: Error, panicked: bool)
    requires name in c.workers && c.workers[name].generation == generation
    ensures var shown := ShownBy(c.workers[name]);
            && Shows(FailWorker(c, name, generation, err, panicked).core, name, shown.(worker := Some(err)))
            && Shows(FailLoopCleanup(c, name, generation, err).core, name,
                     if shown.worker.None? then shown.(worker := Some(err)) else shown)
            && Shows(RecordWorkerFailureStatus(c, name, generation, err).core, name, shown.(worker := Some(err)))
  {
    hide Observed;
  }

  lemma BeginStepShows(c: Core, l: Label, n: Name)
    requires Enabled(c, l) && (l.BeginStart? || l.BeginStop? || l.BeginDrain?) && n == l.name && n in c.workers
    ensures Shows(Apply(c, l).core, n, ShownBy(c.workers[n]))
  {
    hide BeginWorkerStart, BeginWorkerStop, BeginWorkerDrain;
    BeginShows(c, n);
  }

  lemma CallStepShows(c: Core, l: Label, n: Name)
    requires Enabled(c, l) && (l.CallStart? || l.CallStop? || l.Answer?) && n in c.workers
    ensures Shows(Apply(c, l).core, n, ShownBy(c.workers[n]))
  {
  }

  lemma BusyStepShows(c: Core, l: Label, n: Name, shown: Shown)
    requires Enabled(c, l) && OnGate(c, n) && n in c.workers && c.workers[n].generation == c.gate.activity.generation
    requires l.RecordFailure? || l.CompleteStart? || l.CompleteStop? || l.FailOperation? || l.FailCleanup?
    requires l.CompleteStart? ==> c.workers[n].lifecycle == Starting
    requires shown == NotedIn(c, l, n, ShownBy(c.workers[n]))
    ensures Shows(Apply(c, l).core, n, shown)
  {
    hide CompleteWorkerStart, CompleteWorkerStop, FailWorker, FailLoopCleanup, RecordWorkerFailureStatus, FailsWith;
    var g := c.gate.activity.generation;
    match l
    case RecordFailure(err) => FailedShows(c, n, g, err, false);
    case CompleteStart => CompletionShows(c, n, g, c.configs[n].readyOnStart, c.configs[n].acceptingWork);
    case CompleteStop => StoppedShows(c, n, g);
    case FailOperation(err, panicked) => FailedShows(c, n, g, err, panicked);
    case FailCleanup(err) => FailedShows(c, n, g, err, false);
  }

  lemma OperationShows(c: Core, l: Label, n: Name)
    requires Enabled(c, l) && IsOperationStep(l) && n in c.workers
    requires CoreOk(c)
    ensures Shows(Apply(c, l).core, n, NotedIn(c, l, n, ShownBy(c.workers[n])))
  {
    hide Apply, CoreOk, CallsNoStop, OneRecord, Shows;
    StepOperates(c, l);
    if n != OperatesOn(c, l) {
      UntouchedShows(c, Apply(c, l).core, OperatesOn(c, l), n);
    } else if l.BeginStart? || l.BeginStop? || l.BeginDrain? {
      BeginStepShows(c, l, n);
    } else if l.CallStart? || l.CallStop? || l.Answer? {
      CallStepShows(c, l, n);
    } else {
      BusyRecord(c);
      BusyStepShows(c, l, n, NotedIn(c, l, n, ShownBy(c.workers[n])));
    }
  }

  lemma SignalShows(c: Core, h: Handle, value: bool, n: Name)
    requires n in c.workers
    ensures Shows(SetWorkerReady(c, h.worker, h.generation, value).core, n, ShownBy(c.workers[n]))
    ensures Shows(SetWorkerAcceptingWork(c, h.worker, h.generation, value).core, n, ShownBy(c.workers[n]))
  {
    hide Observed, Commit;
  }

  lemma ReportShows(c: Core, h: Handle, err: Error, n: Name)
    requires n in c.workers
    ensures var w := c.workers[n];
            Shows(ReportWorkerFailure(c, h.worker, h.generation, err).core, n,
                  if OfCurrent(c, n, h) && w.lifecycle in {Starting, Running, Draining, Stopping}
                  then ShownBy(w).(worker := Some(err)) else ShownBy(w))
  {
    hide Observed;
  }

  lemma HandleStepShows(c: Core, l: Label, n: Name)
    requires Enabled(c, l) && IsHandleStep(l) && n in c.workers
    ensures Shows(Apply(c, l).core, n, NotedIn(c, l, n, ShownBy(c.workers[n])))
  {
    hide SetWorkerReady, SetWorkerAcceptingWork, ReportWorkerFailure, OfCurrent;
    match l
    case SetReady(h, ready) => SignalShows(c, h, ready, n);
    case SetAcceptingWork(h, accepting) => SignalShows(c, h, accepting, n);
    case ReportFailure(h, err) => ReportShows(c, h, err, n);
    case ObserveCleanup(_, _, _) =>
  }

  lemma CommandShows(c: Core, id: nat, h: Handle, err: Error, n: Name)
    requires n in c.workers && h.worker in c.workers
    ensures var w, shown := c.workers[n], ShownBy(c.workers[n]);
            && Shows(RecordCommandFailure(c, id, h.worker, h.generation, err).core, n,
                     if OfCurrent(c, n, h) then shown.(command := Some(err)) else shown)
            && Shows(RecordCommandPanic(c, id, h.worker, h.generation, err).core, n,
                     if !OfCurrent(c, n, h) then shown
                     else if w.lifecycle in {Running, Draining} then Shown(Some(err), Some(err))
                     else shown.(command := Some(err)))
  {
    hide Observed, RecordCommandPanic;
    PanicCases(c, id, h.worker, h.generation, err);
  }

  lemma SlotStepShows(c: Core, l: Label, n: Name)
    requires Enabled(c, l) && (l.Admit? || l.Release?) && n in c.workers
    ensures Shows(Apply(c, l).core, n, ShownBy(c.workers[n]))
  {
    hide AdmitCommand, ReleaseCommandSlot;
    if l.Admit? {
      SlotSpares(c.(pending := c.pending - {l.id}, replies := c.replies - {l.id}), l.id, l.name, n);
    } else {
      SlotSpares(c, l.id, c.dispatches[l.id].worker, n);
    }
  }

  lemma CommandStepShows(c: Core, l: Label, n: Name)
    requires Enabled(c, l) && (l.CommandFailed? || l.CommandPanicked?) && n in c.workers
    ensures Shows(Apply(c, l).core, n, NotedIn(c, l, n, ShownBy(c.workers[n])))
  {
    hide RecordCommandFailure, RecordCommandPanic, OfCurrent;
    CommandShows(c, l.id, c.dispatches[l.id], l.err, n);
  }

  /** Every step of every party. */
  lemma StepShows(s: System, l: Label, n: Name)
    requires Reachable(s) && Enabled(s.core, l) && n in s.core.workers
    ensures Shows(Next(s, l).core, n, NotedIn(s.core, l, n, ShownBy(s.core.workers[n])))
  {
    hide Apply, CoreOk, Reachable, Inv, Enabled;
    ReachableInv(s);
    InvCore(s);
    var c := s.core;
    if IsHandleStep(l) {
      HandleStepShows(c, l, n);
    } else if l.Admit? || l.Release? {
      SlotStepShows(c, l, n);
    } else if l.CommandFailed? || l.CommandPanicked? {
      CommandStepShows(c, l, n);
    } else if IsDispatchStep(l) {
      QuietStepSpares(c, l);
    } else if l.Register? {
      RegisterAdvances(c, l, n);
    } else if IsOperationStep(l) {
      OperationShows(c, l, n);
    } else {
      GateStepWorkers(c, l);
    }
  }

  /** What a run adds to the failures a worker shows. */
  ghost function NotedOver(s: System, run: seq<Label>, n: Name, shown: Shown): Shown
    requires IsRun(s, run)
    decreases |run|
  {
    if run == [] then shown
    else
      NotedOver(Next(s, run[0]), run[1..], n,
                if n in s.core.workers then NotedIn(s.core, run[0], n, shown) else shown)
  }

  /** The failures a worker shows after a run are the last ones noted of it, step by step. */
  lemma {:induction false} LastFailuresAreShown(s: System, run: seq<Label>, n: Name)
    requires Reachable(s) && IsRun(s, run) && n in s.core.workers
    ensures Shows(After(s, run).core, n, NotedOver(s, run, n, ShownBy(s.core.workers[n])))
    decreases |run|
  {
    hide Reachable, Next, NotedIn;
    if run != [] {
      StepShows(s, run[0], n);
      StepStaysReachable(s, run[0]);
      LastFailuresAreShown(Next(s, run[0]), run[1..], n);
    }
  }

  // ---------------------------------------------------------------------------
  // The failures told.

  function Failures(log: seq<Event>): seq<Event> {
    if log == [] then []
    else Failures(log[..|log| - 1]) + if log[|log| - 1].Failure? then [log[|log| - 1]] else []
  }

  lemma {:induction false} FailuresConcat(a: seq<Event>, b: seq<Event>)
    ensures Failures(a + b) == Failures(a) + Failures(b)
  {
    if b == [] {
      assert a + b == a;
    } else {
      FailuresConcat(a, b[..|b| - 1]);
      assert (a + b)[..|a + b| - 1] == a + b[..|b| - 1];
      assert (a + b)[|a + b| - 1] == b[|b| - 1];
    }
  }

  lemma {:induction false} NoFailures(log: seq<Event>)
    requires forall e :: e in log ==> !e.Failure?
    ensures Failures(log) == []
  {
    if log != [] {
      NoFailures(log[..|log| - 1]);
    }
  }

  lemma AtMostOne(log: seq<Event>)
    requires |log| <= 1
    ensures Failures(log) == if |log| == 1 && log[0].Failure? then log else []
  {
    if |log| == 1 {
      assert log[..0] == [] && log == [log[0]];
    }
  }

  /** The failure events of a step: which ones are told, of which worker, from where, with which
      error, and whether it was a panic. A Start that ends in failure tells it only if none was
      reported meanwhile. */
  ghost function Told(c: Core, l: Label): seq<Event>
    requires Enabled(c, l)
  {
    match l
    case ReportFailure(h, err) =>
      if OfCurrent(c, h.worker, h) && c.workers[h.worker].lifecycle in {Starting, Running, Draining, Stopping}
      then [Failure(h.worker, Report, err, false)] else []
    case ObserveCleanup(h, err, panicked) => [Failure(h.worker, AutomaticCleanup, err, panicked)]
    case FailOperation(err, panicked) =>
      var n := c.gate.activity.name;
      if c.workers[n].failureReportedDuringStart then [] else [Failure(n, Operation, err, panicked)]
    case FailCleanup(err) => [Failure(c.gate.activity.name, CleanupPending, err, false)]
    case CommandFailed(id, err) => [Failure(c.dispatches[id].worker, Command(id), err, false)]
    case CommandPanicked(id, err) => [Failure(c.dispatches[id].worker, Command(id), err, true)]
    case _ => []
  }

  /** The place of an event among those of one step: the worker's change, its readiness, its
      failure, then what follows for the runtime. */
  function Place(e: Event): nat {
    match e
    case Transition(OfWorker(_), _, _) => 0
    case Readiness(OfWorker(_), _) => 1
    case Transition(OfRuntime, _, _) => 3
    case Readiness(OfRuntime, _) => 4
    case _ => 2
  }

  predicate InPlace(events: seq<Event>) {
    forall i, j :: 0 <= i < j < |events| ==> Place(events[i]) <= Place(events[j])
  }

  ghost predicate Tells(o: Outcome, told: seq<Event>) {
    Failures(o.events) == told && InPlace(o.events)
  }

  lemma FewTell(o: Outcome)
    requires |o.events| <= 1
    ensures Tells(o, if |o.events| == 1 && o.events[0].Failure? then o.events else [])
  {
    AtMostOne(o.events);
  }

  /** Two parts in place, the first one before the second. */
  lemma InPlaceTogether(a: seq<Event>, b: seq<Event>, place: nat)
    requires InPlace(a) && InPlace(b)
    requires (forall e :: e in a ==> Place(e) <= place) && forall e :: e in b ==> place <= Place(e)
    ensures InPlace(a + b)
  {
    forall i, j | 0 <= i < j < |a + b|
      ensures Place((a + b)[i]) <= Place((a + b)[j])
    {
      if i < |a| <= j {
        assert (a + b)[i] in a && (a + b)[j] in b;
      }
    }
  }

  lemma ChangeInPlace(subject: Subject, from: LifecycleState, to: LifecycleState, before: bool, after: bool)
    ensures var events := TransitionEvents(subject, from, to) + ReadinessEvents(subject, before, after);
            && InPlace(events)
            && forall e :: e in events ==> !e.Failure? && if subject.OfWorker? then Place(e) <= 1 else Place(e) >= 3
  {
  }

  lemma ObservedTells(c: Core, name: Name, after: Worker, failure: seq<Event>, o: Outcome)
    requires name in c.workers && |failure| <= 1 && forall e :: e in failure ==> e.Failure?
    requires o == Observed(c, name, after, failure, o.result)
    ensures Tells(o, failure)
  {
    hide Commit, Place, InPlace, Failures;
    var w := c.workers[name];
    var before := TransitionEvents(OfWorker(name), w.lifecycle, after.lifecycle) +
                  ReadinessEvents(OfWorker(name), w.ready, after.ready);
    var behind := TransitionEvents(OfRuntime, c.status.state, o.core.status.state) +
                  ReadinessEvents(OfRuntime, c.status.ready, o.core.status.ready);
    assert o.events == before + failure + behind;
    ChangeInPlace(OfWorker(name), w.lifecycle, after.lifecycle, w.ready, after.ready);
    ChangeInPlace(OfRuntime, c.status.state, o.core.status.state, c.status.ready, o.core.status.ready);
    hide TransitionEvents, ReadinessEvents;
    PartsTell(before, failure, behind);
  }

  lemma PartsTell(before: seq<Event>, failure: seq<Event>, behind: seq<Event>)
    requires |failure| <= 1 && forall e :: e in failure ==> e.Failure?
    requires InPlace(before) && forall e :: e in before ==> !e.Failure? && Place(e) <= 1
    requires InPlace(behind) && forall e :: e in behind ==> !e.Failure? && Place(e) >= 3
    ensures Failures(before + failure + behind) == failure && InPlace(before + failure + behind)
  {
    hide Failures;
    NoFailures(before);
    NoFailures(behind);
    AtMostOne(failure);
    FailuresConcat(before, failure);
    FailuresConcat(before + failure, behind);
    InPlaceTogether(before, failure, 1);
    InPlaceTogether(before + failure, behind, 3);
  }

  lemma BeginTells(c: Core, name: Name)
    ensures Tells(BeginWorkerStart(c, name), []) && Tells(BeginWorkerStop(c, name), [])
    ensures Tells(BeginWorkerDrain(c, name), [])
  {
    hide Observed, Tells, Commit;
    if name in c.workers {
      var w := c.workers[name];
      var starting := Moved(w, Starting).(generation := w.generation + 1, failureReportedDuringStart := false);
      ObservedTells(c, name, starting, [], Observed(c, name, starting, [], Began(w.generation + 1)));
      ObservedTells(c, name, Moved(w, Stopping), [], Observed(c, name, Moved(w, Stopping), [], Began(w.generation)));
      ObservedTells(c, name, Drained(w), [], Observed(c, name, Drained(w), [], Done));
    }
    if |BeginWorkerStart(c, name).events| == 0 {
      FewTell(BeginWorkerStart(c, name));
    }
    if |BeginWorkerStop(c, name).events| == 0 {
      FewTell(BeginWorkerStop(c, name));
    }
    if |BeginWorkerDrain(c, name).events| == 0 {
      FewTell(BeginWorkerDrain(c, name));
    }
  }

  lemma CompletionTells(c: Core, name: Name, generation: nat, ready: bool, accepting: bool)
    requires name in c.workers
    ensures Tells(CompleteWorkerStart(c, name, generation, ready, accepting), [])
    ensures Tells(CompleteWorkerStop(c, name, generation), [])
  {
    hide Observed, Tells;
    var o, p := CompleteWorkerStart(c, name, generation, ready, accepting), CompleteWorkerStop(c, name, generation);
    if o.result == Done {
      ObservedTells(c, name, o.core.workers[name], [], o);
    } else {
      FewTell(o);
    }
    if p.result == Done {
      ObservedTells(c, name, p.core.workers[name], [], p);
    } else {
      FewTell(p);
    }
  }

  lemma FailureTells(c: Core, name: Name, generation: nat, err: Error, panicked: bool)
    requires name in c.workers && c.workers[name].generation == generation && c.workers[name].lifecycle != Failed
    requires c.workers[name].failureReportedDuringStart ==> c.workers[name].lastFailure.Some?
    ensures Tells(FailWorker(c, name, generation, err, panicked),
                  if c.workers[name].failureReportedDuringStart then [] else [Failure(name, Operation, err, panicked)])
    ensures Tells(FailLoopCleanup(c, name, generation, err), [Failure(name, CleanupPending, err, false)])
  {
    hide Observed, Tells;
    var o, p := FailWorker(c, name, generation, err, panicked), FailLoopCleanup(c, name, generation, err);
    ObservedTells(c, name, o.core.workers[name],
                  if c.workers[name].failureReportedDuringStart then []
                      else [Failure(name, Operation, err, panicked)], o);
    ObservedTells(c, name, p.core.workers[name], [Failure(name, CleanupPending, err, false)], p);
  }

  lemma ReportTells(c: Core, h: Handle, err: Error)
    ensures Tells(ReportWorkerFailure(c, h.worker, h.generation, err),
                  if OfCurrent(c, h.worker, h)
                      && c.workers[h.worker].lifecycle in {Starting, Running, Draining, Stopping}
                  then [Failure(h.worker, Report, err, false)] else [])
  {
    hide Observed, Tells;
    var o := ReportWorkerFailure(c, h.worker, h.generation, err);
    if o.result == Done {
      ObservedTells(c, h.worker, o.core.workers[h.worker], [Failure(h.worker, Report, err, false)], o);
    } else {
      FewTell(o);
    }
  }

  lemma SignalTells(c: Core, h: Handle, value: bool)
    ensures Tells(SetWorkerReady(c, h.worker, h.generation, value), [])
    ensures Tells(SetWorkerAcceptingWork(c, h.worker, h.generation, value), [])
  {
    hide Observed, Tells, Commit;
    var o := SetWorkerReady(c, h.worker, h.generation, value);
    if o.result == Done {
      ObservedTells(c, h.worker, o.core.workers[h.worker], [], o);
    } else {
      FewTell(o);
    }
    FewTell(SetWorkerAcceptingWork(c, h.worker, h.generation, value));
  }

  lemma PanicTells(c: Core, id: nat, h: Handle, err: Error)
    requires h.worker in c.workers
    ensures Tells(RecordCommandPanic(c, id, h.worker, h.generation, err), [Failure(h.worker, Command(id), err, true)])
  {
    hide Observed, Tells, RecordCommandPanic;
    PanicCases(c, id, h.worker, h.generation, err);
    var o, w := RecordCommandPanic(c, id, h.worker, h.generation, err), c.workers[h.worker];
    if w.generation == h.generation && (w.lifecycle == Running || w.lifecycle == Draining) {
      ObservedTells(c, h.worker, o.core.workers[h.worker], [Failure(h.worker, Command(id), err, true)], o);
    } else {
      FewTell(o);
    }
  }

  lemma Retold(o: Outcome, o': Outcome, told: seq<Event>)
    requires Tells(o, told) && o'.events == o.events
    ensures Tells(o', told)
  {
  }

  lemma BeginStepTells(c: Core, l: Label)
    requires Enabled(c, l) && (l.BeginStart? || l.BeginStop? || l.BeginDrain?)
    ensures Tells(Apply(c, l), [])
  {
    hide BeginWorkerStart, BeginWorkerStop, BeginWorkerDrain, Tells;
    BeginTells(c, l.name);
    match l
    case BeginStart(name) => Retold(BeginWorkerStart(c, name), Apply(c, l), []);
    case BeginStop(name) => Retold(BeginWorkerStop(c, name), Apply(c, l), []);
    case BeginDrain(name) =>
  }

  lemma BusyStepTells(c: Core, l: Label, o: Outcome)
    requires Enabled(c, l) && o == Apply(c, l) && Busy(c) && c.gate.activity.name in c.workers
    requires l.CompleteStart? || l.CompleteStop? || l.FailOperation? || l.FailCleanup?
    requires var w := c.workers[c.gate.activity.name];
             && w.generation == c.gate.activity.generation && w.lifecycle != Failed
             && (w.failureReportedDuringStart ==> w.lastFailure.Some?)
    ensures Tells(o, Told(c, l))
  {
    hide CompleteWorkerStart, CompleteWorkerStop, FailWorker, FailLoopCleanup, Tells, FailsWith;
    var n, g := c.gate.activity.name, c.gate.activity.generation;
    match l
    case CompleteStart =>
      CompletionTells(c, n, g, c.configs[n].readyOnStart, c.configs[n].acceptingWork);
      Retold(CompleteWorkerStart(c, n, g, c.configs[n].readyOnStart, c.configs[n].acceptingWork), o, []);
    case CompleteStop =>
      CompletionTells(c, n, g, false, false);
      Retold(CompleteWorkerStop(c, n, g), o, []);
    case FailOperation(err, panicked) =>
      FailureTells(c, n, g, err, panicked);
      Retold(FailWorker(c, n, g, err, panicked), o, Told(c, l));
    case FailCleanup(err) =>
      FailureTells(c, n, g, err, false);
      Retold(FailLoopCleanup(c, n, g, err), o, Told(c, l));
  }

  lemma OtherOperationTells(c: Core, l: Label)
    requires Enabled(c, l) && !IsFreeStep(l) && !l.BeginStart? && !l.BeginStop? && !l.BeginDrain?
    requires !l.CompleteStart? && !l.CompleteStop? && !l.FailOperation? && !l.FailCleanup?
    ensures Tells(Apply(c, l), [])
  {
    hide Tells, Recompute;
    FewTell(Apply(c, l));
  }

  lemma HandleStepTells(c: Core, l: Label)
    requires Enabled(c, l) && IsHandleStep(l)
    ensures Tells(Apply(c, l), Told(c, l))
  {
    hide SetWorkerReady, SetWorkerAcceptingWork, ReportWorkerFailure, OfCurrent, Tells;
    match l
    case SetReady(h, ready) => SignalTells(c, h, ready);
    case SetAcceptingWork(h, accepting) => SignalTells(c, h, accepting);
    case ReportFailure(h, err) => ReportTells(c, h, err);
    case ObserveCleanup(_, _, _) => FewTell(Apply(c, l));
  }

  lemma DispatchStepTells(c: Core, l: Label)
    requires Enabled(c, l) && IsDispatchStep(l)
    ensures Tells(Apply(c, l), Told(c, l))
  {
    hide RecordCommandPanic, Tells;
    if l.CommandPanicked? {
      PanicTells(c, l.id, c.dispatches[l.id], l.err);
    } else {
      FewTell(Apply(c, l));
    }
  }

  lemma StepTells(s: System, l: Label)
    requires Reachable(s) && Enabled(s.core, l)
    ensures Tells(Apply(s.core, l), Told(s.core, l))
  {
    hide Apply, CoreOk, Reachable, Inv, Tells;
    ReachableInv(s);
    InvCore(s);
    var c := s.core;
    if IsHandleStep(l) {
      HandleStepTells(c, l);
    } else if IsDispatchStep(l) {
      DispatchStepTells(c, l);
    } else if l.BeginStart? || l.BeginStop? || l.BeginDrain? {
      BeginStepTells(c, l);
    } else if l.CompleteStart? || l.CompleteStop? || l.FailOperation? || l.FailCleanup? {
      BusyRecord(c);
      BusyStepTells(c, l, Apply(c, l));
    } else {
      OtherOperationTells(c, l);
    }
  }

  /** The failures told by a run. */
  ghost function ToldOver(s: System, run: seq<Label>): seq<Event>
    requires IsRun(s, run)
    decreases |run|
  {
    if run == [] then [] else Told(s.core, run[0]) + ToldOver(Next(s, run[0]), run[1..])
  }

  /** The failure events in the log are exactly those told, in the order of the run. */
  lemma {:induction false} FailuresAreTold(s: System, run: seq<Label>)
    requires Reachable(s) && IsRun(s, run)
    ensures Failures(After(s, run).log) == Failures(s.log) + ToldOver(s, run)
    decreases |run|
  {
    hide Reachable, Apply, Told, Failures;
    if run == [] {
      assert Failures(s.log) + [] == Failures(s.log);
    } else {
      var l := run[0];
      StepTells(s, l);
      FailuresConcat(s.log, Apply(s.core, l).events);
      StepStaysReachable(s, l);
      FailuresAreTold(Next(s, l), run[1..]);
    }
  }
}
