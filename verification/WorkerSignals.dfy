/** How the signals a worker gives during its Start carry over into service. */
module WorkerSignals {
  import opened Basics
  import opened Lifecycle
  import opened RuntimeSteps
  import opened RuntimeInvariant
  import opened RuntimeSafety
  import opened Interference
  import opened RuntimeTheorems

  /** The gate holder is starting worker n, and the record has these signals. */
  ghost predicate StartingWith(c: Core, n: Name, w: Worker) {
    && Busy(c) && c.gate.activity == StartingWorker(n, w.generation)
    && n in c.workers && SameSignals(c.workers[n], w)
    && w.lifecycle == Starting
  }

  predicate SameSignals(w: Worker, w': Worker) {
    && w'.generation == w.generation && w'.lifecycle == w.lifecycle
    && w'.ready == w.ready && w'.acceptingWork == w.acceptingWork
    && w'.readySetDuringStart == w.readySetDuringStart
    && w'.acceptingWorkSetDuringStart == w.acceptingWorkSetDuringStart
    && w'.failureReportedDuringStart == w.failureReportedDuringStart
  }

  /** A step in the middle of the Start that gives worker n no signal. */
  predicate IsSilentFor(l: Label, n: Name) {
    && (l.SetReady? || l.SetAcceptingWork? || l.ReportFailure? ==> l.handle.worker != n)
    && (IsFreeStep(l) || l.CallStart? || l.Answer? || l.RecordFailure?)
  }

  lemma SilentHandleStep(c: Core, l: Label, n: Name)
    requires Enabled(c, l) && IsHandleStep(l) && IsSilentFor(l, n) && n in c.workers
    ensures n in Apply(c, l).core.workers && SameSignals(c.workers[n], Apply(c, l).core.workers[n])
    ensures Apply(c, l).core.gate == c.gate
  {
    hide Apply, SameSignals;
    HandleStepTouches(c, l);
    if l.ObserveCleanup? {
      ObservationIsSilent(c, l);
    }
    SignalsStay(c.workers[n]);
  }

  lemma ObservationIsSilent(c: Core, l: Label)
    requires Enabled(c, l)
    requires l.ObserveCleanup? || l.NewDispatch? || l.CallHandler? || l.HandlerReturns? || l.EndObservation?
    ensures Apply(c, l).core.workers == c.workers && Apply(c, l).core.gate == c.gate
  {
  }

  lemma SignalsStay(w: Worker)
    ensures SameSignals(w, w)
  {
  }

  lemma SilentDispatchStep(c: Core, l: Label, n: Name)
    requires Enabled(c, l) && IsDispatchStep(l) && n in c.workers && c.workers[n].lifecycle == Starting
    ensures n in Apply(c, l).core.workers && SameSignals(c.workers[n], Apply(c, l).core.workers[n])
    ensures Apply(c, l).core.gate == c.gate
  {
    hide Observed, Commit, SameSignals;
    SignalsStay(c.workers[n]);
    if l.Admit? || l.Release? {
      SlotStep(c, l, n);
    } else if l.CommandFailed? || l.CommandPanicked? {
      CommandStep(c, l, n);
    } else {
      ObservationIsSilent(c, l);
    }
  }

  lemma AdmissionSilent(c: Core, id: nat, name: Name, n: Name)
    requires n in c.workers
    ensures var c' := AdmitCommand(c, id, name).core;
            n in c'.workers && SameSignals(c.workers[n], c'.workers[n]) && c'.gate == c.gate
  {
  }

  lemma ReleaseSilent(c: Core, id: nat, name: Name, n: Name)
    requires n in c.workers
    ensures var c' := ReleaseCommandSlot(c, id, name).core;
            n in c'.workers && SameSignals(c.workers[n], c'.workers[n]) && c'.gate == c.gate
  {
  }

  lemma SlotStep(c: Core, l: Label, n: Name)
    requires Enabled(c, l) && (l.Admit? || l.Release?) && n in c.workers
    ensures n in Apply(c, l).core.workers && SameSignals(c.workers[n], Apply(c, l).core.workers[n])
    ensures Apply(c, l).core.gate == c.gate
  {
    hide AdmitCommand, ReleaseCommandSlot, SameSignals;
    if l.Admit? {
      AdmissionSilent(c.(pending := c.pending - {l.id}, replies := c.replies - {l.id}), l.id, l.name, n);
    } else {
      ReleaseSilent(c, l.id, c.dispatches[l.id].worker, n);
    }
  }

  lemma CommandFailureSilent(c: Core, id: nat, name: Name, generation: nat, err: Error, n: Name)
    requires name in c.workers && n in c.workers
    ensures var c' := RecordCommandFailure(c, id, name, generation, err).core;
            n in c'.workers && SameSignals(c.workers[n], c'.workers[n]) && c'.gate == c.gate
  {
  }

  lemma CommandPanicSilent(c: Core, id: nat, name: Name, generation: nat, err: Error, n: Name)
    requires name in c.workers && n in c.workers && c.workers[n].lifecycle == Starting
    ensures var c' := RecordCommandPanic(c, id, name, generation, err).core;
            n in c'.workers && SameSignals(c.workers[n], c'.workers[n]) && c'.gate == c.gate
  {
    if n == name {
      OwnPanicSilent(c, id, generation, err, n);
    } else {
      OtherPanicSilent(c, id, name, generation, err, n);
    }
  }

  /** A starting worker is not failed by a panicking command. */
  lemma OwnPanicSilent(c: Core, id: nat, generation: nat, err: Error, n: Name)
    requires n in c.workers && c.workers[n].lifecycle == Starting
    ensures var c' := RecordCommandPanic(c, id, n, generation, err).core;
            n in c'.workers && SameSignals(c.workers[n], c'.workers[n]) && c'.gate == c.gate
  {
    hide Observed;
  }

  lemma OtherPanicSilent(c: Core, id: nat, name: Name, generation: nat, err: Error, n: Name)
    requires name in c.workers && n in c.workers && n != name
    ensures var c' := RecordCommandPanic(c, id, name, generation, err).core;
            n in c'.workers && SameSignals(c.workers[n], c'.workers[n]) && c'.gate == c.gate
  {
    hide RecordCommandPanic, SameSignals;
    CommandPanicTouches(c, id, name, generation, err);
    SignalsStay(c.workers[n]);
  }

  lemma CommandStep(c: Core, l: Label, n: Name)
    requires Enabled(c, l) && (l.CommandFailed? || l.CommandPanicked?)
    requires n in c.workers && c.workers[n].lifecycle == Starting
    ensures n in Apply(c, l).core.workers && SameSignals(c.workers[n], Apply(c, l).core.workers[n])
    ensures Apply(c, l).core.gate == c.gate
  {
    hide RecordCommandFailure, RecordCommandPanic, SameSignals;
    var h := c.dispatches[l.id];
    if l.CommandFailed? {
      CommandFailureSilent(c, l.id, h.worker, h.generation, l.err, n);
    } else {
      CommandPanicSilent(c, l.id, h.worker, h.generation, l.err, n);
    }
  }

  lemma SilentMidStep(c: Core, l: Label, n: Name)
    requires Enabled(c, l) && (l.CallStart? || l.Answer? || l.RecordFailure?) && n in c.workers
    ensures n in Apply(c, l).core.workers && SameSignals(c.workers[n], Apply(c, l).core.workers[n])
    ensures Busy(Apply(c, l).core) && Apply(c, l).core.gate.activity == c.gate.activity
  {
  }

  lemma SilentStep(c: Core, l: Label, n: Name, w: Worker)
    requires Enabled(c, l) && IsSilentFor(l, n) && StartingWith(c, n, w)
    ensures StartingWith(Apply(c, l).core, n, w)
  {
    hide Apply;
    if IsHandleStep(l) {
      SilentHandleStep(c, l, n);
    } else if IsDispatchStep(l) {
      SilentDispatchStep(c, l, n);
    } else {
      SilentMidStep(c, l, n);
    }
  }

  lemma {:induction false} SilentRun(s: System, run: seq<Label>, n: Name, w: Worker)
    requires IsRun(s, run) && StartingWith(s.core, n, w) && forall l :: l in run ==> IsSilentFor(l, n)
    ensures StartingWith(After(s, run).core, n, w)
    decreases |run|
  {
    hide Apply, StartingWith, IsSilentFor;
    if run != [] {
      SilentStep(s.core, run[0], n, w);
      SilentRun(Next(s, run[0]), run[1..], n, w);
    }
  }

  /** Whatever others do in the meantime, a Start that completes without a reported failure
      serves with the signals its worker gave last, and with the configured defaults for those
      it never gave. */
  lemma SignalsCarryOver(s: System, run: seq<Label>, n: Name)
    requires Reachable(s) && Busy(s.core) && s.core.gate.activity.StartingWorker? && s.core.gate.activity.name == n
    requires n in s.core.workers && !s.core.workers[n].failureReportedDuringStart
    requires IsRun(s, run) && forall l :: l in run ==> IsSilentFor(l, n)
    requires Enabled(After(s, run).core, CompleteStart)
    ensures var w, t := s.core.workers[n], After(s, run).core;
            var done := Apply(t, CompleteStart).core;
            && n in done.workers && n in t.configs
            && done.workers[n].lifecycle == Running
            && done.workers[n].ready == (if w.readySetDuringStart then w.ready else t.configs[n].readyOnStart)
            && done.workers[n].acceptingWork
               == (if w.acceptingWorkSetDuringStart then w.acceptingWork else t.configs[n].acceptingWork)
            && done.workers[n].lastFailure == None
  {
    hide Reachable, IsRun, After, IsSilentFor, Inv, CoreOk;
    ReachableInv(s);
    InvCore(s);
    BusyRecord(s.core);
    var w := s.core.workers[n];
    SignalsStay(w);
    SilentRun(s, run, n, w);
    CompletedWith(After(s, run).core, n, w);
  }

  lemma CompletedWith(c: Core, n: Name, w: Worker)
    requires StartingWith(c, n, w) && !w.failureReportedDuringStart && Enabled(c, CompleteStart)
    ensures var done := Apply(c, CompleteStart).core;
            && n in done.workers && n in c.configs
            && done.workers[n].lifecycle == Running
            && done.workers[n].ready == (if w.readySetDuringStart then w.ready else c.configs[n].readyOnStart)
            && done.workers[n].acceptingWork
               == (if w.acceptingWorkSetDuringStart then w.acceptingWork else c.configs[n].acceptingWork)
            && done.workers[n].lastFailure == None
  {
    hide Observed;
  }
}
