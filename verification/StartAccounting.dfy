/** The failure events of one Start or Stop, counted in the log. */
module StartAccounting {
  import opened Basics
  import opened Lifecycle
  import opened EventLog
  import opened RuntimeSteps
  import opened RuntimeInvariant
  import opened RuntimeSafety

  /** Transitions and readiness changes around the failure events do not change a count of
      failures. */
  lemma CountChange(name: Name, before: Worker, after: Worker, failure: seq<Event>, s: Status, s': Status,
                    p: Event -> bool)
    requires forall e: Event :: e.Transition? || e.Readiness? ==> !p(e)
    ensures Count(ChangeEvents(name, before, after, failure, s, s'), p) == Count(failure, p)
  {
    var e12 := TransitionEvents(OfWorker(name), before.lifecycle,
          after.lifecycle) + ReadinessEvents(OfWorker(name), before.ready, after.ready);
    var e4, e5 := TransitionEvents(OfRuntime, s.state, s'.state), ReadinessEvents(OfRuntime, s.ready, s'.ready);
    CountNone(e12, p);
    CountNone(e4, p);
    CountNone(e5, p);
    CountConcat(e12, failure, p);
    CountConcat(e12 + failure, e4, p);
    CountConcat(e12 + failure + e4, e5, p);
  }

  lemma CountOne(e: Event, p: Event -> bool)
    ensures Count([e], p) == if p(e) then 1 else 0
  {
    assert [e][..|[e]| - 1] == [];
    assert Count([], p) == 0;
  }

  /** What one step does to the account of the Start or Stop in progress. */
  ghost predicate Accounts(c: Core, o: Outcome, n: Name)
    requires n in c.workers
  {
    && n in o.core.workers
    && Count(o.events, IsLifecycleFailure(n)) == Count(o.events, IsReport(n))
    && (c.workers[n].lifecycle == Starting ==>
          (o.core.workers[n].failureReportedDuringStart <==>
             c.workers[n].failureReportedDuringStart || Count(o.events, IsReport(n)) > 0))
  }

  lemma NoFailureAccounts(c: Core, o: Outcome, n: Name)
    requires n in c.workers && n in o.core.workers
    requires forall e :: e in o.events ==> !IsLifecycleFailure(n)(e)
    requires o.core.workers[n].failureReportedDuringStart == c.workers[n].failureReportedDuringStart
    ensures Accounts(c, o, n)
  {
    assert forall e :: e in o.events ==> !IsReport(n)(e);
    CountNone(o.events, IsLifecycleFailure(n));
    CountNone(o.events, IsReport(n));
  }

  lemma ReportAccounts(c: Core, h: Handle, err: Error, n: Name)
    requires n in c.workers && c.workers[n].lifecycle in {Starting, Stopping}
    ensures Accounts(c, ReportWorkerFailure(c, h.worker, h.generation, err), n)
  {
    hide Commit, ChangeEvents, Count, Moved;
    var o := ReportWorkerFailure(c, h.worker, h.generation, err);
    if o.result == Done {
      var before := c.workers[h.worker];
      var failure := [Failure(h.worker, Report, err, false)];
      var after := if before.lifecycle == Starting || before.lifecycle == Stopping then
                     before.(ready := false, acceptingWork := false,
                             readySetDuringStart := false, acceptingWorkSetDuringStart := false,
                             failureReportedDuringStart := before.lifecycle == Starting,
                             lastFailure := Some(err))
                   else MovedToFailed(before, Some(err));
      CountChange(h.worker, before, after, failure, c.status, o.core.status, IsLifecycleFailure(n));
      CountChange(h.worker, before, after, failure, c.status, o.core.status, IsReport(n));
      CountOne(failure[0], IsLifecycleFailure(n));
      CountOne(failure[0], IsReport(n));
    } else {
      NoFailureAccounts(c, o, n);
    }
  }

  /** The records and failure events a step may touch, apart from reports. */
  lemma CommitAccounts(c: Core, name: Name, after: Worker, failure: seq<Event>, o: Outcome, n: Name)
    requires name in c.workers && n in c.workers
    requires o == Observed(c, name, after, failure, o.result)
    requires name == n ==> after.failureReportedDuringStart == c.workers[n].failureReportedDuringStart
    requires forall e :: e in failure ==> !IsLifecycleFailure(n)(e)
    ensures Accounts(c, o, n)
  {
    hide Commit;
    NoFailureAccounts(c, o, n);
  }

  lemma SetReadyAccounts(c: Core, h: Handle, ready: bool, n: Name)
    requires n in c.workers
    ensures Accounts(c, SetWorkerReady(c, h.worker, h.generation, ready), n)
  {
    var o := SetWorkerReady(c, h.worker, h.generation, ready);
    if o.result == Done {
      hide Commit;
      var w := c.workers[h.worker];
      CommitAccounts(c, h.worker, w.(ready := ready,
                                            readySetDuringStart := w.readySetDuringStart || w.lifecycle == Starting),
                     [], o, n);
    } else {
      NoFailureAccounts(c, o, n);
    }
  }

  lemma SetAcceptingAccounts(c: Core, h: Handle, accepting: bool, n: Name)
    requires n in c.workers
    ensures Accounts(c, SetWorkerAcceptingWork(c, h.worker, h.generation, accepting), n)
  {
    hide Commit;
    var o := SetWorkerAcceptingWork(c, h.worker, h.generation, accepting);
    NoFailureAccounts(c, o, n);
  }

  lemma PanicAccounts(c: Core, id: nat, name: Name, generation: nat, err: Error, n: Name)
    requires n in c.workers && c.workers[n].lifecycle in {Starting, Stopping} && name in c.workers
    ensures Accounts(c, RecordCommandPanic(c, id, name, generation, err), n)
  {
    hide Commit;
    var o := RecordCommandPanic(c, id, name, generation, err);
    var w := c.workers[name];
    if w.generation == generation && (w.lifecycle == Running || w.lifecycle == Draining) {
      CommitAccounts(c, name, MovedToFailed(w, Some(err)).(lastCommandFailure := Some(err)),
                     [Failure(name, Command(id), err, true)], o, n);
    } else {
      NoFailureAccounts(c, o, n);
    }
  }

  lemma QuietStepAccounts(c: Core, l: Label, n: Name)
    requires Enabled(c, l) && n in c.workers
    requires IsDispatchStep(l) && !l.CommandPanicked?
    ensures Accounts(c, Apply(c, l), n)
  {
    hide Accounts, RecordCommandPanic;
    NoFailureAccounts(c, Apply(c, l), n);
  }

  lemma GateStepAccounts(c: Core, l: Label, n: Name)
    requires Enabled(c, l) && n in c.workers
    requires l.CallStart? || l.CallStop? || l.Answer? || l.RecordFailure? || l.ObserveCleanup?
    ensures Accounts(c, Apply(c, l), n)
  {
    hide Accounts;
    NoFailureAccounts(c, Apply(c, l), n);
  }

  /** Steps that leave a Start or Stop in progress. */
  predicate IsProgress(l: Label) {
    IsFreeStep(l) || l.CallStart? || l.CallStop? || l.Answer? || l.RecordFailure?
  }

  /** They keep its account. */
  lemma StepAccounts(c: Core, l: Label, n: Name)
    requires Enabled(c, l) && IsProgress(l)
    requires n in c.workers && c.workers[n].lifecycle in {Starting, Stopping}
    ensures Accounts(c, Apply(c, l), n)
  {
    hide Accounts;
    match l
    case ReportFailure(h, err) => ReportAccounts(c, h, err, n);
    case SetReady(h, ready) => SetReadyAccounts(c, h, ready, n);
    case SetAcceptingWork(h, accepting) => SetAcceptingAccounts(c, h, accepting, n);
    case CommandPanicked(id, err) => PanicAccounts(c, id, c.dispatches[id].worker, c.dispatches[id].generation, err, n);
    case CallStart | CallStop | Answer(_) | RecordFailure(_) | ObserveCleanup(_, _, _) => GateStepAccounts(c, l, n);
    case _ => QuietStepAccounts(c, l, n);
  }

  lemma BeginStartCountsNothing(c: Core, name: Name)
    requires name in c.workers && BeginWorkerStart(c, name).result.Began?
    ensures var o := BeginWorkerStart(c, name);
            Count(o.events, IsLifecycleFailure(name)) == 0 && Count(o.events, IsReport(name)) == 0
            && name in o.core.workers && !o.core.workers[name].failureReportedDuringStart
  {
    hide Commit;
    var o := BeginWorkerStart(c, name);
    var w := c.workers[name];
    var after := Moved(w, Starting).(generation := w.generation + 1, failureReportedDuringStart := false);
    CountChange(name, w, after, [], c.status, o.core.status, IsLifecycleFailure(name));
    CountChange(name, w, after, [], c.status, o.core.status, IsReport(name));
  }

  lemma BeginStopCountsNothing(c: Core, name: Name)
    requires name in c.workers && BeginWorkerStop(c, name).result.Began?
    ensures var o := BeginWorkerStop(c, name);
            Count(o.events, IsLifecycleFailure(name)) == 0 && Count(o.events, IsReport(name)) == 0
            && name in o.core.workers
  {
    hide Commit;
    var o := BeginWorkerStop(c, name);
    var w := c.workers[name];
    CountChange(name, w, Moved(w, Stopping), [], c.status, o.core.status, IsLifecycleFailure(name));
    CountChange(name, w, Moved(w, Stopping), [], c.status, o.core.status, IsReport(name));
  }

  /** The account after one more step of a Start or Stop in progress. */
  lemma AccountGrows(s: System, o: Outcome, n: Name)
    requires n in s.core.workers && Accounts(s.core, o, n) && s.mark <= |s.log|
    requires Count(s.log[s.mark..], IsLifecycleFailure(n)) == Count(s.log[s.mark..], IsReport(n))
    requires s.core.workers[n].lifecycle == Starting ==>
               (s.core.workers[n].failureReportedDuringStart <==> Count(s.log[s.mark..], IsReport(n)) > 0)
    ensures var part := (s.log + o.events)[s.mark..];
            Count(part, IsLifecycleFailure(n)) == Count(part, IsReport(n))
            && (s.core.workers[n].lifecycle == Starting ==>
                  (o.core.workers[n].failureReportedDuringStart <==> Count(part, IsReport(n)) > 0))
  {
    assert (s.log + o.events)[s.mark..] == s.log[s.mark..] + o.events;
    CountConcat(s.log[s.mark..], o.events, IsLifecycleFailure(n));
    CountConcat(s.log[s.mark..], o.events, IsReport(n));
  }

  lemma HandleStepKeepsGate(c: Core, l: Label)
    requires Enabled(c, l) && IsHandleStep(l)
    ensures Apply(c, l).core.gate == c.gate
  {
    hide Commit, Observed;
  }

  lemma DispatchStepKeepsGate(c: Core, l: Label)
    requires Enabled(c, l) && IsDispatchStep(l)
    ensures Apply(c, l).core.gate == c.gate
  {
    hide Commit, Observed;
  }

  /** The gate holder stays at what it is doing. */
  lemma ProgressKeepsActivity(c: Core, l: Label)
    requires Enabled(c, l) && IsProgress(l)
    ensures var c' := Apply(c, l).core;
            (Busy(c') <==> Busy(c)) && (Busy(c) ==> c'.gate.activity == c.gate.activity)
  {
    if IsHandleStep(l) {
      hide Apply;
      HandleStepKeepsGate(c, l);
    } else if IsDispatchStep(l) {
      hide Apply;
      DispatchStepKeepsGate(c, l);
    }
  }

  lemma BusyOnlyByBegin(c: Core, l: Label)
    requires Enabled(c, l) && !IsProgress(l) && !l.BeginStart? && !l.BeginStop?
    ensures !Busy(Apply(c, l).core)
  {
    hide Commit, Recompute, Observed;
  }

  lemma ProgressKeepsAccount(s: System, l: Label)
    requires CoreOk(s.core) && AccountOk(s) && Enabled(s.core, l) && IsProgress(l)
    ensures AccountOk(Next(s, l))
  {
    hide UngatedOk, GateOk, Apply, IsProgress;
    var c, o := s.core, Apply(s.core, l);
    ProgressKeepsActivity(c, l);
    if Busy(c) {
      BusyRecord(c);
      var n := c.gate.activity.name;
      StepAccounts(c, l, n);
      AccountGrows(s, o, n);
      ProgressIsNoBegin(l);
    }
  }

  lemma ProgressIsNoBegin(l: Label)
    requires IsProgress(l)
    ensures !l.BeginStart? && !l.BeginStop?
  {
  }

  lemma BeginKeepsAccount(s: System, l: Label)
    requires CoreOk(s.core) && Enabled(s.core, l) && (l.BeginStart? || l.BeginStop?)
    ensures AccountOk(Next(s, l))
  {
    hide UngatedOk, GateOk, Commit, Observed;
    var o := Apply(s.core, l);
    if o.result.Began? {
      if l.BeginStart? {
        BeginStartCountsNothing(s.core, l.name);
      } else {
        BeginStopCountsNothing(s.core, l.name);
      }
      assert (s.log + o.events)[|s.log|..] == o.events;
    }
  }

  lemma StepKeepsAccount(s: System, l: Label)
    requires CoreOk(s.core) && AccountOk(s) && Enabled(s.core, l)
    ensures AccountOk(Next(s, l))
  {
    hide CoreOk, Apply;
    if IsProgress(l) {
      ProgressKeepsAccount(s, l);
    } else if l.BeginStart? || l.BeginStop? {
      BeginKeepsAccount(s, l);
    } else {
      BusyOnlyByBegin(s.core, l);
    }
  }
}
