/** Every step keeps the invariant, so every run does. */
module RuntimeSafety {
  import opened Basics
  import opened Lifecycle
  import opened RuntimeStatus
  import opened EventLog
  import opened RuntimeSteps
  import opened RuntimeInvariant

  // ---------------------------------------------------------------------------
  // Lifecycle steps.

  lemma BeginStartKeeps(c: Core, name: Name, after: Outcome)
    requires AtRest(c) && after == Apply(c, BeginStart(name))
    requires CoreOk(c)
    ensures Faithful(c, after)
  {
    hide UngatedOk, GateOk, EventsFit, Commit, Observed;
    var o := BeginWorkerStart(c, name);
    if o.result.Began? {
      var w := c.workers[name];
      var record := Moved(w, Starting).(generation := w.generation + 1, failureReportedDuringStart := false);
      TheRecord(c, name);
      ObservedKeeps(c, name, record, [], o);
      GateBegun(c, o.core, name, record, StartingWorker(name, record.generation));
      GateOnlyKeeps(c, o, o.core.gate.(activity := StartingWorker(name, record.generation), call := NotCalled));
    } else {
      UnchangedFits(c, o);
    }
  }

  lemma BeginStopKeeps(c: Core, name: Name, after: Outcome)
    requires AtRest(c) && after == Apply(c, BeginStop(name))
    requires CoreOk(c)
    ensures Faithful(c, after)
  {
    hide UngatedOk, GateOk, EventsFit, Commit, Observed;
    var o := BeginWorkerStop(c, name);
    if o.result.Began? {
      var w := c.workers[name];
      TheRecord(c, name);
      ObservedKeeps(c, name, Moved(w, Stopping), [], o);
      GateBegun(c, o.core, name, Moved(w, Stopping), StoppingWorker(name, w.generation));
      GateOnlyKeeps(c, o, o.core.gate.(activity := StoppingWorker(name, w.generation), call := NotCalled));
    } else {
      UnchangedFits(c, o);
    }
  }

  /** Changing only the holder's activity keeps everything but the gate part. */
  lemma GateOnlyKeeps(c: Core, o: Outcome, gate: Gate)
    requires UngatedOk(o.core) && EventsFit(c, o)
    requires o.core.gate.Held? && gate.Held? && gate.cutoff == o.core.gate.cutoff
    requires GateOk(o.core.(gate := gate))
    ensures Faithful(c, o.(core := o.core.(gate := gate)))
  {
    hide UngatedOk, GateOk, EventsFit, Commit, Observed;
    GateOnlyKeepsCore(o.core, gate);
    GateOnlyFits(c, o, gate);
  }

  lemma GateOnlyKeepsCore(c: Core, gate: Gate)
    requires UngatedOk(c)
    requires c.gate.Held? && gate.Held? && gate.cutoff == c.gate.cutoff
    ensures UngatedOk(c.(gate := gate))
  {
    GateFreeParts(c, c.(gate := gate));
  }

  /** The parts of the invariant that do not look at the gate. */
  lemma GateFreeParts(c: Core, c': Core)
    requires c' == c.(gate := c'.gate, admissionClosed := c'.admissionClosed)
    ensures KeysOk(c) ==> KeysOk(c')
    ensures RecordsOk(c) ==> RecordsOk(c')
    ensures StatusOk(c) ==> StatusOk(c')
    ensures SlotsOk(c) ==> SlotsOk(c')
    ensures HandlesOk(c) ==> HandlesOk(c')
  {
    hide RecordOk, AggregateState, AggregateReady;
    if HandlesOk(c) {
      assert forall h :: Issued(c, h) ==> Issued(c', h);
    }
  }

  lemma GateOnlyFits(c: Core, o: Outcome, gate: Gate)
    requires EventsFit(c, o)
    ensures EventsFit(c, o.(core := o.core.(gate := gate)))
  {
    forall subject
      ensures Play(subject, Current(c, subject), o.events) == Some(Current(o.core.(gate := gate), subject))
    {
      assert Current(o.core.(gate := gate), subject) == Current(o.core, subject);
    }
  }

  /** The gate holder's activity ends with one committed record that is neither starting nor
      stopping. */
  lemma FinishKeeps(c: Core, after: Worker, failure: seq<Event>, o: Outcome)
    requires CoreOk(c) && Busy(c) && c.gate.activity.name in c.workers
    requires Replaces(c.workers[c.gate.activity.name], after)
    requires after.lifecycle != Starting && after.lifecycle != Stopping
    requires forall e :: e in failure ==> e.Failure?
    requires o == Observed(c, c.gate.activity.name, after, failure, o.result)
    ensures Faithful(c, Finish(o))
  {
    hide UngatedOk, GateOk, EventsFit, Commit, Observed;
    var name := c.gate.activity.name;
    ObservedKeeps(c, name, after, failure, o);
    GateFinished(c, o.core, name, after);
    GateOnlyKeeps(c, o, o.core.gate.(activity := Idle, call := NotCalled));
  }

  /** While the gate holder starts or stops a worker, the record is in the matching lifecycle
      and generation. */
  lemma BusyRecord(c: Core)
    requires CoreOk(c) && Busy(c)
    ensures var a := c.gate.activity;
            a.name in c.workers && a.name in c.configs && RecordOk(c.workers[a.name])
            && c.workers[a.name].generation == a.generation
            && c.workers[a.name].lifecycle == if a.StartingWorker? then Starting else Stopping
  {
  }

  lemma CompleteStartKeeps(c: Core)
    requires CoreOk(c) && Enabled(c, CompleteStart)
    ensures Faithful(c, Apply(c, CompleteStart))
  {
    hide UngatedOk, GateOk, EventsFit, Commit, Observed;
    BusyRecord(c);
    var a := c.gate.activity;
    var w, cfg := c.workers[a.name], c.configs[a.name];
    var o := CompleteWorkerStart(c, a.name, a.generation, cfg.readyOnStart, cfg.acceptingWork);
    if w.failureReportedDuringStart {
      FinishKeeps(c, MovedToFailed(w, w.lastFailure), [], o);
    } else {
      var after := Moved(w, Running).(
                     ready := if w.readySetDuringStart then w.ready else cfg.readyOnStart,
                     acceptingWork := if w.acceptingWorkSetDuringStart then w.acceptingWork else cfg.acceptingWork,
                     failureReportedDuringStart := false,
                     lastFailure := None);
      FinishKeeps(c, after, [], o);
    }
  }

  lemma CompleteStopKeeps(c: Core)
    requires CoreOk(c) && Enabled(c, CompleteStop)
    ensures Faithful(c, Apply(c, CompleteStop))
  {
    hide UngatedOk, GateOk, EventsFit, Commit, Observed;
    BusyRecord(c);
    var a := c.gate.activity;
    FinishKeeps(c, Moved(c.workers[a.name], Stopped), [], CompleteWorkerStop(c, a.name, a.generation));
  }

  lemma FailOperationKeeps(c: Core, err: Error, panicked: bool)
    requires CoreOk(c) && Enabled(c, FailOperation(err, panicked))
    ensures Faithful(c, Apply(c, FailOperation(err, panicked)))
  {
    hide UngatedOk, GateOk, EventsFit, Commit, Observed;
    BusyRecord(c);
    var a := c.gate.activity;
    var w := c.workers[a.name];
    var suppress := w.lastFailure.Some? && (w.lifecycle == Failed || w.failureReportedDuringStart);
    var failure := if suppress then [] else [Failure(a.name, Operation, err, panicked)];
    FinishKeeps(c, MovedToFailed(w, Some(err)), failure, FailWorker(c, a.name, a.generation, err, panicked));
  }

  lemma FailCleanupKeeps(c: Core, err: Error)
    requires CoreOk(c) && Enabled(c, FailCleanup(err))
    ensures Faithful(c, Apply(c, FailCleanup(err)))
  {
    hide UngatedOk, GateOk, EventsFit, Commit, Observed;
    BusyRecord(c);
    var a := c.gate.activity;
    var w := c.workers[a.name];
    FinishKeeps(c, MovedToFailed(w, if w.lastFailure.None? then Some(err) else w.lastFailure),
                [Failure(a.name, CleanupPending, err, false)], FailLoopCleanup(c, a.name, a.generation, err));
  }

  /** A record that stays in its lifecycle, committed or stored without events. */
  lemma SilentKeeps(c: Core, name: Name, after: Worker, o: Outcome)
    requires CoreOk(c) && name in c.workers && Replaces(c.workers[name], after)
    requires after.lifecycle == c.workers[name].lifecycle && after.ready == c.workers[name].ready
    requires after.generation == c.workers[name].generation
    requires o.core == Commit(c, name, after) || o.core == c.(workers := c.workers[name := after])
    requires forall e :: e in o.events ==> !e.Transition? && !e.Readiness?
    ensures Faithful(c, o)
    ensures o.core == c.(workers := c.workers[name := after])
  {
    hide UngatedOk, GateOk, EventsFit, StatusOk, Commit, RecordOk;
    TheRecord(c, name);
    if o.core == Commit(c, name, after) {
      SilentCommit(c, name, after);
    }
    QuietKeeps(c, o.core, name, after);
    GateUnmoved(c, o.core, name, after);
    UnchangedFits(c, o);
  }

  /** A record changed by a step that holds no gate. */
  lemma FreeCommitKeeps(c: Core, name: Name, after: Worker, failure: seq<Event>, o: Outcome)
    requires CoreOk(c) && name in c.workers && Replaces(c.workers[name], after)
    requires after.generation == c.workers[name].generation
    requires after.lifecycle == Starting <==> c.workers[name].lifecycle == Starting
    requires after.lifecycle == Stopping <==> c.workers[name].lifecycle == Stopping
    requires forall e :: e in failure ==> e.Failure?
    requires o == Observed(c, name, after, failure, o.result)
    ensures Faithful(c, o)
  {
    hide UngatedOk, GateOk, EventsFit, Commit, Observed;
    ObservedKeeps(c, name, after, failure, o);
    GateUnmoved(c, o.core, name, after);
  }

  lemma RecordFailureKeeps(c: Core, err: Error)
    requires CoreOk(c) && Enabled(c, RecordFailure(err))
    ensures Faithful(c, Apply(c, RecordFailure(err)))
  {
    hide UngatedOk, GateOk, EventsFit, Commit, Observed;
    BusyRecord(c);
    var a := c.gate.activity;
    SilentKeeps(c, a.name, c.workers[a.name].(lastFailure := Some(err)), Apply(c, RecordFailure(err)));
  }

  lemma BeginDrainKeeps(c: Core, name: Name)
    requires CoreOk(c) && AtRest(c)
    ensures Faithful(c, BeginWorkerDrain(c, name))
  {
    hide UngatedOk, GateOk, EventsFit, Commit, Observed, RecordOk;
    var o := BeginWorkerDrain(c, name);
    if o.result == Done {
      var w := c.workers[name];
      TheRecord(c, name);
      DrainedRecordOk(w);
      if w.lifecycle == Draining {
        SilentKeeps(c, name, w.(ready := false, acceptingWork := false), o);
      } else {
        FreeCommitKeeps(c, name, Drained(w), [], o);
      }
    } else {
      UnchangedFits(c, o);
    }
  }

  function Drained(w: Worker): Worker {
    w.(lifecycle := Draining, ready := false, acceptingWork := false,
        lastTransition := Some(Change(w.lifecycle, Draining)))
  }

  lemma DrainedRecordOk(w: Worker)
    requires RecordOk(w) && (w.lifecycle == Running || w.lifecycle == Draining)
    ensures w.lifecycle == Running ==> RecordOk(Drained(w))
    ensures RecordOk(w.(ready := false, acceptingWork := false))
  {
  }

  // ---------------------------------------------------------------------------
  // Handle steps.

  lemma SetReadyKeeps(c: Core, name: Name, generation: nat, ready: bool)
    requires CoreOk(c)
    ensures Faithful(c, SetWorkerReady(c, name, generation, ready))
  {
    hide UngatedOk, GateOk, EventsFit, Commit, Observed;
    var o := SetWorkerReady(c, name, generation, ready);
    if o.result == Done {
      var w := c.workers[name];
      TheRecord(c, name);
      FreeCommitKeeps(c, name, w.(ready := ready,
                                         readySetDuringStart := w.readySetDuringStart || w.lifecycle == Starting),
                      [], o);
    } else {
      UnchangedFits(c, o);
    }
  }

  lemma SetAcceptingWorkKeeps(c: Core, name: Name, generation: nat, accepting: bool)
    requires CoreOk(c)
    ensures Faithful(c, SetWorkerAcceptingWork(c, name, generation, accepting))
  {
    hide UngatedOk, GateOk, EventsFit, Commit, Observed;
    var o := SetWorkerAcceptingWork(c, name, generation, accepting);
    if o.result == Done {
      var w := c.workers[name];
      TheRecord(c, name);
      SilentKeeps(c, name,
                  w.(acceptingWork := accepting,
                     acceptingWorkSetDuringStart := w.acceptingWorkSetDuringStart || w.lifecycle == Starting), o);
    } else {
      UnchangedFits(c, o);
    }
  }

  lemma ReportFailureKeeps(c: Core, name: Name, generation: nat, err: Error)
    requires CoreOk(c)
    ensures Faithful(c, ReportWorkerFailure(c, name, generation, err))
  {
    hide UngatedOk, GateOk, EventsFit, Commit, Observed, RecordOk;
    var o := ReportWorkerFailure(c, name, generation, err);
    if o.result == Done {
      var w := c.workers[name];
      TheRecord(c, name);
      hide CoreOk;
      if w.lifecycle == Starting || w.lifecycle == Stopping {
        var after := w.(ready := false, acceptingWork := false,
                        readySetDuringStart := false, acceptingWorkSetDuringStart := false,
                        failureReportedDuringStart := w.lifecycle == Starting,
                        lastFailure := Some(err));
        ReportedRecordOk(w, after, err);
        ReportedCommitKeeps(c, name, w, after, err, o);
      } else {
        FailedRecordOk(w, err);
        FailedCommitKeeps(c, name, w, err, o);
      }
    } else {
      UnchangedFits(c, o);
    }
  }

  lemma ReportedCommitKeeps(c: Core, name: Name, w: Worker, after: Worker, err: Error, o: Outcome)
    requires name in c.workers && c.workers[name] == w
    requires after.lifecycle == w.lifecycle && after.generation == w.generation && after.inFlight == w.inFlight
    requires after.lastTransition == w.lastTransition
    requires RecordOk(w) && RecordOk(after)
    requires o == Observed(c, name, after, [Failure(name, Report, err, false)], o.result)
    requires CoreOk(c)
    ensures Faithful(c, o)
  {
    hide UngatedOk, GateOk, EventsFit, Commit, Observed, RecordOk, CoreOk;
    FreeCommitKeeps(c, name, after, [Failure(name, Report, err, false)], o);
  }

  lemma FailedCommitKeeps(c: Core, name: Name, w: Worker, err: Error, o: Outcome)
    requires name in c.workers && c.workers[name] == w
    requires w.lifecycle == Running || w.lifecycle == Draining
    requires RecordOk(w) && RecordOk(MovedToFailed(w, Some(err)))
    requires o == Observed(c, name, MovedToFailed(w, Some(err)), [Failure(name, Report, err, false)], o.result)
    requires CoreOk(c)
    ensures Faithful(c, o)
  {
    hide UngatedOk, GateOk, EventsFit, Commit, Observed, RecordOk, CoreOk;
    FreeCommitKeeps(c, name, MovedToFailed(w, Some(err)), [Failure(name, Report, err, false)], o);
  }

  lemma ReportedRecordOk(w: Worker, after: Worker, err: Error)
    requires RecordOk(w) && (w.lifecycle == Starting || w.lifecycle == Stopping)
    requires after == w.(ready := false, acceptingWork := false,
                         readySetDuringStart := false, acceptingWorkSetDuringStart := false,
                         failureReportedDuringStart := w.lifecycle == Starting,
                         lastFailure := Some(err))
    ensures RecordOk(after)
  {
  }

  lemma FailedRecordOk(w: Worker, err: Error)
    requires RecordOk(w) && w.lifecycle != Registered && w.lifecycle != Stopped && w.lifecycle != Failed
    ensures RecordOk(MovedToFailed(w, Some(err)))
    ensures RecordOk(MovedToFailed(w, Some(err)).(lastCommandFailure := Some(err)))
  {
  }

  // ---------------------------------------------------------------------------
  // Dispatch steps.

  lemma CommandFailureKeeps(c: Core, id: nat, name: Name, generation: nat, err: Error)
    requires CoreOk(c) && name in c.workers
    ensures Faithful(c, RecordCommandFailure(c, id, name, generation, err))
  {
    hide UngatedOk, GateOk, EventsFit, Commit, Observed;
    var o := RecordCommandFailure(c, id, name, generation, err);
    var w := c.workers[name];
    TheRecord(c, name);
    if w.generation == generation {
      SilentKeeps(c, name, w.(lastCommandFailure := Some(err)), o);
    } else {
      UnchangedFits(c, o);
    }
  }

  lemma CommandPanicKeeps(c: Core, id: nat, name: Name, generation: nat, err: Error)
    requires CoreOk(c) && name in c.workers
    ensures Faithful(c, RecordCommandPanic(c, id, name, generation, err))
  {
    hide UngatedOk, GateOk, EventsFit, Commit, Observed, RecordOk;
    var o := RecordCommandPanic(c, id, name, generation, err);
    var w := c.workers[name];
    TheRecord(c, name);
    if w.generation != generation {
      UnchangedFits(c, o);
    } else if w.lifecycle == Running || w.lifecycle == Draining {
      FailedRecordOk(w, err);
      FreeCommitKeeps(c, name, MovedToFailed(w, Some(err)).(lastCommandFailure := Some(err)),
                      [Failure(name, Command(id), err, true)], o);
    } else {
      CommandFailureRecordOk(w, err);
      SilentKeeps(c, name, w.(lastCommandFailure := Some(err)), o);
    }
  }

  lemma CommandFailureRecordOk(w: Worker, err: Error)
    requires RecordOk(w)
    ensures RecordOk(w.(lastCommandFailure := Some(err)))
  {
  }

  lemma HeldByGrows(dispatches: map<nat, Handle>, id: nat, h: Handle, n: Name)
    requires id !in dispatches
    ensures |HeldBy(dispatches[id := h], n)| == |HeldBy(dispatches, n)| + if h.worker == n then 1 else 0
    ensures |dispatches[id := h]| == |dispatches| + 1
  {
    var grown := dispatches[id := h];
    assert |grown| == |dispatches| + 1 by {
      assert grown.Keys == dispatches.Keys + {id};
      assert |grown.Keys| == |grown| && |dispatches.Keys| == |dispatches|;
    }
    HeldByOneMore(dispatches, id, h, n);
    hide HeldBy;
  }

  lemma HeldByOneMore(dispatches: map<nat, Handle>, id: nat, h: Handle, n: Name)
    requires id !in dispatches
    ensures id !in HeldBy(dispatches, n)
    ensures HeldBy(dispatches[id := h], n) == if h.worker == n then HeldBy(dispatches, n) + {id}
                                                 else HeldBy(dispatches, n)
  {
    var grown := dispatches[id := h];
    forall i: nat
      ensures i in HeldBy(grown, n) <==> i in HeldBy(dispatches, n) || (i == id && h.worker == n)
    {
    }
  }

  lemma HeldByShrinks(dispatches: map<nat, Handle>, id: nat, n: Name)
    requires id in dispatches
    ensures |HeldBy(dispatches - {id}, n)| == |HeldBy(dispatches, n)| - if dispatches[id].worker == n then 1 else 0
    ensures |dispatches - {id}| == |dispatches| - 1
  {
    var rest := dispatches - {id};
    assert rest[id := dispatches[id]] == dispatches;
    HeldByGrows(rest, id, dispatches[id], n);
  }

  /** c' is c with another in-flight count in one record and in the status. */
  ghost predicate Recounted(c: Core, c': Core, name: Name) {
    && name in c.workers && name in c'.workers
    && c' == c.(workers := c.workers[name := c.workers[name].(inFlight := c'.workers[name].inFlight)],
                status := c.status.(inFlight := c'.status.inFlight),
                dispatches := c'.dispatches,
                pending := c'.pending,
                replies := c'.replies)
  }

  lemma RecountedKeepsRecords(c: Core, c': Core, name: Name)
    requires KeysOk(c) && RecordsOk(c) && CutoffOk(c) && Recounted(c, c', name)
    ensures KeysOk(c') && RecordsOk(c') && CutoffOk(c')
  {
    assert RecordOk(c'.workers[name]) by { assert RecordOk(c.workers[name]); }
    hide RecordOk;
  }

  lemma RecountedKeepsGate(c: Core, c': Core, name: Name)
    requires GateOk(c) && Recounted(c, c', name)
    ensures GateOk(c')
  {
  }

  lemma RecountedKeepsHandles(c: Core, c': Core, name: Name)
    requires RecordsOk(c) && HandlesOk(c) && Recounted(c, c', name) && c.workers[name].generation >= 1
    requires forall id :: id in c'.dispatches ==>
               (id in c.dispatches && c'.dispatches[id] == c.dispatches[id])
               || c'.dispatches[id] == Handle(name, c.workers[name].generation)
    ensures HandlesOk(c')
  {
    hide RecordOk;
    assert forall h :: Issued(c, h) ==> Issued(c', h);
  }

  lemma RecountedKeeps(c: Core, o: Outcome, name: Name)
    requires CoreOk(c) && Recounted(c, o.core, name)
    requires SlotsOk(o.core) && HandlesOk(o.core)
    requires forall e :: e in o.events ==> !e.Transition? && !e.Readiness?
    ensures Faithful(c, o)
  {
    hide KeysOk, RecordsOk, GateOk, CutoffOk, StatusOk, SlotsOk, HandlesOk, EventsFit;
    RecountedKeepsRecords(c, o.core, name);
    RecountedKeepsGate(c, o.core, name);
    QuietKeepsStatus(c, o.core, name, o.core.workers[name]);
    UnchangedFits(c, o);
  }

  lemma AdmitKeepsSlots(c: Core, c': Core, id: nat, name: Name)
    requires SlotsOk(c) && id in c.pending && Recounted(c, c', name)
    requires c'.dispatches == c.dispatches[id := Handle(name, c.workers[name].generation)]
    requires c'.pending == c.pending - {id}
    requires c'.workers[name].inFlight == c.workers[name].inFlight + 1
    requires c'.status.inFlight == c.status.inFlight + 1
    requires Within(c'.status.inFlight, c.config.commandConcurrency)
    requires name in c.configs ==> Within(c'.workers[name].inFlight, c.configs[name].commandConcurrency)
    ensures SlotsOk(c')
  {
    var h := Handle(name, c.workers[name].generation);
    HeldByGrows(c.dispatches, id, h, name);
    forall n | n in c'.workers
      ensures c'.workers[n].inFlight == |HeldBy(c'.dispatches, n)|
      ensures n in c'.configs ==> Within(c'.workers[n].inFlight, c'.configs[n].commandConcurrency)
    {
      HeldByGrows(c.dispatches, id, h, n);
      assert n in c.workers;
    }
  }

  lemma AdmitKeeps(c: Core, id: nat, name: Name)
    requires CoreOk(c) && id in c.pending
    ensures Faithful(c, AdmitCommand(c.(pending := c.pending - {id}, replies := c.replies - {id}), id, name))
  {
    hide KeysOk, RecordsOk, GateOk, CutoffOk, StatusOk, HandlesOk, EventsFit;
    var o := AdmitCommand(c.(pending := c.pending - {id}, replies := c.replies - {id}), id, name);
    if o.result.Began? {
      TheRecord(c, name);
      assert Within(c.workers[name].inFlight, 0);
      AdmitKeepsSlots(c, o.core, id, name);
      AdmittedKeeps(c, o, name);
    } else {
      PendingKeeps(c, o);
    }
  }

  lemma AdmittedKeeps(c: Core, o: Outcome, name: Name)
    requires CoreOk(c) && Recounted(c, o.core, name) && c.workers[name].lifecycle == Running
    requires forall id :: id in o.core.dispatches ==>
               (id in c.dispatches && o.core.dispatches[id] == c.dispatches[id])
               || o.core.dispatches[id] == Handle(name, c.workers[name].generation)
    requires SlotsOk(o.core) && o.events == []
    ensures Faithful(c, o)
  {
    hide SlotsOk, KeysOk, StatusOk, GateOk, CutoffOk, HandlesOk, EventsFit;
    assert RecordOk(c.workers[name]);
    RecountedKeepsHandles(c, o.core, name);
    RecountedKeeps(c, o, name);
  }

  /** A step that only touches the set of dispatches not yet admitted. */
  lemma PendingKeeps(c: Core, o: Outcome)
    requires CoreOk(c) && o.events == []
    requires o.core == c.(pending := o.core.pending, nextDispatch := o.core.nextDispatch, replies := o.core.replies)
    requires c.nextDispatch <= o.core.nextDispatch
    requires forall id :: id in o.core.pending ==> id < o.core.nextDispatch && id !in c.dispatches
    ensures Faithful(c, o)
  {
    hide KeysOk, RecordsOk, GateOk, CutoffOk, StatusOk, SlotsOk, HandlesOk, EventsFit;
    PendingKeepsSlots(c, o.core);
    PendingKeepsRest(c, o.core);
    UnchangedFits(c, o);
  }

  lemma PendingKeepsSlots(c: Core, c': Core)
    requires SlotsOk(c)
    requires c' == c.(pending := c'.pending, nextDispatch := c'.nextDispatch, replies := c'.replies)
    requires c.nextDispatch <= c'.nextDispatch
    requires forall id :: id in c'.pending ==> id < c'.nextDispatch && id !in c.dispatches
    ensures SlotsOk(c')
  {
  }

  lemma PendingKeepsRest(c: Core, c': Core)
    requires c' == c.(pending := c'.pending, nextDispatch := c'.nextDispatch, replies := c'.replies)
    ensures KeysOk(c) ==> KeysOk(c')
    ensures RecordsOk(c) ==> RecordsOk(c')
    ensures GateOk(c) ==> GateOk(c')
    ensures CutoffOk(c) ==> CutoffOk(c')
    ensures StatusOk(c) ==> StatusOk(c')
    ensures HandlesOk(c) ==> HandlesOk(c')
  {
    hide RecordOk, AggregateState, AggregateReady;
    if HandlesOk(c) {
      assert forall h :: Issued(c, h) ==> Issued(c', h);
    }
  }

  lemma ReleaseKeepsSlots(c: Core, c': Core, id: nat, name: Name)
    requires SlotsOk(c) && id in c.dispatches && c.dispatches[id].worker == name && Recounted(c, c', name)
    requires c'.dispatches == c.dispatches - {id} && c'.pending == c.pending
    requires c'.workers[name].inFlight == Decrement(c.workers[name].inFlight)
    requires c'.status.inFlight == Decrement(c.status.inFlight)
    ensures SlotsOk(c')
    ensures c.workers[name].inFlight > 0 && c.status.inFlight > 0
  {
    HeldByShrinks(c.dispatches, id, name);
    forall n | n in c'.workers
      ensures c'.workers[n].inFlight == |HeldBy(c'.dispatches, n)|
      ensures n in c'.configs ==> Within(c'.workers[n].inFlight, c'.configs[n].commandConcurrency)
    {
      HeldByShrinks(c.dispatches, id, n);
      assert n in c.workers;
    }
  }

  lemma TheDispatch(c: Core, id: nat)
    requires UngatedOk(c) && id in c.dispatches
    ensures Issued(c, c.dispatches[id]) && SlotsOk(c)
  {
  }

  lemma ReleaseKeeps(c: Core, id: nat)
    requires CoreOk(c) && id in c.dispatches
    ensures Faithful(c, ReleaseCommandSlot(c, id, c.dispatches[id].worker))
  {
    hide UngatedOk, GateOk, EventsFit, SlotsOk;
    TheDispatch(c, id);
    var name := c.dispatches[id].worker;
    var o := ReleaseCommandSlot(c, id, name);
    ReleaseKeepsSlots(c, o.core, id, name);
    ReleasedKeeps(c, o, id);
  }

  lemma ReleasedKeeps(c: Core, o: Outcome, id: nat)
    requires CoreOk(c) && id in c.dispatches && Recounted(c, o.core, c.dispatches[id].worker)
    requires o.core.dispatches == c.dispatches - {id} && SlotsOk(o.core) && o.events == [SlotReleased(id)]
    ensures Faithful(c, o)
  {
    hide SlotsOk, KeysOk, StatusOk, GateOk, CutoffOk, EventsFit;
    assert Issued(c, c.dispatches[id]);
    RecountedKeepsHandles(c, o.core, c.dispatches[id].worker);
    RecountedKeeps(c, o, c.dispatches[id].worker);
  }

  /** A step that only hands out a handle the invariant already vouches for. */
  lemma HandleKeeps(c: Core, o: Outcome, h: Handle)
    requires CoreOk(c) && Issued(c, h)
    requires o.core == c.(handles := o.core.handles, replies := o.core.replies)
    requires o.core.handles <= c.handles + {h}
    requires forall e :: e in o.events ==> !e.Transition? && !e.Readiness?
    ensures Faithful(c, o)
  {
    hide KeysOk, RecordsOk, GateOk, CutoffOk, StatusOk, SlotsOk, HandlesOk, EventsFit;
    HandleKeepsParts(c, o.core, h);
    UnchangedFits(c, o);
  }

  lemma HandleKeepsParts(c: Core, c': Core, h: Handle)
    requires c' == c.(handles := c'.handles, replies := c'.replies)
    requires c'.handles <= c.handles + {h} && Issued(c, h)
    ensures KeysOk(c) ==> KeysOk(c')
    ensures RecordsOk(c) ==> RecordsOk(c')
    ensures GateOk(c) ==> GateOk(c')
    ensures CutoffOk(c) ==> CutoffOk(c')
    ensures StatusOk(c) ==> StatusOk(c')
    ensures SlotsOk(c) ==> SlotsOk(c')
    ensures HandlesOk(c) ==> HandlesOk(c')
  {
    hide RecordOk, AggregateState, AggregateReady;
    if HandlesOk(c) {
      assert forall g :: Issued(c, g) ==> Issued(c', g);
    }
  }

  /** A step of the gate itself or of the admission cutoff. */
  lemma CutoffKeeps(c: Core, o: Outcome)
    requires CoreOk(c) && !Busy(c) && o.events == []
    requires o.core == c.(gate := o.core.gate, admissionClosed := o.core.admissionClosed)
    requires !Busy(o.core) && CutoffOk(o.core)
    ensures Faithful(c, o)
  {
    hide KeysOk, RecordsOk, GateOk, CutoffOk, StatusOk, SlotsOk, HandlesOk, EventsFit;
    GateFreeParts(c, o.core);
    GateAtRest(c, o.core);
    UnchangedFits(c, o);
  }

  lemma GateAtRest(c: Core, c': Core)
    requires GateOk(c) && !Busy(c) && !Busy(c') && c'.workers == c.workers
    ensures GateOk(c')
  {
  }

  // ---------------------------------------------------------------------------
  // All steps.

  lemma LifecycleStepKeeps(c: Core, l: Label)
    requires CoreOk(c) && Enabled(c, l) && !IsFreeStep(l)
    ensures Faithful(c, Apply(c, l))
  {
    hide UngatedOk, GateOk, EventsFit;
    match l
    case AcquireGate | ReleaseGate | CloseAdmission | RestoreAdmission => GateStepKeeps(c, l);
    case Register(name, config) => RegisterKeeps(c, name, config);
    case BeginStart(name) => BeginStartKeeps(c, name, Apply(c, l));
    case CallStart => CallKeeps(c, l);
    case Answer(outcome) => AnswerKeeps(c, outcome);
    case RecordFailure(err) => RecordFailureKeeps(c, err);
    case CompleteStart => CompleteStartKeeps(c);
    case BeginStop(name) => BeginStopKeeps(c, name, Apply(c, l));
    case CallStop => CallKeeps(c, l);
    case CompleteStop => CompleteStopKeeps(c);
    case FailOperation(err, panicked) => FailOperationKeeps(c, err, panicked);
    case FailCleanup(err) => FailCleanupKeeps(c, err);
    case BeginDrain(name) => BeginDrainKeeps(c, name);
  }

  lemma GateStepKeeps(c: Core, l: Label)
    requires CoreOk(c) && Enabled(c, l)
    requires l.AcquireGate? || l.ReleaseGate? || l.CloseAdmission? || l.RestoreAdmission?
    ensures Faithful(c, Apply(c, l))
  {
    hide KeysOk, RecordsOk, GateOk, StatusOk, SlotsOk, HandlesOk, EventsFit;
    CutoffKeeps(c, Apply(c, l));
  }

  /** How far a call has got enters no other part of the invariant. */
  lemma CallMovesKeep(c: Core, call: Call)
    requires CoreOk(c) && c.gate.Held?
    ensures CoreOk(c.(gate := c.gate.(call := call)))
  {
    hide UngatedOk;
    GateOnlyKeepsCore(c, c.gate.(call := call));
  }

  lemma CallKeeps(c: Core, l: Label)
    requires CoreOk(c) && Enabled(c, l) && (l.CallStart? || l.CallStop?)
    ensures Faithful(c, Apply(c, l))
  {
    hide UngatedOk, GateOk, EventsFit;
    BusyRecord(c);
    var a, o := c.gate.activity, Apply(c, l);
    CallMovesKeep(c, InProgress);
    HandleKeeps(c.(gate := c.gate.(call := InProgress)), o, Handle(a.name, a.generation));
    UnchangedFits(c, o);
  }

  lemma AnswerKeeps(c: Core, outcome: CallOutcome)
    requires CoreOk(c) && Enabled(c, Answer(outcome))
    ensures Faithful(c, Apply(c, Answer(outcome)))
  {
    hide UngatedOk, GateOk, EventsFit;
    CallMovesKeep(c, Answered(outcome));
    UnchangedFits(c, Apply(c, Answer(outcome)));
  }

  lemma HandleStepKeeps(c: Core, l: Label)
    requires CoreOk(c) && Enabled(c, l) && IsHandleStep(l)
    ensures Faithful(c, Apply(c, l))
  {
    hide UngatedOk, GateOk, EventsFit;
    match l
    case SetReady(h, ready) => SetReadyKeeps(c, h.worker, h.generation, ready);
    case SetAcceptingWork(h, accepting) => SetAcceptingWorkKeeps(c, h.worker, h.generation, accepting);
    case ReportFailure(h, err) => ReportFailureKeeps(c, h.worker, h.generation, err);
    case ObserveCleanup(h, err, panicked) => UnchangedFits(c, Apply(c, l));
  }

  lemma DispatchStepKeeps(c: Core, l: Label)
    requires CoreOk(c) && Enabled(c, l) && IsDispatchStep(l)
    ensures Faithful(c, Apply(c, l))
  {
    hide UngatedOk, GateOk, EventsFit, AdmitCommand, ReleaseCommandSlot, RecordCommandFailure, RecordCommandPanic;
    match l
    case NewDispatch => NewDispatchKeeps(c, Apply(c, l));
    case Admit(id, name) => AdmitKeeps(c, id, name);
    case CallHandler(id) =>
      TheDispatch(c, id);
      HandleKeeps(c, Apply(c, l), c.dispatches[id]);
    case CommandFailed(id, err) =>
      CommandFailureKeeps(c, id, c.dispatches[id].worker, c.dispatches[id].generation, err);
    case CommandPanicked(id, err) =>
      CommandPanicKeeps(c, id, c.dispatches[id].worker, c.dispatches[id].generation, err);
    case Release(id) => ReleaseKeeps(c, id);
    case HandlerReturns(id, _) =>
      TheDispatch(c, id);
      HandleKeeps(c, Apply(c, l), c.dispatches[id]);
    case EndObservation(id, attempts, success) => UnchangedFits(c, Apply(c, l));
  }

  lemma NewDispatchKeeps(c: Core, o: Outcome)
    requires o == Apply(c, NewDispatch)
    requires CoreOk(c)
    ensures Faithful(c, o)
  {
    hide KeysOk, RecordsOk, GateOk, CutoffOk, StatusOk, HandlesOk, EventsFit;
    PendingKeeps(c, o);
  }

  lemma StepKeepsCore(c: Core, l: Label)
    requires CoreOk(c) && Enabled(c, l)
    ensures Faithful(c, Apply(c, l))
  {
    hide CoreOk, EventsFit, Apply;
    if IsHandleStep(l) {
      HandleStepKeeps(c, l);
    } else if IsDispatchStep(l) {
      DispatchStepKeeps(c, l);
    } else {
      LifecycleStepKeeps(c, l);
    }
  }
}
