/** What every step of the runtime keeps. */
module RuntimeInvariant {
  import opened Basics
  import opened Lifecycle
  import opened RuntimeStatus
  import opened EventLog
  import opened RuntimeSteps

  // ---------------------------------------------------------------------------
  // The invariant, part by part.

  ghost predicate KeysOk(c: Core) {
    && c.workers.Keys == c.configs.Keys
    && (forall n :: n in c.order <==> n in c.workers)
    && (forall i, j :: 0 <= i < j < |c.order| ==> c.order[i] != c.order[j])
  }

  /** One worker record on its own. */
  ghost predicate RecordOk(w: Worker) {
    && (w.lifecycle == Registered <==> w.generation == 0)
    && (w.ready || w.acceptingWork ==> w.lifecycle == Starting || w.lifecycle == Running)
    && (w.readySetDuringStart || w.acceptingWorkSetDuringStart || w.failureReportedDuringStart
        ==> w.lifecycle == Starting)
    && (w.failureReportedDuringStart || w.lifecycle == Failed ==> w.lastFailure.Some?)
    && (w.lifecycle == Registered || w.lifecycle == Running || w.lifecycle == Draining ==> w.lastFailure.None?)
    && (if w.lastTransition.None? then w.lifecycle == Registered
        else w.lastTransition.value.to == w.lifecycle && LegalChange(w.lastTransition.value.from, w.lifecycle))
  }

  ghost predicate RecordsOk(c: Core) {
    forall n :: n in c.workers ==> RecordOk(c.workers[n])
  }

  /** A worker is starting or stopping exactly while the gate holder starts or stops it. */
  ghost predicate GateOk(c: Core) {
    && (forall n :: n in c.workers ==>
          (c.workers[n].lifecycle == Starting <==>
             c.gate.Held? && c.gate.activity == StartingWorker(n, c.workers[n].generation)))
    && (forall n :: n in c.workers ==>
          (c.workers[n].lifecycle == Stopping <==>
             c.gate.Held? && c.gate.activity == StoppingWorker(n, c.workers[n].generation)))
    && (Busy(c) ==> c.gate.activity.name in c.workers
                    && c.gate.activity.generation == c.workers[c.gate.activity.name].generation)
  }

  ghost predicate CutoffOk(c: Core) {
    && (c.admissionClosed <==> c.gate.Held? && c.gate.cutoff.Some?)
    && (c.gate.Held? && c.gate.cutoff.Some? ==> !c.gate.cutoff.value)
    && (c.admissionClosed ==> c.gate.Held?)
  }

  /** The cached status is a function of the worker records and configurations. */
  ghost predicate StatusOk(c: Core) {
    && c.status.workers == |c.workers|
    && c.status.state == AggregateState(c.workers, c.configs)
    && c.status.ready == AggregateReady(c.workers, c.configs, c.config.readinessPolicy)
    && (if c.status.lastTransition.None? then c.status.state == Registered
        else c.status.lastTransition.value.to == c.status.state
             && c.status.lastTransition.value.from != c.status.state)
  }

  /** The dispatches that hold a slot of one worker. */
  function HeldBy(dispatches: map<nat, Handle>, name: Name): set<nat> {
    set id | id in dispatches && dispatches[id].worker == name
  }

  ghost predicate Within(inFlight: int, cap: int) {
    0 <= inFlight && (cap > 0 ==> inFlight <= cap)
  }

  ghost predicate SlotsOk(c: Core) {
    && c.status.inFlight == |c.dispatches|
    && Within(c.status.inFlight, c.config.commandConcurrency)
    && (forall n :: n in c.workers ==> c.workers[n].inFlight == |HeldBy(c.dispatches, n)|)
    && (forall n :: n in c.workers && n in c.configs ==> Within(c.workers[n].inFlight, c.configs[n].commandConcurrency))
    && (forall id :: id in c.dispatches ==> id < c.nextDispatch && id !in c.pending)
    && (forall id :: id in c.pending ==> id < c.nextDispatch)
  }

  ghost predicate Issued(c: Core, h: Handle) {
    h.worker in c.workers && 1 <= h.generation <= c.workers[h.worker].generation
  }

  ghost predicate HandlesOk(c: Core) {
    && (forall h :: h in c.handles ==> Issued(c, h))
    && (forall id :: id in c.dispatches ==> Issued(c, c.dispatches[id]))
  }

  /** All parts but the gate's. */
  ghost predicate UngatedOk(c: Core) {
    KeysOk(c) && RecordsOk(c) && CutoffOk(c) && StatusOk(c) && SlotsOk(c) && HandlesOk(c)
  }

  ghost predicate CoreOk(c: Core) {
    UngatedOk(c) && GateOk(c)
  }

  lemma TheRecord(c: Core, name: Name)
    requires UngatedOk(c) && name in c.workers
    ensures RecordOk(c.workers[name]) && name in c.configs && StatusOk(c)
  {
  }

  function PointOf(w: Worker): Point { Point(w.lifecycle, w.ready, w.lastTransition) }

  function PointOfStatus(s: Status): Point { Point(s.state, s.ready, s.lastTransition) }

  /** The point a subject is at now. */
  function Current(c: Core, subject: Subject): Point {
    match subject
    case OfRuntime => PointOfStatus(c.status)
    case OfWorker(n) => if n in c.workers then PointOf(c.workers[n]) else Origin
  }

  ghost predicate LogOk(s: System) {
    forall subject :: Play(subject, Origin, s.log) == Some(Current(s.core, subject))
  }

  /** While a Start or Stop is in progress its log part holds one failure event per accepted
      report; a Start also remembers whether there was any. */
  ghost predicate AccountOk(s: System) {
    Busy(s.core) ==>
      && s.mark <= |s.log|
      && var n := s.core.gate.activity.name;
         n in s.core.workers
         && Count(s.log[s.mark..], IsLifecycleFailure(n)) == Count(s.log[s.mark..], IsReport(n))
         && (s.core.gate.activity.StartingWorker? ==>
               (s.core.workers[n].failureReportedDuringStart <==> Count(s.log[s.mark..], IsReport(n)) > 0))
  }

  ghost predicate Inv(s: System) {
    CoreOk(s.core) && LogOk(s) && AccountOk(s)
  }

  // ---------------------------------------------------------------------------
  // Committing a record.

  /** A record may replace another one: generation and lifecycle only move forward. */
  ghost predicate Replaces(before: Worker, after: Worker) {
    && RecordOk(after)
    && after.inFlight == before.inFlight
    && before.generation <= after.generation
    && (before.lifecycle != after.lifecycle ==> LegalChange(before.lifecycle, after.lifecycle))
    && after.lastTransition == DeriveChange(before.lifecycle, after.lifecycle, before.lastTransition)
  }

  lemma CommitKeepsStatus(c: Core, name: Name, after: Worker)
    requires StatusOk(c) && name in c.workers && Replaces(c.workers[name], after)
    ensures StatusOk(Commit(c, name, after))
  {
    hide FactsOf, AggregateState, DeriveState;
    DeriveStateStep(c.workers, c.configs, name, after);
    assert c.workers[name := after].Keys == c.workers.Keys;
  }

  /** c' is c with one record replaced and the aggregate status derived anew. */
  ghost predicate Committed(c: Core, c': Core, name: Name, after: Worker) {
    && name in c.workers
    && c' == c.(workers := c.workers[name := after], status := c'.status)
    && c'.status.inFlight == c.status.inFlight
    && c'.status.workers == |c'.workers|
    && c'.status.lastTransition == DeriveChange(c.status.state, c'.status.state, c.status.lastTransition)
  }

  lemma CommittedKeepsRecords(c: Core, c': Core, name: Name, after: Worker)
    requires Committed(c, c', name, after) && Replaces(c.workers[name], after)
    requires KeysOk(c) && RecordsOk(c) && CutoffOk(c)
    ensures KeysOk(c') && RecordsOk(c') && CutoffOk(c')
  {
  }

  lemma CommittedKeepsSlots(c: Core, c': Core, name: Name, after: Worker)
    requires Committed(c, c', name, after) && Replaces(c.workers[name], after)
    requires SlotsOk(c)
    ensures SlotsOk(c')
  {
    forall n | n in c'.workers
      ensures c'.workers[n].inFlight == |HeldBy(c'.dispatches, n)|
      ensures n in c'.configs ==> Within(c'.workers[n].inFlight, c'.configs[n].commandConcurrency)
    {
      assert n in c.workers && c'.workers[n].inFlight == c.workers[n].inFlight;
    }
  }

  lemma CommittedKeepsHandles(c: Core, c': Core, name: Name, after: Worker)
    requires Committed(c, c', name, after) && Replaces(c.workers[name], after)
    requires HandlesOk(c)
    ensures HandlesOk(c')
  {
    assert forall h :: Issued(c, h) ==> Issued(c', h);
  }

  lemma CommitKeeps(c: Core, c': Core, name: Name, after: Worker)
    requires UngatedOk(c) && name in c.workers && Replaces(c.workers[name], after)
    requires c' == Commit(c, name, after)
    ensures UngatedOk(c') && Committed(c, c', name, after)
  {
    CommitKeepsStatus(c, name, after);
    CommittedKeepsRecords(c, c', name, after);
    CommittedKeepsSlots(c, c', name, after);
    CommittedKeepsHandles(c, c', name, after);
  }

  // ---------------------------------------------------------------------------
  // The events of a committed record lead from the old point to the new one.

  lemma TransitionPlays(subject: Subject, about: Subject, p: Point, from: LifecycleState, to: LifecycleState)
    requires subject == about ==> p.lifecycle == from && (from != to && subject.OfWorker? ==> LegalChange(from, to))
    ensures Play(subject, p, TransitionEvents(about, from, to))
            == Some(if subject == about then p.(lifecycle := to, last := DeriveChange(from, to, p.last)) else p)
  {
    var events := TransitionEvents(about, from, to);
    if from != to {
      assert events[..|events| - 1] == [];
    }
  }

  lemma ReadinessPlays(subject: Subject, about: Subject, p: Point, before: bool, after: bool)
    requires subject == about ==> p.ready == before
    ensures Play(subject, p, ReadinessEvents(about, before,
          after)) == Some(if subject == about then p.(ready := after) else p)
  {
    var events := ReadinessEvents(about, before, after);
    if before != after {
      assert events[..|events| - 1] == [];
    }
  }

  lemma {:induction false} QuietPlays(subject: Subject, p: Point, events: seq<Event>)
    requires forall e :: e in events ==> !e.Transition? && !e.Readiness?
    ensures Play(subject, p, events) == Some(p)
  {
    if events != [] {
      QuietPlays(subject, p, events[..|events| - 1]);
    }
  }

  lemma ChangePlays(subject: Subject, p: Point, name: Name, before: Worker, after: Worker,
                    failure: seq<Event>, s: Status, s': Status)
    requires Replaces(before, after)
    requires forall e :: e in failure ==> e.Failure?
    requires s'.lastTransition == DeriveChange(s.state, s'.state, s.lastTransition)
    requires subject == OfWorker(name) ==> p == PointOf(before)
    requires subject == OfRuntime ==> p == PointOfStatus(s)
    ensures Play(subject, p, ChangeEvents(name, before, after, failure, s, s'))
         == Some(if subject == OfWorker(name) then PointOf(after)
                 else if subject == OfRuntime then PointOfStatus(s')
                 else p)
  {
    var e1 := TransitionEvents(OfWorker(name), before.lifecycle, after.lifecycle);
    var e2 := ReadinessEvents(OfWorker(name), before.ready, after.ready);
    var e4 := TransitionEvents(OfRuntime, s.state, s'.state);
    var e5 := ReadinessEvents(OfRuntime, s.ready, s'.ready);
    var p1 := if subject == OfWorker(name) then p.(lifecycle := after.lifecycle, last := after.lastTransition) else p;
    var p2 := if subject == OfWorker(name) then p1.(ready := after.ready) else p1;
    var p4 := if subject == OfRuntime then p2.(lifecycle := s'.state, last := s'.lastTransition) else p2;
    var p5 := if subject == OfRuntime then p4.(ready := s'.ready) else p4;
    TransitionPlays(subject, OfWorker(name), p, before.lifecycle, after.lifecycle);
    ReadinessPlays(subject, OfWorker(name), p1, before.ready, after.ready);
    QuietPlays(subject, p2, failure);
    TransitionPlays(subject, OfRuntime, p2, s.state, s'.state);
    ReadinessPlays(subject, OfRuntime, p4, s.ready, s'.ready);
    PlayOnto(subject, p, e1, p1, e2, p2);
    PlayOnto(subject, p, e1 + e2, p2, failure, p2);
    PlayOnto(subject, p, e1 + e2 + failure, p2, e4, p4);
    PlayOnto(subject, p, e1 + e2 + failure + e4, p4, e5, p5);
  }

  // ---------------------------------------------------------------------------
  // What a step must do: keep CoreOk, and commit events that lead to the new points.

  ghost predicate EventsFit(c: Core, o: Outcome) {
    forall subject :: Play(subject, Current(c, subject), o.events) == Some(Current(o.core, subject))
  }

  ghost predicate Faithful(c: Core, o: Outcome) {
    CoreOk(o.core) && EventsFit(c, o)
  }

  lemma UnchangedFits(c: Core, o: Outcome)
    requires o.core.workers.Keys == c.workers.Keys
    requires forall n :: n in c.workers ==>
               PointOf(o.core.workers[n]) == PointOf(c.workers[n])
    requires PointOfStatus(o.core.status) == PointOfStatus(c.status)
    requires forall e :: e in o.events ==> !e.Transition? && !e.Readiness?
    ensures EventsFit(c, o)
  {
    forall subject
      ensures Play(subject, Current(c, subject), o.events) == Some(Current(o.core, subject))
    {
      QuietPlays(subject, Current(c, subject), o.events);
    }
  }

  lemma CommittedFits(c: Core, o: Outcome, name: Name, after: Worker, failure: seq<Event>)
    requires Committed(c, o.core, name, after) && Replaces(c.workers[name], after)
    requires forall e :: e in failure ==> e.Failure?
    requires o.events == ChangeEvents(name, c.workers[name], after, failure, c.status, o.core.status)
    ensures EventsFit(c, o)
  {
    forall subject
      ensures Play(subject, Current(c, subject), o.events) == Some(Current(o.core, subject))
    {
      ChangePlays(subject, Current(c, subject), name, c.workers[name], after, failure, c.status, o.core.status);
    }
  }

  lemma ObservedKeeps(c: Core, name: Name, after: Worker, failure: seq<Event>, o: Outcome)
    requires UngatedOk(c) && name in c.workers && Replaces(c.workers[name], after)
    requires forall e :: e in failure ==> e.Failure?
    requires o == Observed(c, name, after, failure, o.result)
    ensures UngatedOk(o.core) && Committed(c, o.core, name, after) && EventsFit(c, o)
  {
    CommitKeeps(c, o.core, name, after);
    CommittedFits(c, o, name, after, failure);
  }

  /** A record that keeps its lifecycle and readiness leaves the facts as they are. */
  lemma SameFacts(ws: map<Name, Worker>, cs: map<Name, WorkerConfig>, name: Name, after: Worker)
    requires name in ws && after.lifecycle == ws[name].lifecycle && after.ready == ws[name].ready
    ensures FactsOf(ws[name := after], cs) == FactsOf(ws, cs)
    ensures AggregateState(ws[name := after], cs) == AggregateState(ws, cs)
  {
    hide Any, All, FailedUnder;
    var ws' := ws[name := after];
    assert ws'.Keys == ws.Keys;
    assert |ws'| == |ws'.Keys| == |ws.Keys| == |ws|;
    assert forall n :: n in ws <==> n in ws';
    assert forall n :: n in ws ==> ws'[n].lifecycle == ws[n].lifecycle && ws'[n].ready == ws[n].ready;
    SameLifecycles(ws, ws', cs);
    assert Contributors(ws', cs) == Contributors(ws, cs);
    assert forall n :: n in ws ==> (ServingReady(ws'[n]) <==> ServingReady(ws[n]));
  }

  lemma SameLifecycles(ws: map<Name, Worker>, ws': map<Name, Worker>, cs: map<Name, WorkerConfig>)
    requires ws.Keys == ws'.Keys
    requires forall n :: n in ws ==> ws'[n].lifecycle == ws[n].lifecycle
    ensures forall state :: Any(ws', state) == Any(ws, state) && All(ws', state) == All(ws, state)
    ensures forall policy :: FailedUnder(ws', cs, policy) == FailedUnder(ws, cs, policy)
  {
    forall policy
      ensures FailedUnder(ws', cs, policy) == FailedUnder(ws, cs, policy)
    {
      if FailedUnder(ws', cs, policy) {
        var n :| n in ws' && ws'[n].lifecycle == Failed && n in cs && cs[n].failurePolicy == policy;
        assert n in ws && ws[n].lifecycle == Failed;
      }
      if FailedUnder(ws, cs, policy) {
        var n :| n in ws && ws[n].lifecycle == Failed && n in cs && cs[n].failurePolicy == policy;
        assert n in ws' && ws'[n].lifecycle == Failed;
      }
    }
    forall state
      ensures Any(ws', state) == Any(ws, state) && All(ws', state) == All(ws, state)
    {
      if Any(ws', state) {
        var n :| n in ws' && ws'[n].lifecycle == state;
        assert n in ws && ws[n].lifecycle == state;
      }
    }
  }

  /** Deriving the status anew after such a record changes nothing in it, so a step that
      recomputes without observing hides no change. */
  lemma SilentCommit(c: Core, name: Name, after: Worker)
    requires StatusOk(c) && name in c.workers && Replaces(c.workers[name], after)
    requires after.lifecycle == c.workers[name].lifecycle && after.ready == c.workers[name].ready
    ensures Commit(c, name, after).status == c.status
  {
    hide FactsOf, AggregateState, DeriveState;
    DeriveStateStep(c.workers, c.configs, name, after);
    SameFacts(c.workers, c.configs, name, after);
    assert c.workers[name := after].Keys == c.workers.Keys;
  }

  lemma QuietKeepsStatus(c: Core, c': Core, name: Name, after: Worker)
    requires StatusOk(c) && name in c.workers
    requires after.lifecycle == c.workers[name].lifecycle && after.ready == c.workers[name].ready
    requires c'.workers == c.workers[name := after] && c'.configs == c.configs && c'.config == c.config
    requires c'.status == c.status.(inFlight := c'.status.inFlight)
    ensures StatusOk(c')
  {
    SameFacts(c.workers, c.configs, name, after);
    assert c'.workers.Keys == c.workers.Keys;
    assert |c'.workers| == |c'.workers.Keys| == |c.workers.Keys| == |c.workers|;
  }

  /** A record replaced without deriving the status. */
  lemma QuietKeeps(c: Core, c': Core, name: Name, after: Worker)
    requires UngatedOk(c) && name in c.workers && Replaces(c.workers[name], after)
    requires after.lifecycle == c.workers[name].lifecycle && after.ready == c.workers[name].ready
    requires c' == c.(workers := c.workers[name := after])
    ensures UngatedOk(c') && Committed(c, c', name, after)
  {
    QuietKeepsStatus(c, c', name, after);
    assert Committed(c, c', name, after);
    CommittedKeepsRecords(c, c', name, after);
    CommittedKeepsSlots(c, c', name, after);
    CommittedKeepsHandles(c, c', name, after);
  }

  /** The record neither enters nor leaves starting and stopping. */
  lemma GateUnmoved(c: Core, c': Core, name: Name, after: Worker)
    requires GateOk(c) && Committed(c, c', name, after)
    requires after.generation == c.workers[name].generation
    requires after.lifecycle == Starting <==> c.workers[name].lifecycle == Starting
    requires after.lifecycle == Stopping <==> c.workers[name].lifecycle == Stopping
    ensures GateOk(c')
  {
  }

  /** The gate holder takes the record into starting or stopping. */
  lemma GateBegun(c: Core, c': Core, name: Name, after: Worker, activity: Activity)
    requires GateOk(c) && AtRest(c) && Committed(c, c', name, after)
    requires (after.lifecycle == Starting && activity == StartingWorker(name, after.generation))
          || (after.lifecycle == Stopping && activity == StoppingWorker(name, after.generation))
    ensures GateOk(c'.(gate := c'.gate.(activity := activity, call := NotCalled)))
  {
  }

  /** The gate holder takes the record out of starting or stopping. */
  lemma GateFinished(c: Core, c': Core, name: Name, after: Worker)
    requires GateOk(c) && Busy(c) && name == c.gate.activity.name && Committed(c, c', name, after)
    requires after.lifecycle != Starting && after.lifecycle != Stopping
    ensures GateOk(c'.(gate := c'.gate.(activity := Idle, call := NotCalled)))
  {
  }

  // ---------------------------------------------------------------------------
  // The steps, one kind after the other.

  /** Registration is only open while all workers are registered, and leaves the runtime
      registered and unready. */
  lemma RegisteredKeepsStatus(c: Core, name: Name, config: WorkerConfig)
    requires KeysOk(c) && StatusOk(c) && RegisterWorker(c, name, config).result == Done
    ensures var c' := RegisterWorker(c, name, config).core;
            StatusOk(c') && c'.status.state == c.status.state && c'.status.ready == c.status.ready
            && c'.status.inFlight == c.status.inFlight
  {
    hide FactsOf, DeriveState, AggregateState, KeysOk;
    var ws, ws' := c.workers, c.workers[name := NewWorker];
    var cs' := c.configs[name := config];
    RegisteredMeansAll(ws, c.configs);
    AllRegistered(ws, c.configs);
    assert All(ws', Registered);
    AllRegistered(ws', cs');
    assert name in ws';
    DeriveStateHistory(ws', cs', Registered);
    assert !MixedInactive(ws') by { MixedMeansNeitherAll(ws'); }
  }

  lemma RegisteredMeansAll(ws: map<Name, Worker>, cs: map<Name, WorkerConfig>)
    requires AggregateState(ws, cs) == Registered
    ensures All(ws, Registered)
  {
  }

  lemma AllRegistered(ws: map<Name, Worker>, cs: map<Name, WorkerConfig>)
    requires All(ws, Registered)
    ensures AggregateState(ws, cs) == Registered
    ensures forall policy :: !AggregateReady(ws, cs, policy)
  {
    assert forall n :: n in Contributors(ws, cs) ==> !ServingReady(ws[n]);
    assert NothingActive(ws);
    if |ws| > 0 {
      var n :| n in ws;
      assert !ServingReady(ws[n]);
    }
    if |Contributors(ws, cs)| > 0 {
      var n :| n in Contributors(ws, cs);
      assert !ServingReady(ws[n]);
    }
  }

  /** c' is c with one more, newly registered worker. */
  ghost predicate Registered1(c: Core, c': Core, name: Name, config: WorkerConfig) {
    && name !in c.configs
    && c' == c.(order := c.order + [name], workers := c.workers[name := NewWorker],
                configs := c.configs[name := config], status := c'.status)
    && c'.status.inFlight == c.status.inFlight
    && c'.status.state == c.status.state
    && c'.status.ready == c.status.ready
    && c'.status.lastTransition == c.status.lastTransition
  }

  lemma RegisteredKeepsRecords(c: Core, c': Core, name: Name, config: WorkerConfig)
    requires KeysOk(c) && RecordsOk(c) && CutoffOk(c) && Registered1(c, c', name, config)
    ensures KeysOk(c') && RecordsOk(c') && CutoffOk(c')
  {
    assert RecordOk(NewWorker);
    hide RecordOk;
  }

  lemma RegisteredKeepsGate(c: Core, c': Core, name: Name, config: WorkerConfig)
    requires KeysOk(c) && GateOk(c) && AtRest(c) && Registered1(c, c', name, config)
    ensures GateOk(c')
  {
  }

  lemma RegisteredKeepsSlots(c: Core, c': Core, name: Name, config: WorkerConfig)
    requires KeysOk(c) && SlotsOk(c) && HandlesOk(c) && Registered1(c, c', name, config)
    ensures SlotsOk(c') && HandlesOk(c')
  {
    assert forall id :: id in c.dispatches ==> Issued(c, c.dispatches[id]);
    assert HeldBy(c.dispatches, name) == {};
    assert forall h :: Issued(c, h) ==> Issued(c', h);
    forall n | n in c'.workers
      ensures c'.workers[n].inFlight == |HeldBy(c'.dispatches, n)|
      ensures n in c'.configs ==> Within(c'.workers[n].inFlight, c'.configs[n].commandConcurrency)
    {
      if n != name {
        assert n in c.workers && n in c.configs;
      }
    }
  }

  lemma RegisteredFits(c: Core, o: Outcome, name: Name, config: WorkerConfig)
    requires KeysOk(c) && Registered1(c, o.core, name, config) && o.events == []
    ensures EventsFit(c, o)
  {
    forall subject
      ensures Play(subject, Current(c, subject), o.events) == Some(Current(o.core, subject))
    {
      assert Current(o.core, subject) == Current(c, subject);
    }
  }

  lemma RegisterKeeps(c: Core, name: Name, config: WorkerConfig)
    requires CoreOk(c) && AtRest(c)
    ensures Faithful(c, RegisterWorker(c, name, config))
  {
    hide KeysOk, RecordsOk, GateOk, CutoffOk, StatusOk, SlotsOk, HandlesOk, EventsFit, FactsOf, DeriveState,
         DeriveReady;
    var o := RegisterWorker(c, name, config);
    if o.result == Done {
      RegisteredKeepsStatus(c, name, config);
      RegisteredKeeps(c, o, name, config);
    } else {
      UnchangedFits(c, o);
    }
  }

  lemma RegisteredKeeps(c: Core, o: Outcome, name: Name, config: WorkerConfig)
    requires CoreOk(c) && AtRest(c) && Registered1(c, o.core, name, config) && StatusOk(o.core) && o.events == []
    ensures Faithful(c, o)
  {
    hide KeysOk, RecordsOk, GateOk, CutoffOk, StatusOk, SlotsOk, HandlesOk, EventsFit;
    RegisteredKeepsRecords(c, o.core, name, config);
    RegisteredKeepsGate(c, o.core, name, config);
    RegisteredKeepsSlots(c, o.core, name, config);
    RegisteredFits(c, o, name, config);
  }
}
