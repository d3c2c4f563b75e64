/** What a lifecycle operation, with others stepping in between, leaves unchanged. */
module OperationEffects {
  import opened Lifecycle
  import opened EventLog
  import opened RuntimeSteps
  import opened RuntimeInvariant
  import opened Interference
  import opened RuntimeTheorems
  import opened OperationSteps
  import opened RuntimeResults

  ghost predicate HeldFrame(c: Core, c': Core) {
    && c'.config == c.config && c'.order == c.order && c'.configs == c.configs
    && c'.admissionClosed == c.admissionClosed
    && c.gate.Held? && c'.gate.Held? && c'.gate.cutoff == c.gate.cutoff
  }

  /** Workers other than the touched ones only changed as free steps change them. */
  ghost predicate WorkersKept(c: Core, c': Core, touched: set<Name>) {
    && c'.workers.Keys == c.workers.Keys
    && (forall n :: n in c.workers && n !in touched ==> FreeChange(c.workers[n], c'.workers[n]))
    && (c.admissionClosed ==>
          && c'.status.inFlight <= c.status.inFlight
          && forall n :: n in c.workers ==> c'.workers[n].inFlight <= c.workers[n].inFlight)
  }

  ghost predicate CallIsIdle(e: Event) {
    e.StopCalled? ==> e.runtimeInFlight == 0 && e.workerInFlight == 0
  }

  /** The log grew by calls of Stop on the given workers, in that order; if admission was
      closed and the runtime idle to begin with, each call found runtime and worker idle. */
  ghost predicate StopsCalled(s: System, t: System, stops: seq<Name>) {
    && s.log <= t.log
    && StopCalls(t.log) == StopCalls(s.log) + stops
    && (s.core.admissionClosed && s.core.status.inFlight <= 0 ==> forall e :: e in t.log[|s.log|..] ==> CallIsIdle(e))
  }

  ghost predicate Effect(s: System, t: System, touched: set<Name>, stops: seq<Name>) {
    HeldFrame(s.core, t.core) && WorkersKept(s.core, t.core, touched) && StopsCalled(s, t, stops)
  }

  lemma {:induction false} NoStopCalls(events: seq<Event>)
    requires forall e :: e in events ==> !e.StopCalled?
    ensures StopCalls(events) == []
  {
    if events != [] {
      NoStopCalls(events[..|events| - 1]);
    }
  }

  lemma EventsStop(s: System, t: System, events: seq<Event>)
    requires t.log == s.log + events && forall e :: e in events ==> !e.StopCalled?
    ensures StopsCalled(s, t, [])
  {
    NoStopCalls(events);
    StopCallsConcat(s.log, events);
    assert t.log[|s.log|..] == events;
  }

  lemma RelyEffect(s: System, t: System)
    requires Rely(s, t) && s.core.gate.Held?
    ensures Effect(s, t, {}, [])
  {
    hide StopsCalled;
    var events := t.log[|s.log|..];
    assert t.log == s.log + events;
    EventsStop(s, t, events);
  }

  lemma EffectWorkers(a: Core, b: Core, c: Core, touched: set<Name>, more: set<Name>)
    requires HeldFrame(a, b) && WorkersKept(a, b, touched) && WorkersKept(b, c, more)
    ensures WorkersKept(a, c, touched + more)
  {
  }

  lemma EffectStops(a: System, b: System, c: System, stops: seq<Name>, more: seq<Name>)
    requires StopsCalled(a, b, stops) && StopsCalled(b, c, more)
    requires a.core.admissionClosed ==> b.core.admissionClosed && b.core.status.inFlight <= a.core.status.inFlight
    ensures StopsCalled(a, c, stops + more)
  {
    assert c.log[|a.log|..] == b.log[|a.log|..] + c.log[|b.log|..];
    assert StopCalls(a.log) + stops + more == StopCalls(a.log) + (stops + more);
  }

  lemma EffectTransitive(a: System, b: System, c: System, touched: set<Name>, more: set<Name>, stops: seq<Name>,
        calls: seq<Name>)
    requires Effect(a, b, touched, stops) && Effect(b, c, more, calls)
    ensures Effect(a, c, touched + more, stops + calls)
  {
    EffectWorkers(a.core, b.core, c.core, touched, more);
    EffectStops(a, b, c, stops, calls);
  }

  lemma EffectItself(s: System)
    requires s.core.gate.Held?
    ensures Effect(s, s, {}, [])
  {
    EventsStop(s, s, []);
    hide StopsCalled;
  }

  lemma EffectWidens(s: System, t: System, touched: set<Name>, wider: set<Name>, stops: seq<Name>)
    requires Effect(s, t, touched, stops) && touched <= wider
    ensures Effect(s, t, wider, stops)
  {
    hide StopsCalled;
  }

  lemma TouchedWorkersKept(c: Core, c': Core, n: Name)
    requires GrowsAtMost(c, c', n) && SameCounters(c, c') && n in c.workers
    ensures WorkersKept(c, c', {n})
  {
    assert c'.workers.Keys == c.workers.Keys;
  }

  lemma CallStopStops(s: System, t: System)
    requires Enabled(s.core, CallStop) && t == Next(s, CallStop)
    requires Reachable(s)
    ensures StopsCalled(s, t, [s.core.gate.activity.name])
  {
    hide Reachable, Inv, CoreOk;
    ReachableInv(s);
    InvCore(s);
    var c := s.core;
    var e := StopCalled(c.gate.activity.name, c.gate.activity.generation, c.status.inFlight,
          c.workers[c.gate.activity.name].inFlight);
    StopCallsConcat(s.log, [e]);
    assert [e][..|[e]| - 1] == [];
    assert StopCalls([e]) == [e.worker];
    assert (s.log + [e])[|s.log|..] == [e];
    if c.status.inFlight <= 0 {
      IdleWorkers(c, c.gate.activity.name);
    }
  }

  lemma OperatedFrame(c: Core, o: Outcome, n: Name)
    requires Operated(c, o, n)
    ensures HeldFrame(c, o.core)
  {
  }

  /** One step of an operation. */
  lemma StepEffect(s: System, l: Label)
    requires Reachable(s) && Enabled(s.core, l) && IsOperationStep(l)
    requires OperatesOn(s.core, l) in s.core.workers
    ensures Effect(s, Next(s, l), {OperatesOn(s.core, l)}, if l.CallStop? then [s.core.gate.activity.name] else [])
  {
    hide Reachable, Apply, StopsCalled, WorkersKept, HeldFrame, GrowsAtMost, SameCounters, Operated, Enabled;
    var c, o := s.core, Apply(s.core, l);
    StepOperates(c, l);
    OperatedFrame(c, o, OperatesOn(c, l));
    OperationGrows(c, l);
    TouchedWorkersKept(c, o.core, OperatesOn(c, l));
    if l.CallStop? {
      CallStopStops(s, Next(s, l));
    } else {
      EventsStop(s, Next(s, l), o.events);
    }
  }
}
