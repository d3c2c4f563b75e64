/** What every step of a lifecycle operation on one worker leaves alone. */
module OperationSteps {
  import opened Basics
  import opened Lifecycle
  import opened RuntimeSteps

  /** Steps an operation takes on one worker. */
  predicate IsOperationStep(l: Label) {
    l.BeginStart? || l.BeginStop? || l.BeginDrain? || l.CallStart? || l.CallStop? || l.Answer? || l.RecordFailure?
    || l.CompleteStart? || l.CompleteStop? || l.FailOperation? || l.FailCleanup?
  }

  /** The worker such a step is on. */
  function OperatesOn(c: Core, l: Label): Name
    requires Enabled(c, l) && IsOperationStep(l)
  {
    if l.BeginStart? || l.BeginStop? || l.BeginDrain? then l.name else c.gate.activity.name
  }

  /** At most one record is replaced, by one of no older generation and the same in-flight
      count. */
  ghost predicate OneRecord(ws: map<Name, Worker>, ws': map<Name, Worker>, n: Name) {
    || ws' == ws
    || (n in ws && n in ws' && ws' == ws[n := ws'[n]]
        && ws[n].generation <= ws'[n].generation && ws[n].inFlight == ws'[n].inFlight)
  }

  /** The step touched the record of one worker, the aggregate status and the gate, and may have
      handed out a handle; it called no Stop. */
  ghost predicate Operated(c: Core, o: Outcome, n: Name) {
    var c' := o.core;
    && c' == c.(workers := c'.workers, status := c'.status, gate := c'.gate, handles := c'.handles)
    && c.handles <= c'.handles
    && c.gate.Held? && c'.gate.Held? && c'.gate.cutoff == c.gate.cutoff
    && c'.status.inFlight == c.status.inFlight
    && OneRecord(c.workers, c'.workers, n)
  }

  ghost predicate CallsNoStop(o: Outcome) {
    forall e :: e in o.events ==> !e.StopCalled?
  }

  lemma BeginStartOperates(c: Core, name: Name)
    requires AtRest(c)
    ensures Operated(c, Apply(c, BeginStart(name)), name) && CallsNoStop(Apply(c, BeginStart(name)))
  {
    hide Observed;
  }

  lemma BeginStopOperates(c: Core, name: Name)
    requires AtRest(c)
    ensures Operated(c, Apply(c, BeginStop(name)), name) && CallsNoStop(Apply(c, BeginStop(name)))
  {
    hide Observed;
  }

  lemma BeginDrainOperates(c: Core, name: Name)
    requires AtRest(c)
    ensures Operated(c, Apply(c, BeginDrain(name)), name) && CallsNoStop(Apply(c, BeginDrain(name)))
  {
    hide Observed, Commit;
  }

  lemma CallOperates(c: Core, l: Label)
    requires Enabled(c, l) && (l.CallStart? || l.CallStop? || l.Answer? || l.RecordFailure?)
    ensures Operated(c, Apply(c, l), c.gate.activity.name) && (!l.CallStop? ==> CallsNoStop(Apply(c, l)))
  {
  }

  lemma CompleteStartOperates(c: Core)
    requires Enabled(c, CompleteStart)
    ensures Operated(c, Apply(c, CompleteStart), c.gate.activity.name) && CallsNoStop(Apply(c, CompleteStart))
  {
    hide Observed;
  }

  lemma CompleteStopOperates(c: Core)
    requires Enabled(c, CompleteStop)
    ensures Operated(c, Apply(c, CompleteStop), c.gate.activity.name) && CallsNoStop(Apply(c, CompleteStop))
  {
    hide Observed;
  }

  lemma FailOperationOperates(c: Core, err: Error, panicked: bool)
    requires Enabled(c, FailOperation(err, panicked))
    ensures var o := Apply(c, FailOperation(err, panicked)); Operated(c, o, c.gate.activity.name) && CallsNoStop(o)
  {
    hide Observed;
  }

  lemma FailCleanupOperates(c: Core, err: Error)
    requires Enabled(c, FailCleanup(err))
    ensures var o := Apply(c, FailCleanup(err)); Operated(c, o, c.gate.activity.name) && CallsNoStop(o)
  {
    hide Observed;
  }

  /** Every step of an operation. */
  lemma StepOperates(c: Core, l: Label)
    requires Enabled(c, l) && IsOperationStep(l)
    ensures Operated(c, Apply(c, l), OperatesOn(c, l)) && (!l.CallStop? ==> CallsNoStop(Apply(c, l)))
  {
    hide Apply, Operated, CallsNoStop;
    match l
    case BeginStart(name) => BeginStartOperates(c, name);
    case BeginStop(name) => BeginStopOperates(c, name);
    case BeginDrain(name) => BeginDrainOperates(c, name);
    case CallStart | CallStop | Answer(_) | RecordFailure(_) => CallOperates(c, l);
    case CompleteStart => CompleteStartOperates(c);
    case CompleteStop => CompleteStopOperates(c);
    case FailOperation(err, panicked) => FailOperationOperates(c, err, panicked);
    case FailCleanup(err) => FailCleanupOperates(c, err);
  }
}
