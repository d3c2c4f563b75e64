/** Several lifecycle operations in a row: which calls of worker code the log shows, in which
    order, what they came back with, and what follows from that for the sequence. */
module CallSequences {
  import opened Basics
  import opened Lifecycle
  import opened RuntimeSteps
  import opened Milestones
  import opened LifecycleOperations

  // ---------------------------------------------------------------------------
  // Stops.

  /** The workers of the list that may be stopped, last one first. */
  function StoppableReversed(order: seq<Name>, ws: map<Name, Worker>): seq<Name> {
    if order == [] then []
    else
      StoppableReversed(order[1..], ws) +
      if order[0] in ws && Stoppable(ws[order[0]].lifecycle) then [order[0]] else []
  }

  lemma {:induction false} StoppableMembers(order: seq<Name>, ws: map<Name, Worker>, n: Name)
    ensures n in StoppableReversed(order, ws) <==> n in order && n in ws && Stoppable(ws[n].lifecycle)
    ensures n in StoppableReversed(order, ws) <==>
              n in order && n in ws && ws[n].lifecycle in {Running, Draining, Failed}
  {
    if order != [] {
      StoppableMembers(order[1..], ws, n);
      assert order == [order[0]] + order[1..];
    }
  }

  /** The workers of a tail are those that come first. */
  lemma {:induction false} StoppableOfTail(order: seq<Name>, ws: map<Name, Worker>, k: nat)
    requires k <= |order|
    ensures StoppableReversed(order[k..], ws) <= StoppableReversed(order, ws)
  {
    if k == 0 {
      assert order[0..] == order;
    } else {
      StoppableOfTail(order[1..], ws, k - 1);
      assert order[1..][k - 1..] == order[k..];
    }
  }

  /** The milestones of one Stop call on each of the workers, in this order. */
  ghost predicate StopTrace(names: seq<Name>, calls: seq<CallOutcome>, trace: seq<Event>)
    decreases |names|
  {
    var n := |names| - 1;
    && |calls| == |names|
    && if names == [] then trace == []
       else
         && |trace| >= 2 && trace[|trace| - 2].StopCalled? && trace[|trace| - 2].worker == names[n]
         && trace[|trace| - 1] == CallReturned(names[n], calls[n])
         && StopTrace(names[..n], calls[..n], trace[..|trace| - 2])
  }

  /** The milestones since s are those of one Stop call on each of the workers. */
  ghost predicate StopsMade(s: System, t: System, names: seq<Name>, calls: seq<CallOutcome>) {
    s.log <= t.log && StopTrace(names, calls, MilestonesSince(s, t))
  }

  lemma NoStopsMade(s: System, t: System)
    requires Passed(s, t, [])
    ensures StopsMade(s, t, [], [])
  {
  }

  lemma OneMoreStop(s: System, m: System, t: System, names: seq<Name>, calls: seq<CallOutcome>,
                    name: Name, generation: nat, call: CallOutcome, trace: seq<Event>)
    requires StopsMade(s, m, names, calls)
    requires Passed(m, t, trace) && StopCall(name, generation, call, trace)
    ensures StopsMade(s, t, names + [name], calls + [call])
  {
    hide MilestonesSince;
    var before := MilestonesSince(s, m);
    PassedOn(s, m, t, before, trace);
    assert (before + trace)[..|before + trace| - 2] == before;
    assert (names + [name])[..|names|] == names && (calls + [call])[..|names|] == calls;
  }

  lemma StopsMadeBefore(a: System, b: System, c: System, names: seq<Name>, calls: seq<CallOutcome>)
    requires Passed(a, b, []) && StopsMade(b, c, names, calls)
    ensures StopsMade(a, c, names, calls)
  {
    hide StopTrace, MilestonesSince;
    PassedOn(a, b, c, [], MilestonesSince(b, c));
    assert [] + MilestonesSince(b, c) == MilestonesSince(b, c);
  }

  /** The call panicked, and the panic is re-raised. */
  predicate Crashes(configs: map<Name, WorkerConfig>, name: Name, call: CallOutcome) {
    name in configs && configs[name].panicPolicy == Crash && call.Panicked?
  }

  ghost predicate NoneCrashed(configs: map<Name, WorkerConfig>, names: seq<Name>, calls: seq<CallOutcome>) {
    |calls| == |names| && forall k :: 0 <= k < |calls| ==> !Crashes(configs, names[k], calls[k])
  }

  /** The last call crashed, and no other did. */
  ghost predicate LastCrashed(configs: map<Name, WorkerConfig>, names: seq<Name>, calls: seq<CallOutcome>) {
    var n := |calls| - 1;
    && n >= 0 && |names| == |calls| && Crashes(configs, names[n], calls[n])
    && NoneCrashed(configs, names[..n], calls[..n])
  }

  lemma NoneCrashedOneMore(configs: map<Name, WorkerConfig>, names: seq<Name>, calls: seq<CallOutcome>,
                           name: Name, call: CallOutcome)
    requires NoneCrashed(configs, names, calls)
    ensures if Crashes(configs, name, call) then LastCrashed(configs, names + [name], calls + [call])
            else NoneCrashed(configs, names + [name], calls + [call])
  {
    assert (names + [name])[..|names|] == names && (calls + [call])[..|names|] == calls;
  }

  /** The errors of the calls that came back with one, or panicked, in order. */
  function StopErrors(calls: seq<CallOutcome>): seq<Error> {
    if calls == [] then []
    else
      StopErrors(calls[..|calls| - 1]) +
      match calls[|calls| - 1]
      case Returned(None) => []
      case Returned(Some(err)) => [err]
      case Panicked(id) => [RecoveredPanic(id)]
  }

  lemma OneMoreError(calls: seq<CallOutcome>, cfg: WorkerConfig, call: CallOutcome, res: Completion)
    requires StopDecided(cfg, call, res) && !res.Crashed? && !res.Rejected?
    ensures StopErrors(calls + [call]) == StopErrors(calls) + if res.Failing? then [res.err] else []
  {
    assert (calls + [call])[..|calls|] == calls;
  }

  /** Where in the list the error of a call stands; a call without one adds none. */
  lemma {:induction false} StopErrorAt(calls: seq<CallOutcome>, k: nat)
    requires k < |calls|
    ensures var before, all := StopErrors(calls[..k]), StopErrors(calls);
            match calls[k]
            case Returned(None) => StopErrors(calls[..k + 1]) == before <= all
            case Returned(Some(err)) => before + [err] == StopErrors(calls[..k + 1]) <= all
            case Panicked(id) => before + [RecoveredPanic(id)] == StopErrors(calls[..k + 1]) <= all
  {
    var n := |calls| - 1;
    assert calls[..n + 1] == calls;
    if k < n {
      StopErrorAt(calls[..n], k);
      assert calls[..n][..k] == calls[..k] && calls[..n][..k + 1] == calls[..k + 1];
    }
  }

  /** The last milestone since s is a call of worker code that panicked, of a worker whose
      panics are re-raised. */
  ghost predicate PanicLogged(s: System, t: System) {
    && s.log <= t.log
    && var trace := MilestonesSince(s, t);
       && trace != [] && trace[|trace| - 1].CallReturned?
       && Crashes(s.core.configs, trace[|trace| - 1].worker, trace[|trace| - 1].outcome)
  }

  lemma CrashIsLogged(s: System, t: System, names: seq<Name>, calls: seq<CallOutcome>)
    requires StopsMade(s, t, names, calls) && LastCrashed(s.core.configs, names, calls)
    ensures PanicLogged(s, t)
  {
  }

  lemma LoggedBefore(a: System, b: System, c: System)
    requires a.log <= b.log && b.core.configs == a.core.configs && PanicLogged(b, c)
    ensures PanicLogged(a, c)
  {
    hide MilestonesSince;
    PassedOn(a, b, c, MilestonesSince(a, b), MilestonesSince(b, c));
  }

  // ---------------------------------------------------------------------------
  // Starts.

  /** One Start of a worker: its calls of Worker.Start, and whether the worker entered service. */
  datatype StartRun = StartRun(name: Name, generation: nat, calls: seq<CallOutcome>, served: bool)

  function RunTrace(run: StartRun): seq<Event> {
    StartCalls(run.name, run.generation, run.calls) +
    if run.served then [Transition(OfWorker(run.name), Starting, Running)] else []
  }

  /** The milestones of the Starts, in this order. */
  function StartTrace(runs: seq<StartRun>): seq<Event> {
    if runs == [] then [] else StartTrace(runs[..|runs| - 1]) + RunTrace(runs[|runs| - 1])
  }

  /** The workers of the list that may be started. */
  function StartableIn(order: seq<Name>, ws: map<Name, Worker>): seq<Name> {
    if order == [] then []
    else
      var last := order[|order| - 1];
      StartableIn(order[..|order| - 1], ws) + if last in ws && Startable(ws[last].lifecycle) then [last] else []
  }

  lemma StartableCons(order: seq<Name>, name: Name, ws: map<Name, Worker>)
    requires name in ws
    ensures StartableIn(order + [name], ws)
         == if Startable(ws[name].lifecycle) then StartableIn(order, ws) + [name] else StartableIn(order, ws)
  {
    assert (order + [name])[..|order|] == order;
    assert StartableIn(order, ws) + [] == StartableIn(order, ws);
  }

  lemma {:induction false} StartableMembers(order: seq<Name>, ws: map<Name, Worker>, n: Name)
    ensures n in StartableIn(order, ws) <==> n in order && n in ws && ws[n].lifecycle in {Registered, Stopped, Failed}
  {
    if order != [] {
      StartableMembers(order[..|order| - 1], ws, n);
      assert order == order[..|order| - 1] + [order[|order| - 1]];
    }
  }

  /** The workers of a head are those that come first. */
  lemma {:induction false} StartableOfHead(order: seq<Name>, ws: map<Name, Worker>, k: nat)
    requires k <= |order|
    ensures StartableIn(order[..k], ws) <= StartableIn(order, ws)
  {
    if k == |order| {
      assert order[..k] == order;
    } else {
      StartableOfHead(order[..|order| - 1], ws, k);
      assert order[..|order| - 1][..k] == order[..k];
    }
  }

  /** The Start was of this worker, in its next generation, and its calls decided this end. */
  ghost predicate RunDecided(c: Core, run: StartRun, name: Name, res: Completion) {
    && run.name == name && name in c.workers && name in c.configs
    && run.generation == c.workers[name].generation + 1
    && StartDecided(c.configs[name], run.calls, res)
  }

  /** The milestones since s are those of one Start of each of the workers, in this order; all
      finished but the last, which ended like this. */
  ghost predicate StartsMade(s: System, t: System, names: seq<Name>, runs: seq<StartRun>, last: Completion) {
    && |runs| == |names| && Passed(s, t, StartTrace(runs))
    && forall k :: 0 <= k < |runs| ==>
         RunDecided(s.core, runs[k], names[k], if k == |runs| - 1 then last else Finished)
  }

  lemma NoStartsMade(s: System)
    ensures StartsMade(s, s, [], [], Finished)
  {
  }

  lemma OneMoreStart(s: System, m: System, t: System, names: seq<Name>, runs: seq<StartRun>, name: Name,
                     run: StartRun, res: Completion)
    requires StartsMade(s, m, names, runs, Finished)
    requires Passed(m, t, RunTrace(run)) && RunDecided(s.core, run, name, res)
    ensures StartsMade(s, t, names + [name], runs + [run], res)
  {
    hide Passed, RunDecided;
    PassedOn(s, m, t, StartTrace(runs), RunTrace(run));
    assert (runs + [run])[..|runs|] == runs;
    assert forall k :: 0 <= k < |runs| ==> RunDecided(s.core, (runs + [run])[k], (names + [name])[k], Finished) by {
      forall k | 0 <= k < |runs|
        ensures RunDecided(s.core, (runs + [run])[k], (names + [name])[k], Finished)
      {
        assert RunDecided(s.core, runs[k], names[k], Finished);
      }
    }
  }

  lemma {:induction false} LastStartCall(run: StartRun)
    requires run.calls != [] && !run.served
    ensures RunTrace(run) != []
    ensures RunTrace(run)[|RunTrace(run)| - 1] == CallReturned(run.name, run.calls[|run.calls| - 1])
  {
  }

  /** A sequence of Starts left by a re-raised panic. */
  lemma StartCrashIsLogged(s: System, t: System, names: seq<Name>, runs: seq<StartRun>)
    requires StartsMade(s, t, names, runs, Crashed) && runs != [] && !runs[|runs| - 1].served
    ensures PanicLogged(s, t)
  {
    var run := runs[|runs| - 1];
    assert RunDecided(s.core, run, names[|runs| - 1], Crashed);
    LastStartCall(run);
  }
}
