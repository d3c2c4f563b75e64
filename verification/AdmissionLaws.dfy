/** When a command is admitted, when it is refused and why, said of the worker records and
    configurations alone. */
module AdmissionLaws {
  import opened Lifecycle
  import opened RuntimeSteps
  import opened RuntimeTheorems
  import opened StatusLaws

  /** The runtime as a whole takes commands: no bulk operation closed admission, no failure
      fails the runtime, and some worker is between its first start and its stop. */
  ghost predicate TakesCommands(c: Core) {
    && !c.admissionClosed
    && !SomeFailedUnder(c, FailRuntime)
    && (|| Some1(c, Starting) || Some1(c, Running) || Some1(c, Draining) || Some1(c, Stopping)
        || (Some1(c, Registered) && Some1(c, Stopped) && !Some1(c, Failed)))
  }

  predicate RuntimeFull(c: Core) {
    c.config.commandConcurrency > 0 && c.status.inFlight >= c.config.commandConcurrency
  }

  predicate WorkerFull(c: Core, name: Name)
    requires name in c.workers
  {
    name in c.configs && c.configs[name].commandConcurrency > 0
    && c.workers[name].inFlight >= c.configs[name].commandConcurrency
  }

  lemma TakesExactly(s: System)
    requires Reachable(s)
    ensures TakesCommands(s.core) <==> !s.core.admissionClosed && s.core.status.state !in {Failed, Stopped, Registered}
  {
    hide Reachable, SomeFailedUnder;
    StateExactly(s);
    var c := s.core;
    if c.workers != map[] {
      var n :| n in c.workers;
      assert Some1(c, c.workers[n].lifecycle);
    }
    assert Some1(c, Stopped) ==> exists n :: n in c.workers && c.workers[n].lifecycle != Registered;
    assert Some1(c, Registered) ==> exists n :: n in c.workers && c.workers[n].lifecycle != Stopped;
  }

  /** The answer to a request for admission, each exactly when. A refusal takes nothing; an
      admitted command holds one slot of the runtime and of the worker, under the worker's
      current generation. */
  lemma AdmissionDecision(s: System, id: nat, name: Name)
    requires Reachable(s) && Enabled(s.core, Admit(id, name))
    ensures var c, t, result := s.core, Next(s, Admit(id, name)), Apply(s.core, Admit(id, name)).result;
            var running := name in c.workers && c.workers[name].lifecycle == Running;
            var accepting := TakesCommands(c) && running && c.workers[name].acceptingWork;
            && (result == RuntimeNotAccepting <==> !TakesCommands(c))
            && (result == NotFound <==> TakesCommands(c) && name !in c.workers)
            && (result == InvalidState <==> TakesCommands(c) && name in c.workers && !running)
            && (result == WorkerNotAccepting <==> TakesCommands(c) && running && !c.workers[name].acceptingWork)
            && (result == RuntimeSaturated <==> accepting && RuntimeFull(c))
            && (result == WorkerSaturated <==> accepting && !RuntimeFull(c) && WorkerFull(c, name))
            && (result.Began? <==> accepting && !RuntimeFull(c) && !WorkerFull(c, name))
            && t.log == s.log
            && if result.Began? then
                 var w := c.workers[name];
                 && result.generation == w.generation
                 && t.core == c.(pending := c.pending - {id}, replies := c.replies - {id},
                                 workers := c.workers[name := w.(inFlight := w.inFlight + 1)],
                                 status := c.status.(inFlight := c.status.inFlight + 1),
                                 dispatches := c.dispatches[id := Handle(name, w.generation)])
               else t.core == c.(pending := c.pending - {id}, replies := c.replies - {id})
  {
    hide Reachable, TakesCommands, AdmitCommand;
    TakesExactly(s);
    AdmitEffect(s.core.(pending := s.core.pending - {id}, replies := s.core.replies - {id}), id, name);
    AdmitAnswer(s.core.(pending := s.core.pending - {id}, replies := s.core.replies - {id}), id, name);
    assert s.log + [] == s.log;
  }

  lemma AdmitAnswer(c: Core, id: nat, name: Name)
    ensures var result := AdmitCommand(c, id, name).result;
            var open := !c.admissionClosed && c.status.state !in {Failed, Stopped, Registered};
            var running := name in c.workers && c.workers[name].lifecycle == Running;
            && (result == RuntimeNotAccepting <==> !open)
            && (result == NotFound <==> open && name !in c.workers)
            && (result == InvalidState <==> open && name in c.workers && !running)
            && (result == WorkerNotAccepting <==> open && running && !c.workers[name].acceptingWork)
            && (result == RuntimeSaturated <==> open && running && c.workers[name].acceptingWork && RuntimeFull(c))
            && (result == WorkerSaturated <==>
                  open && running && c.workers[name].acceptingWork && !RuntimeFull(c) && WorkerFull(c, name))
            && (result.Began? <==>
                  open && running && c.workers[name].acceptingWork && !RuntimeFull(c) && !WorkerFull(c, name))
  {
  }

  lemma AdmitEffect(c: Core, id: nat, name: Name)
    ensures var o := AdmitCommand(c, id, name);
            && o.events == []
            && if o.result.Began? then
                 && name in c.workers
                 && var w := c.workers[name];
                 && o.result.generation == w.generation
                 && o.core == c.(workers := c.workers[name := w.(inFlight := w.inFlight + 1)],
                                 status := c.status.(inFlight := c.status.inFlight + 1),
                                 dispatches := c.dispatches[id := Handle(name, w.generation)])
               else o.core == c
  {
  }

  /** What was the case where a command was refused for this reason. */
  ghost predicate Refuses(c: Core, name: Name, why: Result) {
    match why
    case RuntimeNotAccepting => !TakesCommands(c)
    case NotFound => TakesCommands(c) && name !in c.workers
    case InvalidState => TakesCommands(c) && name in c.workers && c.workers[name].lifecycle != Running
    case WorkerNotAccepting =>
      && TakesCommands(c) && name in c.workers && c.workers[name].lifecycle == Running
      && !c.workers[name].acceptingWork
    case RuntimeSaturated =>
      && TakesCommands(c) && name in c.workers && c.workers[name].lifecycle == Running
      && c.workers[name].acceptingWork && RuntimeFull(c)
    case WorkerSaturated =>
      && TakesCommands(c) && name in c.workers && c.workers[name].lifecycle == Running
      && c.workers[name].acceptingWork && !RuntimeFull(c) && WorkerFull(c, name)
    case _ => false
  }

  /** What was the case where a command was admitted. */
  ghost predicate Admits(c: Core, name: Name, generation: nat) {
    && TakesCommands(c) && name in c.workers && c.workers[name].lifecycle == Running
    && c.workers[name].acceptingWork && !RuntimeFull(c) && !WorkerFull(c, name)
    && c.workers[name].generation == generation
  }

  lemma AdmissionAnswers(s: System, id: nat, name: Name)
    requires Reachable(s) && Enabled(s.core, Admit(id, name))
    ensures var result := Apply(s.core, Admit(id, name)).result;
            if result.Began? then Admits(s.core, name, result.generation) else Refuses(s.core, name, result)
  {
    hide Reachable, TakesCommands, RuntimeFull, WorkerFull;
    AdmissionDecision(s, id, name);
  }
}
