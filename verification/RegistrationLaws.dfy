/** Registration over whole runs: the order of the workers, and their configurations. */
module RegistrationLaws {
  import opened Basics
  import opened Lifecycle
  import opened RuntimeSteps
  import opened Interference
  import opened OperationSteps
  import opened RuntimeTheorems

  /** A registration that is open for a name not in use. */
  ghost predicate Registers(c: Core, l: Label) {
    l.Register? && !EverStarted(c) && l.name !in c.configs
  }

  /** The accepted registrations of a run, in the order they were made. */
  ghost function Registrations(s: System, run: seq<Label>): seq<Name>
    requires IsRun(s, run)
    decreases |run|
  {
    if run == [] then []
    else (if Registers(s.core, run[0]) then [run[0].name] else []) + Registrations(Next(s, run[0]), run[1..])
  }

  /** An accepted registration puts the worker at the end of the order, with the configuration
      given and a record of one never started; a refused one changes nothing at all. */
  lemma RegistrationStores(s: System, l: Label)
    requires Reachable(s) && Enabled(s.core, l) && l.Register?
    ensures var c, c' := s.core, Next(s, l).core;
            if Registers(c, l) then
              var unstarted := Worker(0, Registered, false, false, 0, false, false, false, None, None, None);
              && c'.order == c.order + [l.name] && c'.configs == c.configs[l.name := l.config]
              && c'.workers == c.workers[l.name := unstarted]
              && c' == c.(order := c'.order, configs := c'.configs, workers := c'.workers, status := c'.status)
            else Next(s, l) == s
  {
    hide Reachable, Recompute;
    RegistrationIsOpenUntilFirstStart(s, l.name, l.config);
    assert s.log + [] == s.log;
  }

  /** No other step touches the order or a configuration. */
  lemma OthersKeepRegistrations(c: Core, l: Label)
    requires Enabled(c, l) && !l.Register?
    ensures Apply(c, l).core.order == c.order && Apply(c, l).core.configs == c.configs
  {
    hide Apply, OperatesOn, OneRecord, CallsNoStop, TouchesAtMost;
    if IsHandleStep(l) {
      HandleStepTouches(c, l);
    } else if IsDispatchStep(l) {
      DispatchStepTouches(c, l);
    } else if IsOperationStep(l) {
      StepOperates(c, l);
    } else {
      GateStepsKeepRegistrations(c, l);
    }
  }

  lemma GateStepsKeepRegistrations(c: Core, l: Label)
    requires Enabled(c, l) && !IsFreeStep(l) && !l.Register? && !IsOperationStep(l)
    ensures Apply(c, l).core.order == c.order && Apply(c, l).core.configs == c.configs
  {
  }

  lemma StepRegistrations(s: System, l: Label)
    requires Reachable(s) && Enabled(s.core, l)
    ensures Next(s, l).core.order == s.core.order + if Registers(s.core, l) then [l.name] else []
    ensures var before, after := s.core.configs, Next(s, l).core.configs;
            forall n :: n in before ==> n in after && after[n] == before[n]
  {
    hide Reachable, Apply;
    if l.Register? {
      RegistrationStores(s, l);
    } else {
      OthersKeepRegistrations(s.core, l);
    }
  }

  /** Over every run the order grows at its end, by exactly the accepted registrations of the
      run in their order; no configuration ever changes. */
  lemma {:induction false} OrderIsRegistrationOrder(s: System, run: seq<Label>)
    requires Reachable(s) && IsRun(s, run)
    ensures After(s, run).core.order == s.core.order + Registrations(s, run)
    ensures forall n :: n in s.core.configs ==>
              n in After(s, run).core.configs && After(s, run).core.configs[n] == s.core.configs[n]
    decreases |run|
  {
    hide Reachable, Next, Registers;
    if run != [] {
      StepRegistrations(s, run[0]);
      StepStaysReachable(s, run[0]);
      OrderIsRegistrationOrder(Next(s, run[0]), run[1..]);
    }
  }

  /** So from a new runtime the order is that of the accepted registrations. */
  lemma OrderFromTheStart(config: RuntimeConfig, run: seq<Label>)
    requires IsRun(NewSystem(config), run)
    ensures After(NewSystem(config), run).core.order == Registrations(NewSystem(config), run)
  {
    hide Reachable, Next;
    NewSystemReachable(config);
    OrderIsRegistrationOrder(NewSystem(config), run);
  }
}
