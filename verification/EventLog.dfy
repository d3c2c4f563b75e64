/** The committed events, in commit order: replaying them and counting them. */
module EventLog {
  import opened Basics
  import opened Lifecycle

  /** The observable facts about one subject: where it is, and the last change that led there. */
  datatype Point = Point(lifecycle: LifecycleState, ready: bool, last: Option<Change>)

  const Origin := Point(Registered, false, None)

  /** The lifecycle changes a worker record may go through. */
  predicate LegalChange(from: LifecycleState, to: LifecycleState) {
    match to
    case Registered => false
    case Starting => from == Registered || from == Stopped || from == Failed
    case Running => from == Starting
    case Draining => from == Running
    case Stopping => from == Running || from == Draining || from == Failed
    case Stopped => from == Stopping
    case Failed => from == Starting || from == Running || from == Draining || from == Stopping
  }

  /** One event replayed on one subject. A transition must leave the current lifecycle for
      another one, along a legal change when the subject is a worker; a readiness event must
      flip the current readiness. */
  function PlayOne(subject: Subject, at: Point, e: Event): Option<Point> {
    match e
    case Transition(s, from, to) =>
      if s != subject then Some(at)
      else if from == at.lifecycle && from != to && (subject.OfWorker? ==> LegalChange(from, to))
      then Some(at.(lifecycle := to, last := Some(Change(from, to))))
      else None
    case Readiness(s, ready) =>
      if s != subject then Some(at) else if ready != at.ready then Some(at.(ready := ready)) else None
    case _ => Some(at)
  }

  /** A log replayed on one subject; None when some event of the subject does not fit. */
  function Play(subject: Subject, at: Point, log: seq<Event>): Option<Point> {
    if log == [] then Some(at)
    else
      var before := Play(subject, at, log[..|log| - 1]);
      if before.None? then None else PlayOne(subject, before.value, log[|log| - 1])
  }

  lemma {:induction false} PlayConcat(subject: Subject, at: Point, a: seq<Event>, b: seq<Event>)
    ensures Play(subject, at, a + b)
         == var mid := Play(subject, at, a);
            if mid.None? then None else Play(subject, mid.value, b)
  {
    if b == [] {
      assert a + b == a;
    } else {
      PlayConcat(subject, at, a, b[..|b| - 1]);
      assert (a + b)[..|a + b| - 1] == a + b[..|b| - 1];
    }
  }

  lemma PlayOnto(subject: Subject, at: Point, a: seq<Event>, mid: Point, b: seq<Event>, end: Point)
    requires Play(subject, at, a) == Some(mid)
    requires Play(subject, mid, b) == Some(end)
    ensures Play(subject, at, a + b) == Some(end)
  {
    PlayConcat(subject, at, a, b);
  }

  // ---------------------------------------------------------------------------
  // Counting.

  function Count(log: seq<Event>, p: Event -> bool): nat {
    if log == [] then 0 else Count(log[..|log| - 1], p) + if p(log[|log| - 1]) then 1 else 0
  }

  lemma {:induction false} CountConcat(a: seq<Event>, b: seq<Event>, p: Event -> bool)
    ensures Count(a + b, p) == Count(a, p) + Count(b, p)
  {
    if b == [] {
      assert a + b == a;
    } else {
      CountConcat(a, b[..|b| - 1], p);
      assert (a + b)[..|a + b| - 1] == a + b[..|b| - 1];
    }
  }

  lemma {:induction false} CountNone(log: seq<Event>, p: Event -> bool)
    requires forall e :: e in log ==> !p(e)
    ensures Count(log, p) == 0
  {
    if log != [] {
      CountNone(log[..|log| - 1], p);
    }
  }

  /** Failure events a worker's lifecycle gives rise to: reported failures and the terminal
      failure of a Start or Stop. Commands and automatic loop cleanup are counted elsewhere. */
  function IsLifecycleFailure(worker: Name): Event -> bool {
    (e: Event) => e.Failure? && e.worker == worker
        && (e.source.Report? || e.source.Operation? || e.source.CleanupPending?)
  }

  function IsReport(worker: Name): Event -> bool {
    (e: Event) => e.Failure? && e.worker == worker && e.source.Report?
  }

  /** The workers whose Stop was called, in call order. */
  function StopCalls(log: seq<Event>): seq<Name> {
    if log == [] then []
    else StopCalls(log[..|log| - 1]) + if log[|log| - 1].StopCalled? then [log[|log| - 1].worker] else []
  }

  lemma {:induction false} StopCallsConcat(a: seq<Event>, b: seq<Event>)
    ensures StopCalls(a + b) == StopCalls(a) + StopCalls(b)
  {
    if b == [] {
      assert a + b == a;
    } else {
      StopCallsConcat(a, b[..|b| - 1]);
      assert (a + b)[..|a + b| - 1] == a + b[..|b| - 1];
      assert (a + b)[|a + b| - 1] == b[|b| - 1];
    }
  }
}
