// The busy edge of a terminal session (packages/cli/src/claude/ptyClaudeSession.ts): fetch events
// close the injection gate at once and reopen it after a quiet period.
module PtySession {
  import opened FetchSignal
  import I = Injection

  datatype Session = Session(activeFetches: set<int>, idleTimer: bool, c: I.Controller)

  const FRESH := Session({}, false, I.FRESH)

  // Only the busy edge drives setBusy; every other gate event comes from elsewhere in the session.
  datatype Event = Fetch(e: FetchEvent) | IdleFires | Gate(g: I.Event)

  predicate Enabled(s: Session, e: Event) {
    match e
    case Fetch(_) => true
    case IdleFires => s.idleTimer
    case Gate(g) => !g.SetBusy? && I.Enabled(s.c, g)
  }

  function OnFetch(s: Session, e: FetchEvent): Session {
    match e
    case FetchStart(id) => Session(s.activeFetches + {id}, false, I.Step(s.c, I.SetBusy(true)))
    case FetchEnd(id) =>
      var active := s.activeFetches - {id};
      s.(activeFetches := active, idleTimer := s.idleTimer || active == {})
  }

  function OnIdle(s: Session): Session {
    s.(idleTimer := false, c := if s.activeFetches == {} then I.Step(s.c, I.SetBusy(false)) else s.c)
  }

  function Step(s: Session, e: Event): Session
    requires Enabled(s, e)
  {
    match e
    case Fetch(f) => OnFetch(s, f)
    case IdleFires => OnIdle(s)
    case Gate(g) => s.(c := I.Step(s.c, g))
  }

  predicate Happens(s: Session, es: seq<Event>)
    decreases |es|
  {
    es == [] || (Enabled(s, es[0]) && Happens(Step(s, es[0]), es[1..]))
  }

  function Run(s: Session, es: seq<Event>): Session
    requires Happens(s, es)
    decreases |es|
  {
    if es == [] then s else Run(Step(s, es[0]), es[1..])
  }

  // Until the controller is disposed, a running fetch keeps it busy, and a busy controller has a
  // running fetch or an idle timer that will release it.
  ghost predicate NeverSticks(s: Session) {
    I.Gated(s.c) &&
    (!s.c.disposed ==>
      (s.activeFetches != {} ==> s.c.busy) && (s.c.busy ==> s.activeFetches != {} || s.idleTimer))
  }

  lemma GateKeepsBusy(c: I.Controller, g: I.Event)
    requires I.Enabled(c, g) && !g.SetBusy?
    ensures I.Step(c, g).busy == c.busy && (c.disposed ==> I.Step(c, g).disposed)
  {
    match g {
      case Enqueue(m) =>
      case MarkReady =>
      case SetPromptOpen(open) =>
      case SetLocalDraft(active) =>
      case Dispose =>
      case SubmitFires =>
      case CooldownFires =>
      case FailsafeFires =>
    }
  }

  lemma StepNeverSticks(s: Session, e: Event)
    requires NeverSticks(s) && Enabled(s, e)
    ensures NeverSticks(Step(s, e))
  {
    match e {
      case Fetch(f) => I.StepGated(s.c, I.SetBusy(true));
      case IdleFires => I.StepGated(s.c, I.SetBusy(false));
      case Gate(g) => I.StepGated(s.c, g); GateKeepsBusy(s.c, g);
    }
  }

  lemma {:induction false} RunNeverSticks(s: Session, es: seq<Event>)
    requires NeverSticks(s) && Happens(s, es)
    ensures NeverSticks(Run(s, es))
    decreases |es|
  {
    if es != [] {
      StepNeverSticks(s, es[0]);
      RunNeverSticks(Step(s, es[0]), es[1..]);
    }
  }

  lemma FreshNeverSticks()
    ensures NeverSticks(FRESH)
  {
  }

  // Main result: on every run of a session, until it is disposed, the gate is closed while a fetch runs,
  // and it is closed only while one runs or a timer is armed that will open it.
  lemma BusyNeverSticks(es: seq<Event>)
    requires Happens(FRESH, es)
    ensures var s := Run(FRESH, es);
            !s.c.disposed ==>
              (s.activeFetches != {} ==> s.c.busy) && (s.c.busy ==> s.activeFetches != {} || s.idleTimer)
  {
    FreshNeverSticks();
    RunNeverSticks(FRESH, es);
  }

  predicate IsTimer(e: Event) {
    e.IdleFires? || (e.Gate? && I.IsTimer(e.g))
  }

  function Work(s: Session): nat {
    I.Work(s.c) + if s.idleTimer then 1 else 0
  }

  lemma TimerWorks(s: Session, e: Event)
    requires NeverSticks(s) && Enabled(s, e) && IsTimer(e)
    ensures Work(Step(s, e)) < Work(s)
    ensures var t := Step(s, e);
            t.c.ready == s.c.ready && t.c.localDraft == s.c.localDraft && t.c.disposed == s.c.disposed &&
            t.activeFetches == s.activeFetches
  {
    if e.Gate? {
      I.TimerWorks(s.c, e.g);
    }
  }

  lemma {:induction false} TimersDrain(s: Session, es: seq<Event>)
    requires NeverSticks(s) && s.activeFetches == {} && s.c.ready && !s.c.localDraft && !s.c.disposed
    requires Happens(s, es) && forall i :: 0 <= i < |es| ==> IsTimer(es[i])
    ensures |es| <= Work(s)
    ensures var t := Run(s, es); !t.idleTimer && I.Quiet(t.c) ==> t.c.queue == [] && !t.c.injecting
    decreases |es|
  {
    if es != [] {
      StepNeverSticks(s, es[0]);
      TimerWorks(s, es[0]);
      TimersDrain(Step(s, es[0]), es[1..]);
    }
  }

  // Main result: after any run, once no fetch is running, the TUI is ready and nobody is typing, timer
  // firings alone release the gate and empty the queue, within Work firings.
  lemma QuietSessionDrains(past: seq<Event>, es: seq<Event>)
    requires Happens(FRESH, past)
    requires var s := Run(FRESH, past); s.activeFetches == {} && s.c.ready && !s.c.localDraft && !s.c.disposed
    requires Happens(Run(FRESH, past), es) && forall i :: 0 <= i < |es| ==> IsTimer(es[i])
    ensures |es| <= Work(Run(FRESH, past))
    ensures var t := Run(Run(FRESH, past), es); !t.idleTimer && I.Quiet(t.c) ==> t.c.queue == [] && !t.c.injecting
  {
    FreshNeverSticks();
    RunNeverSticks(FRESH, past);
    TimersDrain(Run(FRESH, past), es);
  }
}
