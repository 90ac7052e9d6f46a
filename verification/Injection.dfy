// The injection gate (packages/cli/src/claude/injectionController.ts): messages from the web are
// typed into a live terminal only while it is idle at its prompt.
module Injection {
  import opened Wrappers

  datatype Message = Message(id: string, text: string)

  // What the controller does to the outside: its dependency calls, in order.
  datatype Output = Wrote(text: string) | Submitted | Injected(id: string) | Dropped(messages: seq<Message>)

  // The fields of the controller. A timer field is set while the timer is armed; the submit timer
  // carries the message it will submit. `accepted` is the history of messages taken in.
  datatype Controller = Controller(
    queue: seq<Message>, ready: bool, busy: bool, injecting: bool, cooldown: bool, promptOpen: bool,
    localDraft: bool, disposed: bool, submitTimer: Option<Message>, cooldownTimer: bool, failsafeTimer: bool,
    out: seq<Output>, accepted: seq<Message>)

  const FRESH := Controller([], false, false, false, false, false, false, false, None, false, false, [], [])

  predicate CanInjectNow(c: Controller) {
    !c.disposed && c.ready && !c.busy && !c.injecting && !c.cooldown && !c.promptOpen && !c.localDraft
  }

  function TryFlush(c: Controller): (r: Controller)
    ensures r == c.(queue := r.queue, injecting := r.injecting, out := r.out, submitTimer := r.submitTimer)
  {
    if !CanInjectNow(c) || c.queue == [] then c
    else c.(queue := c.queue[1..], injecting := true, out := c.out + [Wrote(c.queue[0].text)],
            submitTimer := Some(c.queue[0]))
  }

  datatype Event =
    | Enqueue(message: Message)
    | SetBusy(busy: bool)
    | MarkReady
    | SetPromptOpen(prompt: bool)
    | SetLocalDraft(active: bool)
    | Dispose
    | SubmitFires
    | CooldownFires
    | FailsafeFires

  predicate IsTimer(e: Event) {
    e.SubmitFires? || e.CooldownFires? || e.FailsafeFires?
  }

  predicate Enabled(c: Controller, e: Event) {
    match e
    case SubmitFires => c.submitTimer.Some?
    case CooldownFires => c.cooldownTimer
    case FailsafeFires => c.failsafeTimer
    case _ => true
  }

  function PromptGate(c: Controller, open: bool): Controller {
    if c.disposed || c.promptOpen == open then c
    else if open then c.(promptOpen := true, failsafeTimer := true)
    else TryFlush(c.(promptOpen := false, failsafeTimer := false))
  }

  function Submit(c: Controller): Controller
    requires c.submitTimer.Some?
  {
    var message := c.submitTimer.value;
    if c.disposed then c.(submitTimer := None, out := c.out + [Dropped([message])])
    else c.(submitTimer := None, injecting := false, cooldown := true, cooldownTimer := true,
            out := c.out + [Submitted, Injected(message.id)])
  }

  // The submit timer survives: the message it carries is reported when it fires.
  function DisposeNow(c: Controller): Controller {
    if c.disposed then c
    else c.(disposed := true, cooldownTimer := false, failsafeTimer := false, queue := [],
            out := if c.queue == [] then c.out else c.out + [Dropped(c.queue)])
  }

  function Step(c: Controller, e: Event): Controller
    requires Enabled(c, e)
  {
    match e
    case Enqueue(m) => if c.disposed then c else TryFlush(c.(queue := c.queue + [m], accepted := c.accepted + [m]))
    case SetBusy(busy) =>
      if c.disposed || c.busy == busy then c else if busy then c.(busy := true) else TryFlush(c.(busy := false))
    case MarkReady => if c.disposed || c.ready then c else TryFlush(c.(ready := true))
    case SetPromptOpen(open) => PromptGate(c, open)
    case SetLocalDraft(active) =>
      if c.disposed || c.localDraft == active then c
      else if active then c.(localDraft := true) else TryFlush(c.(localDraft := false))
    case Dispose => DisposeNow(c)
    case SubmitFires => Submit(c)
    case CooldownFires =>
      if c.disposed then c.(cooldownTimer := false) else TryFlush(c.(cooldownTimer := false, cooldown := false))
    case FailsafeFires => PromptGate(c.(failsafeTimer := false), false)
  }

  predicate Happens(c: Controller, es: seq<Event>)
    decreases |es|
  {
    es == [] || (Enabled(c, es[0]) && Happens(Step(c, es[0]), es[1..]))
  }

  function Run(c: Controller, es: seq<Event>): Controller
    requires Happens(c, es)
    decreases |es|
  {
    if es == [] then c else Run(Step(c, es[0]), es[1..])
  }

  // --- what the outside sees ---

  // Keystrokes only: true for text, false for the submit key.
  function Keys(out: seq<Output>): seq<bool> {
    if out == [] then []
    else Keys(out[..|out| - 1]) + match out[|out| - 1] case Wrote(_) => [true] case Submitted => [false] case _ => []
  }

  function Texts(out: seq<Output>): seq<string> {
    if out == [] then []
    else Texts(out[..|out| - 1]) + if out[|out| - 1].Wrote? then [out[|out| - 1].text] else []
  }

  function InjectedIds(out: seq<Output>): seq<string> {
    if out == [] then []
    else InjectedIds(out[..|out| - 1]) + if out[|out| - 1].Injected? then [out[|out| - 1].id] else []
  }

  function DroppedMessages(out: seq<Output>): seq<Message> {
    if out == [] then []
    else DroppedMessages(out[..|out| - 1]) + if out[|out| - 1].Dropped? then out[|out| - 1].messages else []
  }

  function TextsOf(messages: seq<Message>): seq<string> {
    seq(|messages|, i requires 0 <= i < |messages| => messages[i].text)
  }

  function IdsOf(messages: seq<Message>): seq<string> {
    seq(|messages|, i requires 0 <= i < |messages| => messages[i].id)
  }

  lemma OutputsPut(out: seq<Output>, o: Output)
    ensures Keys(out + [o]) == Keys(out) + match o case Wrote(_) => [true] case Submitted => [false] case _ => []
    ensures Texts(out + [o]) == Texts(out) + if o.Wrote? then [o.text] else []
    ensures InjectedIds(out + [o]) == InjectedIds(out) + if o.Injected? then [o.id] else []
    ensures DroppedMessages(out + [o]) == DroppedMessages(out) + if o.Dropped? then o.messages else []
  {
  }

  // Text and submit keys strictly alternate, starting with text.
  predicate Alternate(keys: seq<bool>) {
    (keys != [] ==> keys[0]) && forall i :: 0 < i < |keys| ==> keys[i] != keys[i - 1]
  }

  // Text was typed and its submit key has not followed yet.
  predicate Typed(keys: seq<bool>) {
    keys != [] && keys[|keys| - 1]
  }

  // --- the gate ---

  // Every closed gate has a timer that will reopen it, and a message never waits before an open gate.
  predicate Gated(c: Controller) {
    (c.submitTimer.Some? ==> c.injecting) &&
    (!c.disposed ==>
      (c.injecting ==> c.submitTimer.Some?) &&
      (c.cooldown <==> c.cooldownTimer) && (c.promptOpen <==> c.failsafeTimer) &&
      !(c.injecting && c.cooldown) && !(CanInjectNow(c) && c.queue != [])) &&
    (c.disposed ==> c.queue == [] && !c.cooldownTimer && !c.failsafeTimer)
  }

  lemma StepGated(c: Controller, e: Event)
    requires Gated(c) && Enabled(c, e)
    ensures Gated(Step(c, e))
  {
  }

  // A write happens only with the gate open: the step that writes was not injecting, and ready, idle,
  // without a prompt, a draft or a cooldown.
  lemma WritesOnlyWhenOpen(c: Controller, e: Event)
    requires Gated(c) && Enabled(c, e) && Texts(Step(c, e).out) != Texts(c.out)
    ensures !c.injecting
    ensures var t := Step(c, e);
            t.ready && !t.busy && !t.promptOpen && !t.localDraft && !t.cooldown && !t.disposed
    ensures exists m: Message :: Step(c, e).out == c.out + [Wrote(m.text)] && Step(c, e).submitTimer == Some(m)
  {
    match e {
      case SubmitFires => SubmitOutputs(c);
      case Dispose => if c.queue != [] { OutputsPut(c.out, Dropped(c.queue)); }
      case Enqueue(m) => FlushOnlyWhenOpen(c.(queue := c.queue + [m], accepted := c.accepted + [m]));
      case SetBusy(_) =>
      case MarkReady =>
      case SetPromptOpen(_) =>
      case SetLocalDraft(_) =>
      case CooldownFires =>
      case FailsafeFires =>
    }
  }

  lemma FlushOnlyWhenOpen(c: Controller)
    ensures TryFlush(c).out == c.out ||
            (CanInjectNow(c) && c.queue != [] && TryFlush(c).out == c.out + [Wrote(c.queue[0].text)])
  {
  }

  lemma SubmitOutputs(c: Controller)
    requires c.submitTimer.Some?
    ensures var m, o := c.submitTimer.value, Submit(c).out;
            Texts(o) == Texts(c.out) &&
            Keys(o) == Keys(c.out) + (if c.disposed then [] else [false]) &&
            InjectedIds(o) == InjectedIds(c.out) + (if c.disposed then [] else [m.id]) &&
            DroppedMessages(o) == DroppedMessages(c.out) + (if c.disposed then [m] else [])
  {
    var m := c.submitTimer.value;
    if c.disposed {
      OutputsPut(c.out, Dropped([m]));
    } else {
      OutputsPut(c.out, Submitted);
      OutputsPut(c.out + [Submitted], Injected(m.id));
      assert c.out + [Submitted, Injected(m.id)] == (c.out + [Submitted]) + [Injected(m.id)];
    }
  }

  // --- conservation ---

  // What was submitted and what was typed are the first accepted messages; at most one is typed and
  // not submitted, and it is the one the submit timer carries.
  ghost predicate Typing(ids: seq<string>, texts: seq<string>, keys: seq<bool>, accepted: seq<Message>,
                         submit: Option<Message>)
  {
    |ids| <= |texts| <= |accepted| && |texts| <= |ids| + 1 &&
    ids == IdsOf(accepted[..|ids|]) && texts == TextsOf(accepted[..|texts|]) &&
    Alternate(keys) && (Typed(keys) <==> |texts| == |ids| + 1) &&
    (submit.Some? ==> |texts| == |ids| + 1 && submit.value == accepted[|ids|])
  }

  // The rest is queued; or, after a dispose, reported as dropped, the one in flight last.
  ghost predicate Conserved(c: Controller) {
    var j, k := |InjectedIds(c.out)|, |Texts(c.out)|;
    Typing(InjectedIds(c.out), Texts(c.out), Keys(c.out), c.accepted, c.submitTimer) &&
    (!c.disposed ==>
      (k == j + 1 <==> c.submitTimer.Some?) && c.queue == c.accepted[k..] && DroppedMessages(c.out) == []) &&
    (c.disposed ==> DroppedMessages(c.out) == c.accepted[k..] + if c.submitTimer.Some? then [] else c.accepted[j..k])
  }

  lemma FlushConserved(c: Controller)
    requires Conserved(c) && !c.disposed
    requires (c.submitTimer.Some? <==> c.injecting)
    ensures Conserved(TryFlush(c))
  {
  }

  lemma SubmitConserved(c: Controller)
    requires Conserved(c) && c.submitTimer.Some?
    ensures Conserved(Submit(c))
  {
    SubmitOutputs(c);
    var m, j := c.submitTimer.value, |InjectedIds(c.out)|;
    if c.disposed {
      assert c.accepted[j..j + 1] == [m];
    } else {
      assert IdsOf(c.accepted[..j + 1]) == IdsOf(c.accepted[..j]) + [m.id];
    }
  }

  lemma DisposeConserved(c: Controller)
    requires Conserved(c)
    ensures Conserved(DisposeNow(c))
  {
    if !c.disposed {
      var j, k := |InjectedIds(c.out)|, |Texts(c.out)|;
      var rest := if c.submitTimer.Some? then [] else c.accepted[j..k];
      assert rest == [] && c.accepted[k..] + rest == c.queue;
      var t := DisposeNow(c);
      assert Keys(t.out) == Keys(c.out) && Texts(t.out) == Texts(c.out) && InjectedIds(t.out) == InjectedIds(c.out) &&
             DroppedMessages(t.out) == c.queue by {
        OutputsPut(c.out, Dropped(c.queue));
      }
    }
  }

  lemma StepConserved(c: Controller, e: Event)
    requires Gated(c) && Conserved(c) && Enabled(c, e)
    ensures Conserved(Step(c, e))
  {
    match e {
      case Enqueue(m) => if !c.disposed { EnqueueConserved(c, m); }
      case SetBusy(busy) => if !c.disposed { FlushConserved(c.(busy := false)); }
      case MarkReady => if !c.disposed { FlushConserved(c.(ready := true)); }
      case SetPromptOpen(open) => if !c.disposed { FlushConserved(c.(promptOpen := false, failsafeTimer := false)); }
      case SetLocalDraft(active) => if !c.disposed { FlushConserved(c.(localDraft := false)); }
      case Dispose => DisposeConserved(c);
      case SubmitFires => SubmitConserved(c);
      case CooldownFires => if !c.disposed { FlushConserved(c.(cooldownTimer := false, cooldown := false)); }
      case FailsafeFires => if !c.disposed { FlushConserved(c.(promptOpen := false, failsafeTimer := false)); }
    }
  }

  lemma EnqueueConserved(c: Controller, m: Message)
    requires Gated(c) && Conserved(c) && !c.disposed
    ensures Conserved(TryFlush(c.(queue := c.queue + [m], accepted := c.accepted + [m])))
  {
    var j, k := |InjectedIds(c.out)|, |Texts(c.out)|;
    assert (c.accepted + [m])[..j] == c.accepted[..j] && (c.accepted + [m])[..k] == c.accepted[..k];
    assert (c.accepted + [m])[k..] == c.accepted[k..] + [m];
    FlushConserved(c.(queue := c.queue + [m], accepted := c.accepted + [m]));
  }

  lemma {:induction false} RunKeeps(c: Controller, es: seq<Event>)
    requires Gated(c) && Conserved(c) && Happens(c, es)
    ensures Gated(Run(c, es)) && Conserved(Run(c, es))
    decreases |es|
  {
    if es != [] {
      StepGated(c, es[0]);
      StepConserved(c, es[0]);
      RunKeeps(Step(c, es[0]), es[1..]);
    }
  }

  // Main result: after every run, no message waits before an open gate, keystrokes alternate, and
  // what was typed and what was submitted are the first accepted messages, in order.
  lemma NoMissedWakeup(es: seq<Event>)
    requires Happens(FRESH, es)
    ensures var c := Run(FRESH, es);
            !(CanInjectNow(c) && c.queue != []) && Alternate(Keys(c.out)) &&
            InjectedIds(c.out) <= IdsOf(c.accepted) && Texts(c.out) <= TextsOf(c.accepted)
  {
    FreshKeeps();
    RunKeeps(FRESH, es);
  }

  // Main result: until a dispose, the accepted messages are the injected ones, the one in flight and
  // the queued ones, in that order.
  lemma AcceptedInOrder(es: seq<Event>)
    requires Happens(FRESH, es) && !Run(FRESH, es).disposed
    ensures var c := Run(FRESH, es);
            IdsOf(c.accepted) == InjectedIds(c.out)
                + IdsOf((if c.submitTimer.Some? then [c.submitTimer.value] else []) + c.queue)
  {
    FreshKeeps();
    RunKeeps(FRESH, es);
    var c := Run(FRESH, es);
    var j, k := |InjectedIds(c.out)|, |Texts(c.out)|;
    var rest := (if c.submitTimer.Some? then [c.submitTimer.value] else []) + c.queue;
    assert c.accepted[j..] == rest;
    assert c.accepted == c.accepted[..j] + rest;
    IdsConcat(c.accepted[..j], rest);
  }

  lemma IdsConcat(a: seq<Message>, b: seq<Message>)
    ensures IdsOf(a + b) == IdsOf(a) + IdsOf(b)
  {
  }

  lemma FreshKeeps()
    ensures Gated(FRESH) && Conserved(FRESH)
  {
  }

  // Main result: after a dispose and the last submit timer, every accepted message has been reported
  // exactly once, the first ones as injected and the others as dropped.
  lemma EveryMessageReported(es: seq<Event>)
    requires Happens(FRESH, es) && Run(FRESH, es).disposed && Run(FRESH, es).submitTimer.None?
    ensures var c := Run(FRESH, es); var j := |InjectedIds(c.out)|;
            j <= |c.accepted| && InjectedIds(c.out) == IdsOf(c.accepted[..j]) &&
            multiset(DroppedMessages(c.out)) == multiset(c.accepted[j..])
  {
    FreshKeeps();
    RunKeeps(FRESH, es);
    var c := Run(FRESH, es);
    var j, k := |InjectedIds(c.out)|, |Texts(c.out)|;
    assert c.accepted[j..] == c.accepted[j..k] + c.accepted[k..];
  }

  // --- bounded draining ---

  // An upper bound on the timer firings still ahead.
  function Work(c: Controller): nat {
    3 * |c.queue| + (if c.submitTimer.Some? then 2 else 0) + (if c.cooldownTimer then 1 else 0)
        + (if c.failsafeTimer then 1 else 0)
  }

  predicate Quiet(c: Controller) {
    c.submitTimer.None? && !c.cooldownTimer && !c.failsafeTimer
  }

  lemma TimerWorks(c: Controller, e: Event)
    requires Gated(c) && Enabled(c, e) && IsTimer(e)
    ensures Work(Step(c, e)) < Work(c)
    ensures var t := Step(c, e);
            t.ready == c.ready && t.busy == c.busy && t.localDraft == c.localDraft && t.disposed == c.disposed
  {
  }

  // Main result: once ready, idle and without a draft, the timers alone empty the queue: no run of
  // firings is longer than Work, and when none is left to fire nothing is queued or in flight.
  lemma {:induction false} TimersDrain(c: Controller, es: seq<Event>)
    requires Gated(c) && c.ready && !c.busy && !c.localDraft && !c.disposed
    requires Happens(c, es) && forall i :: 0 <= i < |es| ==> IsTimer(es[i])
    ensures |es| <= Work(c)
    ensures Quiet(Run(c, es)) ==> Run(c, es).queue == [] && !Run(c, es).injecting
    decreases |es|
  {
    if es != [] {
      StepGated(c, es[0]);
      TimerWorks(c, es[0]);
      TimersDrain(Step(c, es[0]), es[1..]);
    }
  }
}
