// When the controller may type is a matter of what happened to it: the state of the gate is read off the
// list of events, and text is typed exactly when that says so.
module InjectionHistory {
  import opened Injection

  function Init(es: seq<Event>): seq<Event>
    requires es != []
  {
    es[..|es| - 1]
  }

  function Last(es: seq<Event>): Event
    requires es != []
  {
    es[|es| - 1]
  }

  // --- the gate, read off the events ---

  predicate WasDisposed(es: seq<Event>) {
    Dispose in es
  }

  predicate WasReady(es: seq<Event>) {
    MarkReady in es
  }

  // The last report of the terminal said busy.
  predicate WasBusy(es: seq<Event>) {
    es != [] && if Last(es).SetBusy? then Last(es).busy else WasBusy(Init(es))
  }

  // The user was typing when last heard of.
  predicate WasDrafting(es: seq<Event>) {
    es != [] && if Last(es).SetLocalDraft? then Last(es).active else WasDrafting(Init(es))
  }

  // A dialog was reported open, and neither its end nor the failsafe followed.
  predicate WasPrompting(es: seq<Event>) {
    es != [] && !Last(es).FailsafeFires? &&
    if Last(es).SetPromptOpen? then Last(es).prompt else WasPrompting(Init(es))
  }

  // A message was submitted, and its cooldown has not run out.
  predicate WasCooling(es: seq<Event>) {
    es != [] && !Last(es).CooldownFires? && (Last(es).SubmitFires? || WasCooling(Init(es)))
  }

  // The messages that came before a dispose.
  function Taken(es: seq<Event>): seq<Message> {
    if es == [] then []
    else Taken(Init(es)) + if Last(es).Enqueue? && !WasDisposed(Init(es)) then [Last(es).message] else []
  }

  // Everything but a message being typed that may keep the gate closed.
  predicate WasOpen(es: seq<Event>) {
    WasReady(es) && !WasBusy(es) && !WasPrompting(es) && !WasDrafting(es) && !WasCooling(es)
  }

  // --- the controller keeps exactly that ---

  lemma {:induction false} HappensLast(c: Controller, es: seq<Event>)
    requires es != [] && Happens(c, es)
    ensures Happens(c, Init(es)) && Enabled(Run(c, Init(es)), Last(es))
    ensures Run(c, es) == Step(Run(c, Init(es)), Last(es))
    decreases |es|
  {
    if |es| > 1 {
      HappensLast(Step(c, es[0]), es[1..]);
      assert Init(es)[1..] == Init(es[1..]);
    }
  }

  lemma HistoryPut(es: seq<Event>, e: Event)
    ensures WasDisposed(es + [e]) <==> e.Dispose? || WasDisposed(es)
    ensures WasReady(es + [e]) <==> e.MarkReady? || WasReady(es)
    ensures WasBusy(es + [e]) <==> if e.SetBusy? then e.busy else WasBusy(es)
    ensures WasDrafting(es + [e]) <==> if e.SetLocalDraft? then e.active else WasDrafting(es)
    ensures WasPrompting(es + [e]) <==> !e.FailsafeFires? && if e.SetPromptOpen? then e.prompt else WasPrompting(es)
    ensures WasCooling(es + [e]) <==> !e.CooldownFires? && (e.SubmitFires? || WasCooling(es))
    ensures Taken(es + [e]) == Taken(es) + if e.Enqueue? && !WasDisposed(es) then [e.message] else []
  {
    assert Init(es + [e]) == es && Last(es + [e]) == e;
  }

  // The controller's flags are the history's; its accepted messages are those that came before a dispose.
  ghost predicate Remembers(c: Controller, es: seq<Event>) {
    (c.disposed <==> WasDisposed(es)) && c.accepted == Taken(es) && (!c.disposed ==> SameGate(c, es))
  }

  predicate SameGate(c: Controller, es: seq<Event>) {
    (c.ready <==> WasReady(es)) && (c.busy <==> WasBusy(es)) && (c.promptOpen <==> WasPrompting(es)) &&
    (c.localDraft <==> WasDrafting(es)) && (c.cooldown <==> WasCooling(es))
  }

  // What an event does to everything the history speaks of.
  predicate Tracks(c: Controller, e: Event, t: Controller) {
    (t.disposed <==> e.Dispose? || c.disposed) &&
    t.accepted == c.accepted + (if e.Enqueue? && !c.disposed then [e.message] else []) &&
    (!c.disposed ==>
      (t.ready <==> e.MarkReady? || c.ready) && (t.busy <==> if e.SetBusy? then e.busy else c.busy) &&
      (t.localDraft <==> if e.SetLocalDraft? then e.active else c.localDraft) &&
      (t.promptOpen <==> !e.FailsafeFires? && if e.SetPromptOpen? then e.prompt else c.promptOpen) &&
      (t.cooldown <==> !e.CooldownFires? && (e.SubmitFires? || c.cooldown)))
  }

  lemma TimerTracks(c: Controller, e: Event)
    requires Enabled(c, e) && IsTimer(e)
    ensures Tracks(c, e, Step(c, e))
  {
  }

  lemma TerminalTracks(c: Controller, e: Event)
    requires e.SetBusy? || e.MarkReady?
    ensures Tracks(c, e, Step(c, e))
  {
  }

  lemma UserTracks(c: Controller, e: Event)
    requires e.SetPromptOpen? || e.SetLocalDraft?
    ensures Tracks(c, e, Step(c, e))
  {
  }

  lemma SenderTracks(c: Controller, e: Event)
    requires e.Enqueue? || e.Dispose?
    ensures Tracks(c, e, Step(c, e))
  {
  }

  lemma StepRemembers(c: Controller, es: seq<Event>, e: Event)
    requires Remembers(c, es) && Enabled(c, e)
    ensures Remembers(Step(c, e), es + [e])
  {
    HistoryPut(es, e);
    if IsTimer(e) {
      TimerTracks(c, e);
    } else if e.SetBusy? || e.MarkReady? {
      TerminalTracks(c, e);
    } else if e.SetPromptOpen? || e.SetLocalDraft? {
      UserTracks(c, e);
    } else {
      SenderTracks(c, e);
    }
  }

  lemma {:induction false} RunRemembers(es: seq<Event>)
    requires Happens(FRESH, es)
    ensures Remembers(Run(FRESH, es), es) && Gated(Run(FRESH, es)) && Conserved(Run(FRESH, es))
    decreases |es|
  {
    FreshKeeps();
    RunKeeps(FRESH, es);
    if es != [] {
      HappensLast(FRESH, es);
      RunRemembers(Init(es));
      StepRemembers(Run(FRESH, Init(es)), Init(es), Last(es));
      assert Init(es) + [Last(es)] == es;
    }
  }

  // Main result: on every run, text is typed only when the events say so: the terminal has been ready,
  // was last heard of as idle and without a draft, no dialog is open, no cooldown runs, and the message
  // typed before has been submitted. What is typed is the oldest message not typed yet.
  lemma TypesOnlyWhenOpen(es: seq<Event>)
    requires es != [] && Happens(FRESH, es) && Happens(FRESH, Init(es))
    requires Texts(Run(FRESH, es).out) != Texts(Run(FRESH, Init(es)).out)
    ensures !WasDisposed(es) && WasOpen(es)
    ensures var typed := Texts(Run(FRESH, Init(es)).out);
            && |typed| < |Taken(es)| && |InjectedIds(Run(FRESH, es).out)| == |typed|
            && Texts(Run(FRESH, es).out) == typed + [Taken(es)[|typed|].text]
  {
    HappensLast(FRESH, es);
    RunRemembers(Init(es));
    RunRemembers(es);
    var c := Run(FRESH, Init(es));
    WritesOnlyWhenOpen(c, Last(es));
    var m: Message :| Step(c, Last(es)).out == c.out + [Wrote(m.text)];
    OutputsPut(c.out, Wrote(m.text));
    var typed := Texts(c.out);
    assert Texts(Run(FRESH, es).out) == TextsOf(Taken(es)[..|typed| + 1]);
  }

  // Main result: and it is typed as soon as they do: after every run without a dispose, either the events
  // keep the gate closed, or a typed message has not been submitted, or everything taken was typed.
  lemma TypesAsSoonAsOpen(es: seq<Event>)
    requires Happens(FRESH, es) && !WasDisposed(es)
    ensures var out := Run(FRESH, es).out;
            WasOpen(es) && |InjectedIds(out)| == |Texts(out)| ==> Texts(out) == TextsOf(Taken(es))
  {
    RunRemembers(es);
    var c := Run(FRESH, es);
    if WasOpen(es) && |InjectedIds(c.out)| == |Texts(c.out)| {
      assert c.queue == [];
      assert c.accepted[..|Texts(c.out)|] == c.accepted;
    }
  }
}
