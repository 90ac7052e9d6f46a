// Held tool starts are conserved: every announced call is shown exactly once, before its end, and
// after any text that came first.
module AcpTools {
  import opened Wrappers
  import opened Wire
  import opened Scopes
  import opened AcpMapper
  import opened AcpTraces

  // The calls whose tool start was written since the last turn start, in order.
  function Shown(log: seq<Envelope>): seq<Id> {
    if log == [] then []
    else
      var e := log[|log| - 1];
      if e.ev.TurnStart? then []
      else if e.ev.ToolStart? then Shown(log[..|log| - 1]) + [e.ev.call]
      else Shown(log[..|log| - 1])
  }

  lemma ShownPut(w: Writer, e: Envelope)
    ensures Shown(Put(w, e).log)
         == if e.ev.TurnStart? then [] else if e.ev.ToolStart? then Shown(w.log) + [e.ev.call] else Shown(w.log)
  {
  }

  // Every call announced in this turn is either shown or held, counted exactly once.
  ghost predicate Ledger(s: State) {
    Tidy(s) && Distinct(s.seen) && (forall c :: c in s.seen ==> c < s.nextId) &&
    (forall k :: k in s.ids ==> s.ids[k] < s.nextId) &&
    multiset(Shown(s.w.log)) + multiset(Calls(s.starts)) == multiset(s.seen)
  }

  // The call this notification announces was not announced before in the turn.
  predicate Announces(u: Update, s: State) {
    u.kind.ToolCall? && s.w.turn.Some? && u.toolCallId.Some?
  }

  predicate AlreadyAnnounced(u: Update, s: State) {
    u.toolCallId.Some? && u.toolCallId.value in s.ids && s.ids[u.toolCallId.value] in s.seen
  }

  lemma StartSubShown(w: Writer, turn: Id, sub: Option<Id>)
    ensures Shown(StartSub(w, turn, sub).log) == Shown(w.log)
  {
  }

  lemma StopSubShown(w: Writer, turn: Id, sub: Option<Id>)
    ensures Shown(StopSub(w, turn, sub).log) == Shown(w.log)
  {
  }

  lemma {:induction false} StopAllShown(w: Writer, turn: Id)
    ensures Shown(StopAll(w, turn).log) == Shown(w.log)
    decreases |w.active|
  {
    if w.active != [] {
      var w1 := w.(active := w.active[1..]);
      ShownPut(w1, AgentIn(SubStop, turn, Some(w.active[0])));
      StopAllShown(Put(w1, AgentIn(SubStop, turn, Some(w.active[0]))), turn);
    }
  }

  lemma FlushTextLedger(s: State)
    requires Ledger(s)
    ensures Ledger(FlushText(s)) && Shown(FlushText(s).w.log) == Shown(s.w.log)
  {
    FlushTextTidy(s);
    if s.text.Some? && Join(s.text.value.parts) != "" {
      var run := s.text.value;
      StartSubShown(s.w, run.turn, run.sub);
      ShownPut(StartSub(s.w, run.turn, run.sub), AgentIn(Text(Join(run.parts), run.thinking), run.turn, run.sub));
    }
  }

  lemma EmitStartShown(s: State, p: PendingStart)
    ensures Shown(EmitStart(s, p).w.log) == Shown(s.w.log) + [p.call]
  {
  }

  lemma EmitStartLedger(s: State, p: PendingStart)
    requires Ledger(s) && s.w.turn == Some(p.turn) && p.call in Calls(s.starts)
    ensures Ledger(EmitStart(s, p))
    ensures p.call !in Calls(EmitStart(s, p).starts)
  {
    EmitStartTidy(s, p);
    DropCalls(s.starts, p.call);
    EmitStartShown(s, p);
  }

  lemma {:induction false} FlushStartsLedger(s: State)
    requires Ledger(s)
    ensures Ledger(FlushStarts(s))
    decreases |s.starts|
  {
    if s.starts != [] {
      EmitStartLedger(s, s.starts[0]);
      FlushStartsLedger(EmitStart(s, s.starts[0]));
    }
  }

  // At the end of a turn nothing is held any more: every call announced in it was shown once.
  lemma CloseTurnLedger(s: State, status: Status)
    requires Ledger(s)
    ensures Ledger(CloseTurn(s, status))
    ensures multiset(Shown(CloseTurn(s, status).w.log)) == multiset(s.seen)
  {
    CloseTurnTidy(s, status);
    if s.w.turn.Some? {
      FlushTextLedger(s);
      FlushStartsLedger(FlushText(s));
      var t := FlushStarts(FlushText(s));
      StopAllShown(t.w, t.w.turn.value);
      ShownPut(StopAll(t.w, t.w.turn.value), AgentIn(TurnEnd(status), t.w.turn.value, None));
    }
  }

  lemma StartTurnLedger(s: State)
    requires Ledger(s) && s.w.turn.None?
    ensures Ledger(StartTurn(s))
  {
    StartTurnTidy(s);
    ShownPut(s.w.(turn := Some(s.nextId)), AgentIn(TurnStart, s.nextId, None));
  }

  lemma ResolveLedger(u: Update, s: State)
    requires Ledger(s)
    ensures Ledger(Resolve(u, s).1)
    ensures u.toolCallId.Some? ==> u.toolCallId.value in Resolve(u, s).1.ids
    ensures u.toolCallId.Some? && Resolve(u, s).1.ids[u.toolCallId.value] in s.seen ==> AlreadyAnnounced(u, s)
  {
  }

  lemma HeldWereAnnounced(s: State)
    requires Ledger(s)
    ensures forall c :: c in Calls(s.starts) ==> c in s.seen
  {
    forall c | c in Calls(s.starts)
      ensures c in s.seen
    {
      assert c in multiset(Calls(s.starts));
      assert c in multiset(s.seen);
    }
  }

  lemma HoldLedger(s: State, p: PendingStart)
    requires Ledger(s) && s.w.turn == Some(p.turn) && p.call !in s.seen && p.call < s.nextId
    ensures Ledger(s.(starts := Hold(s.starts, p), seen := s.seen + [p.call]))
    ensures p.call in Calls(Hold(s.starts, p))
  {
    HeldWereAnnounced(s);
    HoldTidy(s, p);
    HoldCalls(s.starts, p);
    DistinctAppend(s.seen, p.call);
    AddLast(Shown(s.w.log), Calls(s.starts), s.seen, p.call);
  }

  lemma AddLast(shown: seq<Id>, held: seq<Id>, seen: seq<Id>, call: Id)
    requires multiset(shown) + multiset(held) == multiset(seen)
    ensures multiset(shown) + multiset(held + [call]) == multiset(seen + [call])
  {
  }

  lemma AnnounceLedger(s: State, p: PendingStart)
    requires Ledger(s) && s.w.turn == Some(p.turn) && p.call !in s.seen && p.call < s.nextId
    ensures Ledger(Announce(s, p))
  {
    HoldLedger(s, p);
    EmitStartLedger(s.(starts := Hold(s.starts, p), seen := s.seen + [p.call]), p);
  }

  lemma HandleToolCallLedger(u: Update, s: State)
    requires Ledger(s) && u.kind.ToolCall? && !AlreadyAnnounced(u, s)
    ensures Ledger(HandleToolCall(u, s))
  {
    if s.w.turn.Some? && u.toolCallId.Some? {
      FlushTextLedger(s);
      var s0 := FlushText(s);
      ResolveLedger(u, s0);
      var (sub, s1) := Resolve(u, s0);
      var call := s1.ids[u.toolCallId.value];
      AnnounceLedger(s1, PendingStart(s.w.turn.value, call, sub, ToolName(u), u.title, u.args, ToolRisk(u)));
    }
  }

  lemma RefineHeldLedger(u: Update, call: Id, s: State)
    requires Ledger(s) && s.w.turn.Some?
    ensures Ledger(RefineHeld(u, call, s))
  {
    HeldCalls(s.starts, call);
    HeldTurn(s, call);
    var held := Held(s.starts, call);
    if held.Some? {
      var p := Refine(held.value, u);
      HoldTidy(s, p);
      HoldCalls(s.starts, p);
      var s1 := s.(starts := Hold(s.starts, p));
      FlushTextLedger(s1);
      EmitStartLedger(FlushText(s1), p);
    }
  }

  lemma ShowHeldLedger(u: Update, call: Id, s: State)
    requires Ledger(s) && s.w.turn.Some?
    ensures Ledger(ShowHeld(u, call, s))
    ensures call !in Calls(ShowHeld(u, call, s).starts) && ShowHeld(u, call, s).seen == s.seen
  {
    FlushTextLedger(s);
    var s1 := FlushText(s);
    HeldCalls(s1.starts, call);
    HeldTurn(s1, call);
    var held := Held(s1.starts, call);
    if held.Some? {
      EmitStartLedger(s1, Refine(held.value, u));
    }
  }

  lemma BeforeEndLedger(u: Update, call: Id, s: State)
    requires Ledger(s) && s.w.turn.Some?
    ensures Ledger(BeforeEnd(u, call, s))
    ensures call !in Calls(BeforeEnd(u, call, s).starts) && BeforeEnd(u, call, s).seen == s.seen
  {
    ShowHeldLedger(u, call, s);
    var s1 := ShowHeld(u, call, s);
    StopSubTraced(s1.w, s.w.turn.value, Some(call));
    StopSubShown(s1.w, s.w.turn.value, Some(call));
    ResolveLedger(u, s1.(w := StopSub(s1.w, s.w.turn.value, Some(call))));
  }

  // The tool end, in the scope its update resolves to.
  function EndOf(u: Update, call: Id, s: State): Envelope
    requires s.w.turn.Some?
  {
    AgentIn(ToolEnd(call, u.status.Succeeded?, u.output), s.w.turn.value, Resolve(u, s).0)
  }

  lemma ResolveShown(u: Update, s: State, t: State)
    requires t.ids == s.ids && t.subOf == s.subOf && t.nextId == s.nextId
    ensures Resolve(u, t).0 == Resolve(u, s).0
  {
  }

  lemma FinishCallEnds(u: Update, call: Id, s: State)
    requires s.w.turn.Some?
    ensures var t := BeforeEnd(u, call, s); FinishCall(u, call, s) == t.(w := Put(t.w, EndOf(u, call, s)))
  {
    var s1 := ShowHeld(u, call, s);
    ResolveShown(u, s, s1.(w := StopSub(s1.w, s.w.turn.value, Some(call))));
  }

  // A terminal update writes its tool end last, after the start of the same call.
  lemma FinishCallLedger(u: Update, call: Id, s: State)
    requires Ledger(s) && s.w.turn.Some?
    ensures Ledger(FinishCall(u, call, s))
    ensures FinishCall(u, call, s).w.log == BeforeEnd(u, call, s).w.log + [EndOf(u, call, s)]
    ensures call in s.seen ==> call in Shown(BeforeEnd(u, call, s).w.log)
  {
    BeforeEndLedger(u, call, s);
    FinishCallTidy(u, call, s);
    FinishCallEnds(u, call, s);
    var t := BeforeEnd(u, call, s);
    var e := EndOf(u, call, s);
    ShownPut(t.w, e);
    if call in s.seen {
      assert call in multiset(s.seen);
    }
  }

  lemma HandleTextLedger(u: Update, thinking: bool, s: State)
    requires Ledger(s)
    ensures Ledger(HandleText(u, thinking, s))
  {
    HandleTextTidy(u, thinking, s);
    ResolveLedger(u, s);
    FlushTextLedger(Resolve(u, s).1);
  }

  lemma HandleToolCallUpdateLedger(u: Update, s: State)
    requires Ledger(s)
    ensures Ledger(HandleToolCallUpdate(u, s))
  {
    if s.w.turn.Some? && u.toolCallId.Some? {
      var s1 := Mint(s, u.toolCallId.value);
      var call := s1.ids[u.toolCallId.value];
      if u.status.Unfinished? {
        RefineHeldLedger(u, call, s1);
      } else {
        FinishCallLedger(u, call, s1);
      }
    }
  }

  lemma MapUpdateLedger(u: Update, s: State)
    requires Ledger(s) && (Announces(u, s) ==> !AlreadyAnnounced(u, s))
    ensures Ledger(MapUpdate(u, s))
  {
    match u.kind {
      case MessageChunk => HandleTextLedger(u, false, s);
      case ThoughtChunk => HandleTextLedger(u, true, s);
      case ToolCall => if Announces(u, s) { HandleToolCallLedger(u, s); }
      case ToolCallUpdate => HandleToolCallUpdateLedger(u, s);
      case PlanUpdate => HandlePlanLedger(u, s);
      case Unmapped =>
    }
  }

  lemma HandlePlanLedger(u: Update, s: State)
    requires Ledger(s)
    ensures Ledger(HandlePlan(u, s))
  {
    HandlePlanTidy(u, s);
    if s.w.turn.Some? {
      ResolveLedger(u, s);
      ShownPut(s.w, AgentIn(Plan(u.steps), s.w.turn.value, Resolve(u, s).0));
    }
  }

  // What the transport must respect: turns do not begin inside turns, and a call is announced once
  // per turn.
  predicate Allowed(s: State, i: Input) {
    match i
    case Notify(u) => Announces(u, s) ==> !AlreadyAnnounced(u, s)
    case BeginTurn => s.w.turn.None?
    case _ => true
  }

  predicate AllowedRun(s: State, inputs: seq<Input>)
    decreases |inputs|
  {
    inputs == [] || (Allowed(s, inputs[0]) && AllowedRun(Step(s, inputs[0]), inputs[1..]))
  }

  lemma {:induction false} RunLedger(s: State, inputs: seq<Input>)
    requires Ledger(s) && AllowedRun(s, inputs)
    ensures Ledger(Run(s, inputs))
    decreases |inputs|
  {
    if inputs != [] {
      match inputs[0] {
        case Notify(u) => MapUpdateLedger(u, s);
        case FlushNow => FlushTextLedger(s);
        case BeginTurn => StartTurnLedger(s);
        case FinishTurn(status) => CloseTurnLedger(s, status);
      }
      RunLedger(Step(s, inputs[0]), inputs[1..]);
    }
  }

  // Main result: at any moment the calls announced in the open turn are the shown ones plus the held
  // ones, each exactly once; when no turn is open they have all been shown.
  lemma CallsConserved(inputs: seq<Input>)
    requires AllowedRun(INITIAL, inputs)
    ensures var s := Run(INITIAL, inputs);
            multiset(Shown(s.w.log)) + multiset(Calls(s.starts)) == multiset(s.seen) && Distinct(s.seen) &&
            (s.w.turn.None? ==> multiset(Shown(s.w.log)) == multiset(s.seen))
  {
    InitialTidy();
    RunLedger(INITIAL, inputs);
  }

  // --- text before tools ---

  lemma FinishCallExtends(u: Update, call: Id, s: State)
    requires s.w.turn.Some?
    ensures FlushText(s).w.log <= FinishCall(u, call, s).w.log && FinishCall(u, call, s).text.None?
  {
  }

  lemma RefineHeldExtends(u: Update, call: Id, s: State)
    ensures var t := RefineHeld(u, call, s);
            t.w.log == s.w.log || (FlushText(s).w.log <= t.w.log && t.text.None?)
  {
  }

  lemma HandleToolCallExtends(u: Update, s: State)
    ensures var t := HandleToolCall(u, s);
            t.w.log == s.w.log || (FlushText(s).w.log <= t.w.log && t.text.None?)
  {
  }

  // Main result: whenever a tool notification writes anything, the text received before it is
  // written first and nothing of it stays behind.
  lemma TextComesFirst(u: Update, s: State)
    requires u.kind.ToolCall? || u.kind.ToolCallUpdate?
    ensures var t := MapUpdate(u, s);
            t.w.log == s.w.log || (FlushText(s).w.log <= t.w.log && t.text.None?)
  {
    HandleToolCallExtends(u, s);
    if s.w.turn.Some? && u.toolCallId.Some? {
      var s1 := Mint(s, u.toolCallId.value);
      RefineHeldExtends(u, s1.ids[u.toolCallId.value], s1);
      FinishCallExtends(u, s1.ids[u.toolCallId.value], s1);
      assert FlushText(s1).w == FlushText(s).w;
    }
  }
}
