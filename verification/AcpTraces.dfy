// The ACP mapper writes a well-formed trace and shows every announced call exactly once, as long as
// turns are not begun inside turns.
module AcpTraces {
  import opened Wrappers
  import opened Wire
  import opened Scopes
  import opened AcpMapper

  // Calls named by the held starts, in order.
  function Calls(starts: seq<PendingStart>): seq<Id> {
    if starts == [] then [] else [starts[0].call] + Calls(starts[1..])
  }

  predicate StartsIn(starts: seq<PendingStart>, turn: Id) {
    starts == [] || (starts[0].turn == turn && StartsIn(starts[1..], turn))
  }

  // Whatever is buffered belongs to the open turn.
  ghost predicate Tidy(s: State) {
    Traced(s.w) &&
    (s.text.Some? ==> s.w.turn == Some(s.text.value.turn)) &&
    (if s.w.turn.Some? then StartsIn(s.starts, s.w.turn.value) else s.starts == []) &&
    Distinct(Calls(s.starts))
  }

  // --- the held starts ---

  lemma {:induction false} DropCalls(starts: seq<PendingStart>, call: Id)
    requires Distinct(Calls(starts))
    ensures Distinct(Calls(Drop(starts, call)))
    ensures forall c :: c in Calls(Drop(starts, call)) <==> c in Calls(starts) && c != call
    ensures multiset(Calls(starts))
         == multiset(Calls(Drop(starts, call))) + (if call in Calls(starts) then multiset{call} else multiset{})
  {
    if starts != [] {
      var rest := starts[1..];
      DropCalls(rest, call);
      assert Calls(starts) == [starts[0].call] + Calls(rest);
      if starts[0].call != call {
        assert ([starts[0]] + Drop(rest, call))[1..] == Drop(rest, call);
        assert Calls(Drop(starts, call)) == [starts[0].call] + Calls(Drop(rest, call));
      }
    }
  }

  // Dropping, replacing and looking up stay within one turn.
  lemma {:induction false} TurnKept(starts: seq<PendingStart>, call: Id, p: PendingStart)
    requires StartsIn(starts, p.turn)
    ensures StartsIn(Drop(starts, call), p.turn) && StartsIn(Hold(starts, p), p.turn)
    ensures Held(starts, call).Some? ==> Held(starts, call).value.turn == p.turn
  {
    if starts != [] {
      TurnKept(starts[1..], call, p);
      assert ([starts[0]] + Drop(starts[1..], call))[1..] == Drop(starts[1..], call);
      assert ([starts[0]] + Hold(starts[1..], p))[1..] == Hold(starts[1..], p);
      assert ([p] + starts[1..])[1..] == starts[1..];
    }
  }

  lemma {:induction false} HoldCalls(starts: seq<PendingStart>, p: PendingStart)
    requires Distinct(Calls(starts))
    ensures Distinct(Calls(Hold(starts, p)))
    ensures p.call in Calls(starts) ==> Calls(Hold(starts, p)) == Calls(starts)
    ensures p.call !in Calls(starts) ==> Calls(Hold(starts, p)) == Calls(starts) + [p.call]
    ensures Held(Hold(starts, p), p.call) == Some(p)
  {
    if starts != [] {
      if starts[0].call == p.call {
        assert ([p] + starts[1..])[1..] == starts[1..];
      } else {
        HoldCalls(starts[1..], p);
        var rest := Hold(starts[1..], p);
        assert ([starts[0]] + rest)[1..] == rest;
      }
    }
  }

  lemma {:induction false} HeldCalls(starts: seq<PendingStart>, call: Id)
    ensures Held(starts, call).Some? <==> call in Calls(starts)
    ensures Held(starts, call).Some? ==> Held(starts, call).value.call == call
  {
    if starts != [] {
      HeldCalls(starts[1..], call);
    }
  }

  // --- well-formed traces ---

  lemma FlushTextTidy(s: State)
    requires Tidy(s)
    ensures Tidy(FlushText(s)) && s.w.started <= FlushText(s).w.started
  {
    if s.text.Some? && Join(s.text.value.parts) != "" {
      var run := s.text.value;
      StartSubTraced(s.w, run.turn, run.sub);
      PutInScope(StartSub(s.w, run.turn, run.sub), Text(Join(run.parts), run.thinking), run.turn, run.sub);
    }
  }

  lemma EmitStartTidy(s: State, p: PendingStart)
    requires Tidy(s) && s.w.turn == Some(p.turn)
    ensures Tidy(EmitStart(s, p))
  {
    StartSubTraced(s.w, p.turn, p.sub);
    PutInScope(StartSub(s.w, p.turn, p.sub), ToolStart(p.call, p.name, p.title, p.args, p.risk), p.turn, p.sub);
    DropCalls(s.starts, p.call);
    TurnKept(s.starts, p.call, p);
  }

  lemma {:induction false} FlushStartsTidy(s: State)
    requires Tidy(s)
    ensures Tidy(FlushStarts(s))
    decreases |s.starts|
  {
    if s.starts != [] {
      EmitStartTidy(s, s.starts[0]);
      FlushStartsTidy(EmitStart(s, s.starts[0]));
    }
  }

  lemma CloseTurnTidy(s: State, status: Status)
    requires Tidy(s)
    ensures Tidy(CloseTurn(s, status)) && CloseTurn(s, status).w.turn.None?
  {
    FlushTextTidy(s);
    FlushStartsTidy(FlushText(s));
    if s.w.turn.Some? {
      EndTurnTraced(FlushStarts(FlushText(s)).w, status);
    }
  }

  lemma StartTurnTidy(s: State)
    requires Tidy(s) && s.w.turn.None?
    ensures Tidy(StartTurn(s))
  {
    OpenTurnTraced(s.w, s.nextId);
  }

  lemma HandlePlanTidy(u: Update, s: State)
    requires Tidy(s)
    ensures Tidy(HandlePlan(u, s))
  {
    if s.w.turn.Some? {
      PutTraced(s.w, AgentIn(Plan(u.steps), s.w.turn.value, Resolve(u, s).0));
    }
  }

  lemma HoldTidy(s: State, p: PendingStart)
    requires Tidy(s) && s.w.turn == Some(p.turn)
    ensures Tidy(s.(starts := Hold(s.starts, p)))
  {
    HoldCalls(s.starts, p);
    TurnKept(s.starts, p.call, p);
  }

  lemma AnnounceTidy(s: State, p: PendingStart)
    requires Tidy(s) && s.w.turn == Some(p.turn)
    ensures Tidy(Announce(s, p))
  {
    HoldTidy(s, p);
    EmitStartTidy(s.(starts := Hold(s.starts, p), seen := s.seen + [p.call]), p);
  }

  lemma HandleToolCallTidy(u: Update, s: State)
    requires Tidy(s)
    ensures Tidy(HandleToolCall(u, s))
  {
    if s.w.turn.Some? && u.toolCallId.Some? {
      FlushTextTidy(s);
      var (sub, s1) := Resolve(u, FlushText(s));
      var s2 := Mint(s1, u.toolCallId.value);
      var call := s2.ids[u.toolCallId.value];
      AnnounceTidy(s2, PendingStart(s.w.turn.value, call, sub, ToolName(u), u.title, u.args, ToolRisk(u)));
    }
  }

  lemma HeldTurn(s: State, call: Id)
    requires Tidy(s) && s.w.turn.Some?
    ensures Held(s.starts, call).Some? ==> s.w.turn == Some(Held(s.starts, call).value.turn)
  {
    TurnKept(s.starts, call, PendingStart(s.w.turn.value, call, None, "", None, "", None));
  }

  lemma RefineHeldTidy(u: Update, call: Id, s: State)
    requires Tidy(s) && s.w.turn.Some?
    ensures Tidy(RefineHeld(u, call, s))
  {
    HeldCalls(s.starts, call);
    HeldTurn(s, call);
    var held := Held(s.starts, call);
    if held.Some? {
      var p := Refine(held.value, u);
      HoldTidy(s, p);
      var s1 := s.(starts := Hold(s.starts, p));
      FlushTextTidy(s1);
      EmitStartTidy(FlushText(s1), p);
    }
  }

  // FinishCall up to, but not including, its tool end.
  function BeforeEnd(u: Update, call: Id, s: State): (r: State)
    requires s.w.turn.Some?
    ensures r.w.turn == s.w.turn && r.text.None?
  {
    var s1 := ShowHeld(u, call, s);
    Resolve(u, s1.(w := StopSub(s1.w, s.w.turn.value, Some(call)))).1
  }

  lemma ShowHeldTidy(u: Update, call: Id, s: State)
    requires Tidy(s) && s.w.turn.Some?
    ensures Tidy(ShowHeld(u, call, s))
  {
    FlushTextTidy(s);
    var s1 := FlushText(s);
    HeldCalls(s1.starts, call);
    HeldTurn(s1, call);
    var held := Held(s1.starts, call);
    if held.Some? {
      EmitStartTidy(s1, Refine(held.value, u));
    }
  }

  lemma BeforeEndTidy(u: Update, call: Id, s: State)
    requires Tidy(s) && s.w.turn.Some?
    ensures Tidy(BeforeEnd(u, call, s))
  {
    ShowHeldTidy(u, call, s);
    StopSubTraced(ShowHeld(u, call, s).w, s.w.turn.value, Some(call));
  }

  lemma FinishCallTidy(u: Update, call: Id, s: State)
    requires Tidy(s) && s.w.turn.Some?
    ensures Tidy(FinishCall(u, call, s))
  {
    BeforeEndTidy(u, call, s);
    var t := BeforeEnd(u, call, s);
    var e := FinishCall(u, call, s).w.log[|t.w.log|];
    assert FinishCall(u, call, s) == t.(w := Put(t.w, e));
    PutTraced(t.w, e);
  }

  lemma HandleTextTidy(u: Update, thinking: bool, s: State)
    requires Tidy(s)
    ensures Tidy(HandleText(u, thinking, s))
  {
    FlushTextTidy(Resolve(u, s).1);
  }

  lemma HandleToolCallUpdateTidy(u: Update, s: State)
    requires Tidy(s)
    ensures Tidy(HandleToolCallUpdate(u, s))
  {
    if s.w.turn.Some? && u.toolCallId.Some? {
      var s1 := Mint(s, u.toolCallId.value);
      if u.status.Unfinished? {
        RefineHeldTidy(u, s1.ids[u.toolCallId.value], s1);
      } else {
        FinishCallTidy(u, s1.ids[u.toolCallId.value], s1);
      }
    }
  }

  lemma MapUpdateTidy(u: Update, s: State)
    requires Tidy(s)
    ensures Tidy(MapUpdate(u, s))
  {
    match u.kind {
      case MessageChunk => HandleTextTidy(u, false, s);
      case ThoughtChunk => HandleTextTidy(u, true, s);
      case ToolCall => HandleToolCallTidy(u, s);
      case ToolCallUpdate => HandleToolCallUpdateTidy(u, s);
      case PlanUpdate => HandlePlanTidy(u, s);
      case Unmapped =>
    }
  }

  lemma StepTidy(s: State, i: Input)
    requires Tidy(s) && (i.BeginTurn? ==> s.w.turn.None?)
    ensures Tidy(Step(s, i))
  {
    match i {
      case Notify(u) => MapUpdateTidy(u, s);
      case FlushNow => FlushTextTidy(s);
      case BeginTurn => StartTurnTidy(s);
      case FinishTurn(status) => CloseTurnTidy(s, status);
    }
  }

  lemma InitialTidy()
    ensures Tidy(INITIAL)
  {
    BlankTraced();
  }
}
