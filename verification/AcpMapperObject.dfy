// The ACP mapper and its driver as the program runs them: one mutable mapper state updated by each
// handler, and a session whose callbacks open and close turns. Every method is tied to its
// specification in AcpMapper or AcpDriver.
module AcpMapperObject {
  import opened Wrappers
  import opened Wire
  import opened Scopes
  import opened AcpMapper
  import opened AcpStream
  import opened AcpDriver

  class Mapper {
    var turn: Option<Id>
    var ids: map<string, Id>
    var subOf: map<Id, Id>
    var started: set<Id>
    var active: seq<Id>
    var text: Option<TextRun>
    var starts: seq<PendingStart>
    var nextId: nat
    var log: seq<Envelope>
    ghost var seen: seq<Id>

    ghost function St(): State
      reads this
    {
      State(Writer(turn, started, active, log), ids, subOf, text, starts, nextId, seen)
    }

    constructor ()
      ensures St() == INITIAL
    {
      turn, ids, subOf, started, active := None, map[], map[], {}, [];
      text, starts, nextId, log := None, [], 0, [];
      seen := [];
    }

    method Push(e: Envelope)
      modifies this`log
      ensures log == old(log) + [e]
    {
      log := log + [e];
    }

    method MintId(providerId: string) returns (id: Id)
      modifies this
      ensures St() == Mint(old(St()), providerId) && id == St().ids[providerId]
    {
      if providerId in ids {
        return ids[providerId];
      }
      id := nextId;
      nextId := nextId + 1;
      ids := ids[providerId := id];
    }

    method ResolveSub(u: Update) returns (sub: Option<Id>)
      modifies this
      ensures (sub, St()) == Resolve(u, old(St()))
    {
      if u.parentToolUse.Some? {
        var parent := MintId(u.parentToolUse.value);
        if u.toolCallId.Some? {
          var call := MintId(u.toolCallId.value);
          subOf := subOf[call := parent];
        }
        return Some(parent);
      }
      if u.toolCallId.Some? {
        var call := MintId(u.toolCallId.value);
        return if call in subOf then Some(subOf[call]) else None;
      }
      return None;
    }

    method EmitSubStart(turnId: Id, sub: Option<Id>)
      modifies this
      ensures St() == old(St()).(w := StartSub(old(St()).w, turnId, sub))
    {
      if sub.None? || sub.value in started {
        return;
      }
      Push(AgentIn(SubStart, turnId, sub));
      started := started + {sub.value};
      active := active + [sub.value];
    }

    method EmitSubStop(turnId: Id, sub: Id)
      modifies this
      ensures St() == old(St()).(w := StopSub(old(St()).w, turnId, Some(sub)))
    {
      if sub !in active {
        return;
      }
      Push(AgentIn(SubStop, turnId, Some(sub)));
      active := Without(active, sub);
    }

    method EmitActiveSubStops(turnId: Id)
      modifies this
      ensures St() == old(St()).(w := StopAll(old(St()).w, turnId))
    {
      while active != []
        invariant StopAll(St().w, turnId) == StopAll(old(St()).w, turnId) && St() == old(St()).(w := St().w)
        decreases |active|
      {
        Push(AgentIn(SubStop, turnId, Some(active[0])));
        active := active[1..];
      }
    }

    method FlushPendingText()
      modifies this
      ensures St() == FlushText(old(St()))
    {
      var run := text;
      text := None;
      if run.None? {
        return;
      }
      var md := JoinParts(run.value.parts);
      if md == "" {
        return;
      }
      EmitSubStart(run.value.turn, run.value.sub);
      Push(AgentIn(Text(md, run.value.thinking), run.value.turn, run.value.sub));
    }

    method EmitPendingStart(p: PendingStart)
      modifies this
      ensures St() == EmitStart(old(St()), p)
    {
      starts := Drop(starts, p.call);
      EmitSubStart(p.turn, p.sub);
      Push(AgentIn(ToolStart(p.call, p.name, p.title, p.args, p.risk), p.turn, p.sub));
    }

    method FlushPendingStarts()
      modifies this
      ensures St() == FlushStarts(old(St()))
    {
      while starts != []
        invariant FlushStarts(St()) == FlushStarts(old(St()))
        decreases |starts|
      {
        EmitPendingStart(starts[0]);
      }
    }

    method BeginTurn()
      modifies this
      ensures St() == StartTurn(old(St()))
    {
      turn := Some(nextId);
      Push(AgentIn(TurnStart, nextId, None));
      nextId := nextId + 1;
      seen := [];
    }

    method CloseWithStatus(status: Status)
      modifies this
      ensures St() == CloseTurn(old(St()), status)
    {
      if turn.None? {
        return;
      }
      var turnId := turn.value;
      FlushPendingText();
      FlushPendingStarts();
      ghost var flushed := St();
      EmitActiveSubStops(turnId);
      Push(AgentIn(TurnEnd(status), turnId, None));
      turn := None;
      Clear();
      assert St().w == EndTurn(flushed.w, status);
    }

    // clearMapperState.
    method Clear()
      modifies this
      ensures St() == State(Writer(old(turn), {}, [], old(log)), map[], map[], None, [], old(nextId), old(seen))
    {
      ids, subOf, started, active := map[], map[], {}, [];
      text, starts := None, [];
    }

    method HandleTextChunk(u: Update, thinking: bool)
      modifies this
      ensures St() == HandleText(u, thinking, old(St()))
    {
      if turn.None? || u.text.None? {
        return;
      }
      var sub := ResolveSub(u);
      var run := text;
      if run.Some? && run.value.turn == turn.value && run.value.sub == sub && run.value.thinking == thinking
         && run.value.messageId == u.messageId {
        text := Some(run.value.(parts := run.value.parts + [u.text.value]));
        return;
      }
      FlushPendingText();
      text := Some(TextRun(turn.value, sub, thinking, u.messageId, [u.text.value]));
    }

    method HandlePlanUpdate(u: Update)
      modifies this
      ensures St() == HandlePlan(u, old(St()))
    {
      if turn.None? {
        return;
      }
      var sub := ResolveSub(u);
      Push(AgentIn(Plan(u.steps), turn.value, sub));
    }

    method HandleCall(u: Update)
      modifies this
      ensures St() == HandleToolCall(u, old(St()))
    {
      if turn.None? || u.toolCallId.None? {
        return;
      }
      FlushPendingText();
      var sub := ResolveSub(u);
      var call := MintId(u.toolCallId.value);
      BufferStart(PendingStart(turn.value, call, sub, ToolName(u), u.title, u.args, ToolRisk(u)));
    }

    method BufferStart(p: PendingStart)
      modifies this
      ensures St() == Announce(old(St()), p)
    {
      starts := Hold(starts, p);
      seen := seen + [p.call];
      if p.args != EMPTY_ARGS {
        EmitPendingStart(p);
      }
    }

    method HandleCallUpdate(u: Update)
      modifies this
      ensures St() == HandleToolCallUpdate(u, old(St()))
    {
      if turn.None? || u.toolCallId.None? {
        return;
      }
      var call := MintId(u.toolCallId.value);
      if u.status.Unfinished? {
        RefineStart(u, call);
      } else {
        FinishToolCall(u, call);
      }
    }

    method RefineStart(u: Update, call: Id)
      modifies this
      ensures St() == RefineHeld(u, call, old(St()))
    {
      var held := Held(starts, call);
      if held.None? {
        return;
      }
      var p := Refine(held.value, u);
      starts := Hold(starts, p);
      if p.args == EMPTY_ARGS {
        return;
      }
      FlushPendingText();
      EmitPendingStart(p);
    }

    method FinishToolCall(u: Update, call: Id)
      requires turn.Some?
      modifies this
      ensures St() == FinishCall(u, call, old(St()))
    {
      FlushPendingText();
      var held := Held(starts, call);
      if held.Some? {
        EmitPendingStart(Refine(held.value, u));
      }
      assert St() == ShowHeld(u, call, old(St()));
      EmitSubStop(turn.value, call);
      var sub := ResolveSub(u);
      Push(AgentIn(ToolEnd(call, u.status.Succeeded?, u.output), turn.value, sub));
    }

    method Map(u: Update)
      modifies this
      ensures St() == MapUpdate(u, old(St()))
    {
      match u.kind {
        case MessageChunk => HandleTextChunk(u, false);
        case ThoughtChunk => HandleTextChunk(u, true);
        case ToolCall => HandleCall(u);
        case ToolCallUpdate => HandleCallUpdate(u);
        case PlanUpdate => HandlePlanUpdate(u);
        case Unmapped =>
      }
    }
  }

  method JoinParts(parts: seq<string>) returns (md: string)
    ensures md == Join(parts)
  {
    md := "";
    var i := 0;
    while i < |parts|
      invariant i <= |parts| && md == Join(parts[..i])
    {
      JoinLast(parts[..i], parts[i]);
      assert parts[..i + 1] == parts[..i] + [parts[i]];
      md := md + parts[i];
      i := i + 1;
    }
    assert parts[..i] == parts;
  }

  // The session: closure variables of startAcpRemote, and the callbacks that change them.
  class Session {
    const mapper: Mapper
    var turnQueue: seq<QueuedTurn>
    var phase: Phase
    var startup: Startup
    var stopped: bool
    var finished: bool
    var fatalError: bool
    ghost var sent: seq<QueuedTurn>
    ghost var prompted: seq<QueuedTurn>

    ghost function Dr(): Driver
      reads this, mapper
    {
      Driver(mapper.St(), turnQueue, phase, startup, stopped, finished, fatalError, sent, prompted)
    }

    constructor ()
      ensures Dr() == LAUNCHED && fresh(mapper)
    {
      mapper := new Mapper();
      turnQueue, phase, startup, stopped, finished, fatalError := [], Resting, Pending, false, false, false;
      sent, prompted := [], [];
    }

    method OnSend(next: QueuedTurn)
      modifies this, mapper
      ensures Dr() == React(old(Dr()), Send(next))
    {
      if stopped {
        return;
      }
      mapper.Push(UserText(next));
      turnQueue := turnQueue + [next];
      sent := sent + [next];
      if phase.Resting? {
        phase := AwaitingReady;
      }
    }

    // The drain's loop, from its head to the next await.
    method AdvanceDrain()
      modifies this, mapper
      ensures Dr() == NextTurn(old(Dr()))
    {
      if turnQueue == [] || stopped || fatalError {
        phase := Leaving;
        return;
      }
      prompted := prompted + [turnQueue[0]];
      turnQueue := turnQueue[1..];
      mapper.BeginTurn();
      phase := Prompting;
    }

    method OnStartupSettled(ok: bool)
      requires startup.Pending?
      modifies this, mapper
      ensures Dr() == React(old(Dr()), StartupSettles(ok))
    {
      startup := if ok then Up else Down;
      if !ok && !fatalError {
        fatalError := true;
        mapper.Push(NEVER_STARTED);
      }
    }

    method OnDrainWakes()
      requires phase.AwaitingReady? && !startup.Pending?
      modifies this, mapper
      ensures Dr() == React(old(Dr()), DrainWakes)
    {
      if startup.Down? {
        turnQueue := [];
        phase := Leaving;
        return;
      }
      AdvanceDrain();
    }

    method OnPromptResolved(stopReason: string)
      requires phase.Prompting?
      modifies this, mapper
      ensures Dr() == React(old(Dr()), PromptResolves(stopReason))
    {
      mapper.CloseWithStatus(TurnStatus(stopReason));
      AdvanceDrain();
    }

    method OnPromptRejected()
      requires phase.Prompting?
      modifies this, mapper
      ensures Dr() == React(old(Dr()), PromptRejects)
    {
      mapper.CloseWithStatus(if stopped then Cancelled else Failed);
      AdvanceDrain();
    }

    method OnUpdate(u: Update)
      modifies mapper
      ensures Dr() == React(old(Dr()), AdapterUpdate(u))
    {
      mapper.Map(u);
    }

    method OnError()
      modifies this, mapper
      ensures Dr() == React(old(Dr()), AdapterFails)
    {
      if stopped {
        return;
      }
      fatalError := true;
      mapper.CloseWithStatus(Failed);
      mapper.Push(LOST_AGENT);
    }

    method OnStop()
      modifies this
      ensures Dr() == React(old(Dr()), StopCalled)
    {
      if stopped {
        return;
      }
      stopped := true;
      turnQueue := [];
    }

    method OnStopCompletes()
      requires stopped && !finished && phase.Resting?
      modifies this, mapper
      ensures Dr() == React(old(Dr()), StopCompletes)
    {
      mapper.CloseWithStatus(Cancelled);
      finished := true;
    }
  }
}
