// The mapper as the program runs it: one mutable state object, updated in place, with the replay
// recursion and the block loops. Every method is tied to its specification in ClaudeMapper.
module ClaudeMapperObject {
  import opened Wrappers
  import opened Wire
  import opened Scopes
  import opened ClaudeMapper

  class Mapper {
    var turn: Option<Id>
    var uuidSub: map<string, ProviderId>
    var prompts: map<string, seq<ProviderId>>
    var callIds: map<ProviderId, Id>
    var subIds: map<ProviderId, Id>
    var buffers: map<ProviderId, seq<Message>>
    var hidden: set<ProviderId>
    var started: set<Id>
    var active: seq<Id>
    var nextId: nat
    var log: seq<Envelope>
    ghost var mapped: seq<Mapped>
    ghost var discarded: multiset<Message>

    ghost function St(): State
      reads this
    {
      State(Writer(turn, started, active, log), uuidSub, prompts, callIds, subIds, buffers, hidden, nextId,
            mapped, discarded)
    }

    constructor ()
      ensures St() == INITIAL
    {
      turn, uuidSub, prompts, callIds, subIds, buffers := None, map[], map[], map[], map[], map[];
      hidden, started, active, nextId, log := {}, {}, [], 0, [];
      mapped, discarded := [], multiset{};
    }

    method Push(e: Envelope)
      modifies this`log
      ensures log == old(log) + [e]
    {
      log := log + [e];
    }

    method BeginTurn() returns (turnId: Id)
      modifies this
      ensures St() == EnsureTurn(old(St())) && turn == Some(turnId)
    {
      if turn.Some? {
        return turn.value;
      }
      turnId := nextId;
      nextId := nextId + 1;
      Push(AgentIn(TurnStart, turnId, None));
      turn := Some(turnId);
    }

    method EmitSubStart(turnId: Id, sub: Option<Id>)
      modifies this
      ensures St() == OpenScope(old(St()), turnId, sub)
    {
      if sub.None? || sub.value in started {
        return;
      }
      Push(AgentIn(SubStart, turnId, sub));
      started := started + {sub.value};
      active := active + [sub.value];
    }

    method EmitSubStop(turnId: Id, sub: Option<Id>)
      modifies this
      ensures St() == old(St()).(w := StopSub(old(St()).w, turnId, sub))
    {
      if sub.None? || sub.value !in active {
        return;
      }
      Push(AgentIn(SubStop, turnId, sub));
      active := Without(active, sub.value);
    }

    method EmitAllSubStops(turnId: Id)
      modifies this
      ensures St() == old(St()).(w := StopAll(old(St()).w, turnId))
    {
      while active != []
        invariant StopAll(St().w, turnId) == StopAll(old(St()).w, turnId) && St() == old(St()).(w := St().w)
        decreases |active|
      {
        Push(AgentIn(SubStop, turnId, Some(active[0])));
        active := active[1..];
      }
    }

    method Close(status: Status)
      modifies this
      ensures St() == CloseTurn(old(St()), status)
    {
      if turn.None? {
        return;
      }
      var turnId := turn.value;
      EmitAllSubStops(turnId);
      Push(AgentIn(TurnEnd(status), turnId, None));
      turn := None;
      ForgetIds();
      ForgetBuffers();
      ForgetScopes();
    }

    // clearSubagentTracking, piece by piece.
    method ForgetIds()
      modifies this
      ensures St() == old(St()).(uuidSub := map[], prompts := map[], callIds := map[], subIds := map[])
    {
      uuidSub, prompts, callIds, subIds := map[], map[], map[], map[];
    }

    method ForgetBuffers()
      modifies this
      ensures St() == old(St()).(buffers := map[], discarded := old(discarded + Contents(buffers)))
    {
      discarded := discarded + Contents(buffers);
      buffers := map[];
    }

    method ForgetScopes()
      modifies this
      ensures St() == old(St()).(w := Writer(old(turn), {}, [], old(log)), hidden := {})
    {
      hidden, started, active := {}, {}, [];
    }

    method QueueTask(prompt: string, p: ProviderId)
      modifies this
      ensures St() == QueuePrompt(old(St()), prompt, p)
    {
      var queue := if prompt in prompts then prompts[prompt] else [];
      if p !in queue {
        queue := queue + [p];
      }
      prompts := prompts[prompt := queue];
    }

    method ShiftPrompt(prompt: string) returns (p: ProviderId)
      requires prompt in prompts && prompts[prompt] != []
      modifies this
      ensures p == old(prompts)[prompt][0] && St() == DropFirst(old(St()), prompt)
    {
      p := prompts[prompt][0];
      var rest := prompts[prompt][1..];
      prompts := if rest == [] then prompts - {prompt} else prompts[prompt := rest];
    }

    // The last-resort fallback: scan every prompt, give up on a second candidate.
    method TakeOnlyTask() returns (p: Option<ProviderId>)
      modifies this
      ensures (p, St()) == TakeSoleTask(old(St()))
    {
      var candidate: Option<string> := None;
      var keys := prompts.Keys;
      while keys != {}
        invariant keys <= prompts.Keys && St() == old(St())
        invariant candidate.Some? ==> candidate.value in prompts && candidate.value !in keys
        invariant candidate.Some? ==> prompts[candidate.value] != []
        invariant forall k :: k in prompts && k !in keys && prompts[k] != [] ==> candidate == Some(k)
        decreases keys
      {
        var k :| k in keys;
        keys := keys - {k};
        if prompts[k] != [] {
          if candidate.Some? {
            assert forall s :: !SolePrompt(St(), s);
            return None;
          }
          candidate := Some(k);
        }
      }
      if candidate.None? {
        return None;
      }
      assert SolePrompt(St(), candidate.value);
      var first := ShiftPrompt(candidate.value);
      p := Some(first);
    }

    method ResolveParent(m: Message) returns (p: Option<ProviderId>)
      modifies this
      ensures (p, St()) == Resolve(m, old(St()))
    {
      if m.parentToolUse.Some? {
        return Some(Raw(m.parentToolUse.value));
      }
      if m.parentUuid.Some? && m.parentUuid.value in uuidSub {
        return Some(uuidSub[m.parentUuid.value]);
      }
      if !m.sidechain {
        return None;
      }
      var prompt := RootPrompt(m);
      if prompt.Some? && prompt.value in prompts && prompts[prompt.value] != [] {
        var first := ShiftPrompt(prompt.value);
        return Some(first);
      }
      if m.parentUuid.None? {
        p := TakeOnlyTask();
        return;
      }
      return None;
    }

    method SubIdFor(p: ProviderId)
      modifies this
      ensures St() == MintSub(old(St()), p)
    {
      if p !in subIds {
        subIds := subIds[p := nextId];
        nextId := nextId + 1;
      }
    }

    method CallIdFor(p: ProviderId) returns (call: Id)
      modifies this
      ensures St() == MintCall(old(St()), p) && p in callIds && call == callIds[p]
    {
      if p !in callIds {
        callIds := callIds[p := nextId];
        nextId := nextId + 1;
      }
      call := callIds[p];
    }

    method PushImages(images: seq<ImageSource>, turnId: Id, sub: Option<Id>)
      modifies this
      ensures St() == EmitImages(old(St()), images, turnId, sub)
    {
      for i := 0 to |images|
        invariant EmitImages(St(), images[i..], turnId, sub) == EmitImages(old(St()), images, turnId, sub)
      {
        Push(AgentIn(ImageEvent(images[i]), turnId, sub));
        assert images[i..][1..] == images[i + 1..];
      }
    }

    // mapClaudeToEnvelopes.
    method Map(m: Message)
      modifies this
      ensures St() == MapMessage(m, old(St()))
      decreases Waiting(St()), 5, 0
    {
      var p := ResolveParent(m);
      var sub := if p.Some? && p.value in subIds then Some(subIds[p.value]) else None;
      if p.Some? && m.uuid.Some? {
        uuidSub := uuidSub[m.uuid.value := p.value];
      }
      if p.Some? && sub.None? {
        buffers := buffers[p.value := (if p.value in buffers then buffers[p.value] else []) + [m]];
        return;
      }
      MapBody(m, p, sub);
    }

    method MapBody(m: Message, ghost p: Option<ProviderId>, sub: Option<Id>)
      requires if p.Some? then p.value in subIds && sub == Some(subIds[p.value]) else sub.None?
      modifies this
      ensures St() == MapResolved(m, p, old(St()))
      decreases Waiting(St()), 4, 0
    {
      mapped := mapped + [Mapped(m, p)];
      if m.body.Assistant? {
        MapAssistantBody(m.body, sub);
      } else {
        MapFlatBody(m, sub);
      }
    }

    method MapFlatBody(m: Message, sub: Option<Id>)
      requires !m.body.Assistant?
      modifies this
      ensures St() == MapFlat(m, sub, old(St()))
    {
      match m.body {
        case CompactSummary => Push(Envelope(Agent, Service("History compacted (/clear)"), None, None));
        case UserText(_, _, _) => MapText(m, sub);
        case UserBlocks(meta, blocks) => if !meta && blocks != [] { MapResultBlocks(m, sub); }
        case _ =>
      }
    }

    method MapAssistantBody(body: Body, sub: Option<Id>)
      requires body.Assistant?
      modifies this
      ensures St() == MapAssistant(body, sub, old(St()))
      decreases Waiting(St()), 3, 0
    {
      var turnId := BeginTurn();
      EmitSubStart(turnId, sub);
      MapAssistantBlocks(body.blocks, turnId, sub);
      if body.usage.Some? {
        Push(AgentIn(Usage(body.usage.value.0, body.usage.value.1), turnId, sub));
      }
    }

    method MapAssistantBlocks(blocks: seq<Block>, turnId: Id, sub: Option<Id>)
      modifies this
      ensures St() == AssistantBlocks(blocks, turnId, sub, old(St()))
      decreases Waiting(St()), 2, |blocks|
    {
      for i := 0 to |blocks|
        invariant AssistantBlocks(blocks[i..], turnId, sub, St()) == AssistantBlocks(blocks, turnId, sub, old(St()))
        invariant Waiting(St()) <= Waiting(old(St()))
      {
        assert blocks[i..][1..] == blocks[i + 1..];
        MapAssistantBlock(blocks[i], turnId, sub);
      }
    }

    method MapAssistantBlock(b: Block, turnId: Id, sub: Option<Id>)
      modifies this
      ensures St() == AssistantBlock(b, turnId, sub, old(St()))
      decreases Waiting(St()), 2, 0
    {
      match b {
        case TextBlock(text) => Push(AgentIn(Text(text.raw, false), turnId, sub));
        case ThinkingBlock(text) => Push(AgentIn(Text(text, true), turnId, sub));
        case ToolUse(_, _, _, _, _) => MapToolUse(b, turnId, sub);
        case _ =>
      }
    }

    method MapToolUse(b: Block, turnId: Id, sub: Option<Id>)
      requires b.ToolUse?
      modifies this
      ensures St() == ToolUseBlock(b, turnId, sub, old(St()))
      decreases Waiting(St()), 1, 0
    {
      var p;
      if b.id.Some? {
        p := Raw(b.id.value);
      } else {
        p := Made(nextId);
        nextId := nextId + 1;
      }
      SubIdFor(p);
      assert (St(), p) == IdentifyCall(b, old(St()));
      Announce(b, p, turnId, sub);
      var queue := if p in buffers then buffers[p] else [];
      ContentsPut(buffers, p, []);
      buffers := buffers - {p};
      ReplayAll(queue);
    }

    method Announce(b: Block, p: ProviderId, turnId: Id, sub: Option<Id>)
      requires b.ToolUse?
      modifies this
      ensures St() == AnnounceCall(b, p, turnId, sub, old(St()))
    {
      if b.name == "Task" {
        if b.prompt.Some? {
          QueueTask(b.prompt.value, p);
        }
        hidden := hidden + {p};
      } else {
        var call := CallIdFor(p);
        var title := Some(ToolTitle(b.name, b.description));
        Push(AgentIn(ToolStart(call, b.name, title, b.input, ToolRisk(b.name)), turnId, sub));
      }
    }

    method ReplayAll(queue: seq<Message>)
      modifies this
      ensures St() == Replay(queue, old(St()))
      decreases Waiting(St()) + |queue|, 0, |queue|
    {
      for i := 0 to |queue|
        invariant Replay(queue[i..], St()) == Replay(queue, old(St()))
        invariant Waiting(St()) <= Waiting(old(St())) + i
      {
        assert queue[i..][1..] == queue[i + 1..];
        Map(queue[i]);
      }
    }

    method MapText(m: Message, sub: Option<Id>)
      requires m.body.UserText?
      modifies this
      ensures St() == MapUserText(m, sub, old(St()))
    {
      if m.body.meta || m.body.command.Invocation? {
        return;
      }
      if m.body.command.Stdout? {
        Push(Envelope(Agent, Service(m.body.command.cleaned), None, None));
      } else if m.sidechain {
        var turnId := BeginTurn();
        EmitSubStart(turnId, sub);
        Push(AgentIn(Text(m.body.text.raw, false), turnId, sub));
      } else {
        Close(Completed);
        Push(Envelope(User, Text(m.body.text.raw, false), None, None));
      }
    }

    method MapResultBlocks(m: Message, sub: Option<Id>)
      requires m.body.UserBlocks?
      modifies this
      ensures St() == MapUserBlocks(m, sub, old(St()))
    {
      if !m.sidechain && !HasToolResult(m.body.blocks) {
        Close(Completed);
        PushPrompt(m.body.blocks);
        return;
      }
      var turnId := BeginTurn();
      if m.sidechain {
        EmitSubStart(turnId, sub);
      }
      PushResults(m.body.blocks, turnId, sub);
    }

    method PushPrompt(blocks: seq<Block>)
      modifies this
      ensures St() == UserPrompt(blocks, old(St()))
    {
      for i := 0 to |blocks|
        invariant UserPrompt(blocks[i..], St()) == UserPrompt(blocks, old(St()))
      {
        assert blocks[i..][1..] == blocks[i + 1..];
        match blocks[i] {
          case TextBlock(text) => if text.trimmed != [] { Push(Envelope(User, Text(text.raw, false), None, None)); }
          case ImageBlock(source) => if source.Some? { Push(Envelope(User, ImageEvent(source.value), None, None)); }
          case _ =>
        }
      }
    }

    method PushResults(blocks: seq<Block>, turnId: Id, sub: Option<Id>)
      modifies this
      ensures St() == ResultBlocks(blocks, turnId, sub, old(St()))
    {
      for i := 0 to |blocks|
        invariant ResultBlocks(blocks[i..], turnId, sub, St()) == ResultBlocks(blocks, turnId, sub, old(St()))
      {
        assert blocks[i..][1..] == blocks[i + 1..];
        match blocks[i] {
          case ToolResult(_, _, _, _) => MapToolResult(blocks[i], turnId, sub);
          case TextBlock(text) => if text.trimmed != [] { Push(AgentIn(Text(text.raw, false), turnId, sub)); }
          case ImageBlock(source) => if source.Some? { Push(AgentIn(ImageEvent(source.value), turnId, sub)); }
          case _ =>
        }
      }
    }

    method MapToolResult(b: Block, turnId: Id, sub: Option<Id>)
      requires b.ToolResult?
      modifies this
      ensures St() == ToolResultBlock(b, turnId, sub, old(St()))
    {
      if b.callId.None? {
        return;
      }
      var p := Raw(b.callId.value);
      EmitSubStop(turnId, if p in subIds then Some(subIds[p]) else None);
      if p in hidden {
        hidden := hidden - {p};
        return;
      }
      var call := CallIdFor(p);
      Push(AgentIn(ToolEnd(call, !b.isError, b.output), turnId, sub));
      PushImages(b.images, turnId, sub);
    }
  }
}
