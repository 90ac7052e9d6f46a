// Nothing is lost or mapped twice by the Claude mapper, whatever the transcript says.
module ClaudeConservation {
  import opened Wrappers
  import opened Wire
  import opened Scopes
  import opened ClaudeMapper

  function Messages(xs: seq<Mapped>): seq<Message> {
    seq(|xs|, i requires 0 <= i < |xs| => xs[i].m)
  }

  // Every message the mapper ever took in is in exactly one of these places.
  ghost function Pool(s: State): multiset<Message> {
    multiset(Messages(s.mapped)) + s.discarded + Contents(s.buffers)
  }

  // A buffered message waits for a call whose identity was never minted, and the log brackets its
  // turns correctly with the mapper's own idea of the open turn.
  ghost predicate Sound(s: State) {
    (forall p :: p in s.buffers ==> p !in s.subIds && s.buffers[p] != []) && Bracketed(s.w)
  }

  lemma SamePoolsSound(s: State, t: State)
    requires Sound(s) && SamePools(s, t) && Bracketed(t.w)
    ensures Sound(t) && Pool(t) == Pool(s)
  {
  }

  // Writing one envelope that is not a turn bracket.
  lemma EmitSound(s: State, e: Envelope)
    requires Sound(s) && !e.ev.TurnStart? && !e.ev.TurnEnd?
    ensures Sound(Emit(s, e)) && Pool(Emit(s, e)) == Pool(s)
  {
    PutBracketed(s.w, e);
  }

  lemma OpenScopeSound(s: State, turn: Id, sub: Option<Id>)
    requires Sound(s)
    ensures Sound(OpenScope(s, turn, sub)) && Pool(OpenScope(s, turn, sub)) == Pool(s)
  {
    StartSubBracketed(s.w, turn, sub);
  }

  lemma CloseTurnSound(s: State, status: Status)
    requires Sound(s)
    ensures Sound(CloseTurn(s, status)) && Pool(CloseTurn(s, status)) == Pool(s)
  {
    if s.w.turn.Some? {
      EndTurnBracketed(s.w, status);
    }
  }

  lemma EnsureTurnSound(s: State)
    requires Sound(s)
    ensures Sound(EnsureTurn(s)) && Pool(EnsureTurn(s)) == Pool(s)
  {
    if s.w.turn.None? {
      OpenTurnBracketed(s.w, s.nextId);
    }
  }

  lemma {:induction false} EmitImagesBracketed(s: State, images: seq<ImageSource>, turn: Id, sub: Option<Id>)
    requires Bracketed(s.w)
    ensures Bracketed(EmitImages(s, images, turn, sub).w)
    decreases |images|
  {
    if images != [] {
      var e := AgentIn(ImageEvent(images[0]), turn, sub);
      PutBracketed(s.w, e);
      EmitImagesBracketed(Emit(s, e), images[1..], turn, sub);
    }
  }

  lemma EndToolCallBracketed(b: Block, p: ProviderId, turn: Id, sub: Option<Id>, s: State)
    requires b.ToolResult? && Bracketed(s.w)
    ensures Bracketed(EndToolCall(b, p, turn, sub, s).w)
  {
    var s1 := MintCall(s, p);
    var e := AgentIn(ToolEnd(s1.callIds[p], !b.isError, b.output), turn, sub);
    PutBracketed(s1.w, e);
    EmitImagesBracketed(Emit(s1, e), b.images, turn, sub);
  }

  lemma ToolResultBracketed(b: Block, turn: Id, sub: Option<Id>, s: State)
    requires b.ToolResult? && Bracketed(s.w)
    ensures Bracketed(ToolResultBlock(b, turn, sub, s).w)
  {
    if b.callId.Some? {
      var p := Raw(b.callId.value);
      var stopped := if p in s.subIds then Some(s.subIds[p]) else None;
      StopSubBracketed(s.w, turn, stopped);
      EndToolCallBracketed(b, p, turn, sub, s.(w := StopSub(s.w, turn, stopped)));
    }
  }

  lemma {:induction false} ResultBlocksBracketed(blocks: seq<Block>, turn: Id, sub: Option<Id>, s: State)
    requires Bracketed(s.w)
    ensures Bracketed(ResultBlocks(blocks, turn, sub, s).w)
    decreases |blocks|
  {
    if blocks != [] {
      match blocks[0] {
        case ToolResult(_, _, _, _) => ToolResultBracketed(blocks[0], turn, sub, s);
        case TextBlock(text) => PutBracketed(s.w, AgentIn(Text(text.raw, false), turn, sub));
        case ImageBlock(source) => if source.Some? { PutBracketed(s.w, AgentIn(ImageEvent(source.value), turn, sub)); }
        case _ =>
      }
      ResultBlocksBracketed(blocks[1..], turn, sub, ResultBlock(blocks[0], turn, sub, s));
    }
  }

  lemma {:induction false} UserPromptBracketed(blocks: seq<Block>, s: State)
    requires Bracketed(s.w)
    ensures Bracketed(UserPrompt(blocks, s).w)
    decreases |blocks|
  {
    if blocks != [] {
      match blocks[0] {
        case TextBlock(text) => PutBracketed(s.w, Envelope(User, Text(text.raw, false), None, None));
        case ImageBlock(source) =>
          if source.Some? {
            PutBracketed(s.w, Envelope(User, ImageEvent(source.value), None, None));
          }
        case _ =>
      }
      UserPromptBracketed(blocks[1..], PromptBlock(blocks[0], s));
    }
  }

  lemma MapUserTextSound(m: Message, sub: Option<Id>, s: State)
    requires m.body.UserText? && Sound(s)
    ensures Sound(MapUserText(m, sub, s)) && Pool(MapUserText(m, sub, s)) == Pool(s)
  {
    if m.body.meta || m.body.command.Invocation? {
    } else if m.body.command.Stdout? {
      EmitSound(s, Envelope(Agent, Service(m.body.command.cleaned), None, None));
    } else if m.sidechain {
      EnsureTurnSound(s);
      var s1 := EnsureTurn(s);
      var turn := s1.w.turn.value;
      OpenScopeSound(s1, turn, sub);
      EmitSound(OpenScope(s1, turn, sub), AgentIn(Text(m.body.text.raw, false), turn, sub));
    } else {
      CloseTurnSound(s, Completed);
      EmitSound(CloseTurn(s, Completed), Envelope(User, Text(m.body.text.raw, false), None, None));
    }
  }

  lemma MapUserBlocksSound(m: Message, sub: Option<Id>, s: State)
    requires m.body.UserBlocks? && Sound(s)
    ensures Sound(MapUserBlocks(m, sub, s)) && Pool(MapUserBlocks(m, sub, s)) == Pool(s)
  {
    if !m.sidechain && !HasToolResult(m.body.blocks) {
      CloseTurnSound(s, Completed);
      UserPromptBracketed(m.body.blocks, CloseTurn(s, Completed));
    } else {
      EnsureTurnSound(s);
      var s1 := EnsureTurn(s);
      var turn := s1.w.turn.value;
      OpenScopeSound(s1, turn, sub);
      var s2 := if m.sidechain then OpenScope(s1, turn, sub) else s1;
      ResultBlocksBracketed(m.body.blocks, turn, sub, s2);
      SamePoolsSound(s2, ResultBlocks(m.body.blocks, turn, sub, s2));
    }
  }

  lemma MapFlatSound(m: Message, sub: Option<Id>, s: State)
    requires Sound(s)
    ensures Sound(MapFlat(m, sub, s)) && Pool(MapFlat(m, sub, s)) == Pool(s)
  {
    match m.body {
      case CompactSummary => EmitSound(s, Envelope(Agent, Service("History compacted (/clear)"), None, None));
      case UserText(_, _, _) => MapUserTextSound(m, sub, s);
      case UserBlocks(_, _) => MapUserBlocksSound(m, sub, s);
      case _ =>
    }
  }

  // --- the recursion ---

  lemma BufferSound(m: Message, p: ProviderId, s: State)
    requires Sound(s) && p !in s.subIds
    ensures Sound(BufferMessage(s, p, m))
    ensures Pool(BufferMessage(s, p, m)) == Pool(s) + multiset{m}
  {
  }

  lemma {:induction false} MapMessageSound(m: Message, s: State)
    requires Sound(s)
    ensures Sound(MapMessage(m, s))
    ensures Pool(MapMessage(m, s)) == Pool(s) + multiset{m}
    decreases Waiting(s), 5, 0
  {
    var (p, s1) := Resolve(m, s);
    var s2 := Remember(s1, m, p);
    SamePoolsSound(s, s2);
    if p.Some? && p.value !in s2.subIds {
      BufferSound(m, p.value, s2);
    } else {
      MapResolvedSound(m, p, s2);
    }
  }

  lemma {:induction false} MapResolvedSound(m: Message, p: Option<ProviderId>, s: State)
    requires Sound(s) && (p.Some? ==> p.value in s.subIds)
    ensures Sound(MapResolved(m, p, s)) && Pool(MapResolved(m, p, s)) == Pool(s) + multiset{m}
    decreases Waiting(s), 4, 0
  {
    var sub := if p.Some? then Some(s.subIds[p.value]) else None;
    var s1 := s.(mapped := s.mapped + [Mapped(m, p)]);
    assert Messages(s1.mapped) == Messages(s.mapped) + [m];
    if m.body.Assistant? {
      MapAssistantSound(m.body, sub, s1);
    } else {
      MapFlatSound(m, sub, s1);
    }
  }

  lemma {:induction false} MapAssistantSound(body: Body, sub: Option<Id>, s: State)
    requires body.Assistant? && Sound(s)
    ensures Sound(MapAssistant(body, sub, s)) && Pool(MapAssistant(body, sub, s)) == Pool(s)
    decreases Waiting(s), 3, 0
  {
    EnsureTurnSound(s);
    var s1 := EnsureTurn(s);
    var turn := s1.w.turn.value;
    OpenScopeSound(s1, turn, sub);
    AssistantBlocksSound(body.blocks, turn, sub, OpenScope(s1, turn, sub));
    if body.usage.Some? {
      EmitSound(AssistantBlocks(body.blocks, turn, sub, OpenScope(s1, turn, sub)),
                AgentIn(Usage(body.usage.value.0, body.usage.value.1), turn, sub));
    }
  }

  lemma {:induction false} AssistantBlocksSound(blocks: seq<Block>, turn: Id, sub: Option<Id>, s: State)
    requires Sound(s)
    ensures Sound(AssistantBlocks(blocks, turn, sub, s)) && Pool(AssistantBlocks(blocks, turn, sub, s)) == Pool(s)
    decreases Waiting(s), 2, |blocks|
  {
    if blocks != [] {
      match blocks[0] {
        case TextBlock(text) => EmitSound(s, AgentIn(Text(text.raw, false), turn, sub));
        case ThinkingBlock(text) => EmitSound(s, AgentIn(Text(text, true), turn, sub));
        case ToolUse(_, _, _, _, _) => ToolUseSound(blocks[0], turn, sub, s);
        case _ =>
      }
      AssistantBlocksSound(blocks[1..], turn, sub, AssistantBlock(blocks[0], turn, sub, s));
    }
  }

  lemma StartToolCallBracketed(b: Block, p: ProviderId, turn: Id, sub: Option<Id>, s: State)
    requires b.ToolUse? && Bracketed(s.w)
    ensures Bracketed(StartToolCall(b, p, turn, sub, s).w)
  {
    var s1 := MintCall(s, p);
    var title := Some(ToolTitle(b.name, b.description));
    PutBracketed(s1.w, AgentIn(ToolStart(s1.callIds[p], b.name, title, b.input, ToolRisk(b.name)), turn, sub));
  }

  lemma AnnounceCallBracketed(b: Block, p: ProviderId, turn: Id, sub: Option<Id>, s: State)
    requires b.ToolUse? && Bracketed(s.w)
    ensures Bracketed(AnnounceCall(b, p, turn, sub, s).w)
  {
    if b.name != "Task" {
      StartToolCallBracketed(b, p, turn, sub, s);
    }
  }

  // Detaching a call's children as soon as the call is minted keeps every buffer unminted.
  lemma DetachSound(p: ProviderId, s: State, t: State)
    requires Sound(s) && t.buffers == s.buffers && t.subIds.Keys == s.subIds.Keys + {p} && Bracketed(t.w)
    ensures Sound(Detach(t, p))
  {
  }

  lemma {:induction false} ToolUseSound(b: Block, turn: Id, sub: Option<Id>, s: State)
    requires b.ToolUse? && Sound(s)
    ensures Sound(ToolUseBlock(b, turn, sub, s)) && Pool(ToolUseBlock(b, turn, sub, s)) == Pool(s)
    decreases Waiting(s), 1, 0
  {
    var (s1, p) := IdentifyCall(b, s);
    var s2 := AnnounceCall(b, p, turn, sub, s1);
    AnnounceCallBracketed(b, p, turn, sub, s1);
    DetachSound(p, s, s2);
    ContentsPut(s2.buffers, p, []);
    ReplaySound(Queued(s2.buffers, p), Detach(s2, p));
  }

  lemma {:induction false} ReplaySound(ms: seq<Message>, s: State)
    requires Sound(s)
    ensures Sound(Replay(ms, s)) && Pool(Replay(ms, s)) == Pool(s) + multiset(ms)
    decreases Waiting(s) + |ms|, 0, |ms|
  {
    if ms != [] {
      var s1 := MapMessage(ms[0], s);
      MapMessageSound(ms[0], s);
      ReplaySound(ms[1..], s1);
      AddFirst(Pool(s), ms);
    }
  }

  lemma AddFirst(pool: multiset<Message>, ms: seq<Message>)
    requires ms != []
    ensures (pool + multiset{ms[0]}) + multiset(ms[1..]) == pool + multiset(ms)
  {
    assert ms == [ms[0]] + ms[1..];
  }

  // --- whole runs ---

  function Lines(inputs: seq<Input>): seq<Message> {
    if inputs == [] then []
    else LineOf(inputs[0]) + Lines(inputs[1..])
  }

  function LineOf(i: Input): seq<Message> {
    if i.Line? then [i.m] else []
  }

  lemma {:induction false} RunSound(s: State, inputs: seq<Input>)
    requires Sound(s)
    ensures Sound(Run(s, inputs))
    ensures Pool(Run(s, inputs)) == Pool(s) + multiset(Lines(inputs))
    decreases |inputs|
  {
    if inputs != [] {
      match inputs[0] {
        case Line(m) => MapMessageSound(m, s);
        case ForceClose(status) => CloseTurnSound(s, status);
      }
      RunSound(Step(s, inputs[0]), inputs[1..]);
    }
  }

  // Main result: after any run, the lines read are exactly the mapped ones, the ones a turn close
  // discarded and the ones still waiting, each counted once; and every waiting message waits for a
  // call the mapper has not minted.
  lemma EveryMessageAccountedFor(inputs: seq<Input>)
    ensures var s := Run(INITIAL, inputs);
            multiset(Lines(inputs)) == multiset(Messages(s.mapped)) + s.discarded + Contents(s.buffers) &&
            forall p :: p in s.buffers ==> p !in s.subIds
  {
    RunSound(INITIAL, inputs);
  }

  // Main result: on every run, disciplined or not, turns open and close strictly alternately and
  // every close carries the id of the turn it ends.
  lemma TurnsAlternate(inputs: seq<Input>)
    ensures Brackets(None, Run(INITIAL, inputs).w.log) == Some(Run(INITIAL, inputs).w.turn)
  {
    RunSound(INITIAL, inputs);
  }
}
