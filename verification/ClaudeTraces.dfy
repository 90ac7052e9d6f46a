// The Claude mapper's whole trace is well formed exactly as long as no line breaks in on a subagent:
// the condition on one line is a check on the line and the state before it.
module ClaudeTraces {
  import opened Wrappers
  import opened Wire
  import opened Scopes
  import opened ClaudeMapper
  import opened ClaudeConservation

  // --- the condition ---

  // Some text block of a user message would be written.
  predicate Speaks(blocks: seq<Block>) {
    blocks != [] && ((blocks[0].TextBlock? && blocks[0].text.trimmed != []) || Speaks(blocks[1..]))
  }

  // A human prompt, which ends the open turn.
  predicate Prompt(m: Message) {
    !m.sidechain &&
    match m.body
    case UserText(meta, _, command) => !meta && command.Plain?
    case UserBlocks(meta, blocks) => !meta && blocks != [] && !HasToolResult(blocks)
    case _ => false
  }

  // Tool results are written without starting the subagent they belong to; text beside them needs it.
  predicate Mixed(m: Message) {
    !m.sidechain && m.body.UserBlocks? && !m.body.meta && HasToolResult(m.body.blocks) && Speaks(m.body.blocks)
  }

  // A message that can wait for its call: released in the middle of an assistant message, it neither
  // ends the turn nor writes text into a subagent that has not started.
  predicate Harmless(m: Message) {
    !Prompt(m) && !Mixed(m)
  }

  ghost predicate Breaks(m: Message, s: State) {
    var p := Resolve(m, s).0;
    p.Some? && if p.value in s.subIds then Mixed(m) && s.subIds[p.value] !in s.w.started else !Harmless(m)
  }

  ghost predicate WaitingHarmless(s: State) {
    forall p, i :: p in s.buffers && 0 <= i < |s.buffers[p]| ==> Harmless(s.buffers[p][i])
  }

  ghost predicate Ready(s: State) {
    Traced(s.w) && Sound(s) && WaitingHarmless(s)
  }

  // --- the branches outside the replay loop ---

  // Any event may be written in the open turn; text and tool starts in a subagent need its bracket.
  lemma PutInTurn(w: Writer, ev: Event, turn: Id, sub: Option<Id>)
    requires InScope(w, turn, None) && !ev.TurnStart? && !ev.TurnEnd? && !ev.SubStart? && !ev.SubStop?
    requires NeedsOpenScope(ev) && sub.Some? ==> sub.value in w.started
    ensures InScope(Put(w, AgentIn(ev, turn, sub)), turn, None)
  {
    PutTraced(w, AgentIn(ev, turn, sub));
  }

  lemma EnsureTurnTraced(s: State)
    requires Traced(s.w)
    ensures Traced(EnsureTurn(s).w) && KeepsTurn(s, EnsureTurn(s))
  {
    if s.w.turn.None? {
      OpenTurnTraced(s.w, s.nextId);
    }
  }

  lemma {:induction false} EmitImagesTraced(s: State, images: seq<ImageSource>, turn: Id, sub: Option<Id>)
    requires InScope(s.w, turn, None)
    ensures InScope(EmitImages(s, images, turn, sub).w, turn, None)
    decreases |images|
  {
    if images != [] {
      PutInTurn(s.w, ImageEvent(images[0]), turn, sub);
      EmitImagesTraced(Emit(s, AgentIn(ImageEvent(images[0]), turn, sub)), images[1..], turn, sub);
    }
  }

  lemma EndToolCallTraced(b: Block, p: ProviderId, turn: Id, sub: Option<Id>, s: State)
    requires b.ToolResult? && InScope(s.w, turn, None)
    ensures InScope(EndToolCall(b, p, turn, sub, s).w, turn, None)
  {
    var s1 := MintCall(s, p);
    var ev := ToolEnd(s1.callIds[p], !b.isError, b.output);
    PutInTurn(s1.w, ev, turn, sub);
    EmitImagesTraced(Emit(s1, AgentIn(ev, turn, sub)), b.images, turn, sub);
  }

  lemma ToolResultTraced(b: Block, turn: Id, sub: Option<Id>, s: State)
    requires b.ToolResult? && InScope(s.w, turn, None)
    ensures InScope(ToolResultBlock(b, turn, sub, s).w, turn, None)
  {
    if b.callId.Some? {
      var p := Raw(b.callId.value);
      var stopped := if p in s.subIds then Some(s.subIds[p]) else None;
      StopSubTraced(s.w, turn, stopped);
      EndToolCallTraced(b, p, turn, sub, s.(w := StopSub(s.w, turn, stopped)));
    }
  }

  lemma ResultBlockTraced(b: Block, turn: Id, sub: Option<Id>, s: State)
    requires InScope(s.w, turn, None)
    requires b.TextBlock? && b.text.trimmed != [] && sub.Some? ==> sub.value in s.w.started
    ensures InScope(ResultBlock(b, turn, sub, s).w, turn, None)
  {
    match b {
      case ToolResult(_, _, _, _) => ToolResultTraced(b, turn, sub, s);
      case TextBlock(text) => if text.trimmed != [] { PutInTurn(s.w, Text(text.raw, false), turn, sub); }
      case ImageBlock(source) => if source.Some? { PutInTurn(s.w, ImageEvent(source.value), turn, sub); }
      case _ =>
    }
  }

  lemma {:induction false} ResultBlocksTraced(blocks: seq<Block>, turn: Id, sub: Option<Id>, s: State)
    requires InScope(s.w, turn, None) && (Speaks(blocks) && sub.Some? ==> sub.value in s.w.started)
    ensures InScope(ResultBlocks(blocks, turn, sub, s).w, turn, None)
    decreases |blocks|
  {
    if blocks != [] {
      ResultBlockTraced(blocks[0], turn, sub, s);
      ResultBlocksTraced(blocks[1..], turn, sub, ResultBlock(blocks[0], turn, sub, s));
    }
  }

  // A rejected log stays rejected, whatever is added to it.
  lemma RejectedForGood(log: seq<Envelope>, longer: seq<Envelope>)
    requires Reads(IDLE, log).None? && log <= longer
    ensures Reads(IDLE, longer).None?
  {
    assert longer == log + longer[|log|..];
    ReadsConcat(IDLE, log, longer[|log|..]);
  }

  // The other direction: text beside a tool result is written into a subagent that never started.
  lemma {:induction false} ResultBlocksRejected(blocks: seq<Block>, turn: Id, sub: Option<Id>, s: State)
    requires InScope(s.w, turn, None) && Speaks(blocks) && sub.Some? && sub.value !in s.w.started
    ensures Reads(IDLE, ResultBlocks(blocks, turn, sub, s).w.log).None?
    decreases |blocks|
  {
    var s1 := ResultBlock(blocks[0], turn, sub, s);
    if blocks[0].TextBlock? && blocks[0].text.trimmed != [] {
      var e := AgentIn(Text(blocks[0].text.raw, false), turn, sub);
      ReadsConcat(IDLE, s.w.log, [e]);
      ReadsOne(MonitorOf(s.w), e);
      RejectedForGood(s1.w.log, ResultBlocks(blocks[1..], turn, sub, s1).w.log);
    } else {
      ResultBlockTraced(blocks[0], turn, sub, s);
      ResultBlocksRejected(blocks[1..], turn, sub, s1);
    }
  }

  lemma {:induction false} UserPromptTraced(blocks: seq<Block>, s: State)
    requires Traced(s.w)
    ensures Traced(UserPrompt(blocks, s).w)
    decreases |blocks|
  {
    if blocks != [] {
      match blocks[0] {
        case TextBlock(text) => PutTraced(s.w, Envelope(User, Text(text.raw, false), None, None));
        case ImageBlock(source) =>
          if source.Some? {
            PutTraced(s.w, Envelope(User, ImageEvent(source.value), None, None));
          }
        case _ =>
      }
      UserPromptTraced(blocks[1..], PromptBlock(blocks[0], s));
    }
  }

  // What a branch outside the replay loop does to everything but the log and the brackets: it
  // either stays in the turn, or it was a human prompt and the turn is gone.
  ghost predicate KeepsTurn(s: State, t: State) {
    t.mapped == s.mapped && t.buffers == s.buffers && s.subIds.Keys <= t.subIds.Keys &&
    s.w.started <= t.w.started && (s.w.turn.Some? ==> t.w.turn == s.w.turn)
  }

  ghost predicate EndsTurn(s: State, t: State) {
    t.mapped == s.mapped && t.w.turn.None? && t.buffers == map[]
  }

  lemma CloseTurnTraced(s: State, status: Status)
    requires Traced(s.w)
    ensures Traced(CloseTurn(s, status).w)
    ensures if s.w.turn.Some? then EndsTurn(s, CloseTurn(s, status)) else CloseTurn(s, status) == s
  {
    if s.w.turn.Some? {
      EndTurnTraced(s.w, status);
    }
  }

  lemma OpenScopeTraced(s: State, sub: Option<Id>)
    requires Traced(s.w)
    ensures var s1 := EnsureTurn(s);
            var turn := s1.w.turn.value;
            && InScope(s1.w, turn, None) && InScope(OpenScope(s1, turn, sub).w, turn, sub)
            && KeepsTurn(s, s1) && KeepsTurn(s, OpenScope(s1, turn, sub))
  {
    EnsureTurnTraced(s);
    StartSubTraced(EnsureTurn(s).w, EnsureTurn(s).w.turn.value, sub);
  }

  lemma SidechainTextTraced(m: Message, sub: Option<Id>, s: State)
    requires m.body.UserText? && !m.body.meta && m.body.command.Plain? && m.sidechain && Traced(s.w)
    ensures Traced(MapUserText(m, sub, s).w) && KeepsTurn(s, MapUserText(m, sub, s))
  {
    OpenScopeTraced(s, sub);
    var turn := EnsureTurn(s).w.turn.value;
    PutInScope(OpenScope(EnsureTurn(s), turn, sub).w, Text(m.body.text.raw, false), turn, sub);
  }

  lemma PromptTextTraced(m: Message, sub: Option<Id>, s: State)
    requires m.body.UserText? && !m.body.meta && m.body.command.Plain? && !m.sidechain && Traced(s.w)
    ensures Traced(MapUserText(m, sub, s).w)
    ensures if s.w.turn.Some? then EndsTurn(s, MapUserText(m, sub, s)) else KeepsTurn(s, MapUserText(m, sub, s))
  {
    CloseTurnTraced(s, Completed);
    PutTraced(CloseTurn(s, Completed).w, Envelope(User, Text(m.body.text.raw, false), None, None));
  }

  lemma NoteTraced(s: State, note: string)
    requires Traced(s.w)
    ensures var t := Emit(s, Envelope(Agent, Service(note), None, None)); Traced(t.w) && KeepsTurn(s, t)
  {
    PutTraced(s.w, Envelope(Agent, Service(note), None, None));
  }

  lemma MapUserTextTraced(m: Message, sub: Option<Id>, s: State)
    requires m.body.UserText? && Traced(s.w)
    ensures Traced(MapUserText(m, sub, s).w)
    ensures if Closes(m, s) then EndsTurn(s, MapUserText(m, sub, s)) else KeepsTurn(s, MapUserText(m, sub, s))
  {
    if m.body.meta || m.body.command.Invocation? {
    } else if m.body.command.Stdout? {
      NoteTraced(s, m.body.command.cleaned);
    } else if m.sidechain {
      SidechainTextTraced(m, sub, s);
    } else {
      PromptTextTraced(m, sub, s);
    }
  }

  lemma ResultsTraced(m: Message, sub: Option<Id>, s: State)
    requires m.body.UserBlocks? && Traced(s.w) && (m.sidechain || HasToolResult(m.body.blocks))
    requires !m.sidechain && Speaks(m.body.blocks) && sub.Some? ==> sub.value in s.w.started
    ensures Traced(MapUserBlocks(m, sub, s).w) && KeepsTurn(s, MapUserBlocks(m, sub, s))
  {
    OpenScopeTraced(s, sub);
    var s1 := EnsureTurn(s);
    var turn := s1.w.turn.value;
    ResultBlocksTraced(m.body.blocks, turn, sub, if m.sidechain then OpenScope(s1, turn, sub) else s1);
  }

  lemma MapUserBlocksTraced(m: Message, sub: Option<Id>, s: State)
    requires m.body.UserBlocks? && Traced(s.w) && !m.body.meta && m.body.blocks != []
    requires Mixed(m) && sub.Some? ==> sub.value in s.w.started
    ensures Traced(MapUserBlocks(m, sub, s).w)
    ensures if Closes(m, s) then EndsTurn(s, MapUserBlocks(m, sub, s)) else KeepsTurn(s, MapUserBlocks(m, sub, s))
  {
    if !m.sidechain && !HasToolResult(m.body.blocks) {
      CloseTurnTraced(s, Completed);
      UserPromptTraced(m.body.blocks, CloseTurn(s, Completed));
    } else {
      ResultsTraced(m, sub, s);
    }
  }

  lemma MixedRejected(m: Message, sub: Id, s: State)
    requires Traced(s.w) && Mixed(m) && sub !in s.w.started
    ensures Reads(IDLE, MapUserBlocks(m, Some(sub), s).w.log).None?
  {
    OpenScopeTraced(s, None);
    ResultBlocksRejected(m.body.blocks, EnsureTurn(s).w.turn.value, Some(sub), EnsureTurn(s));
  }

  lemma MapFlatTraced(m: Message, sub: Option<Id>, s: State)
    requires !m.body.Assistant? && Traced(s.w) && (Mixed(m) && sub.Some? ==> sub.value in s.w.started)
    ensures Traced(MapFlat(m, sub, s).w)
    ensures if Closes(m, s) then EndsTurn(s, MapFlat(m, sub, s)) else KeepsTurn(s, MapFlat(m, sub, s))
  {
    match m.body {
      case UserText(_, _, _) => MapUserTextTraced(m, sub, s);
      case UserBlocks(meta, blocks) => if !meta && blocks != [] { MapUserBlocksTraced(m, sub, s); }
      case CompactSummary => NoteTraced(s, "History compacted (/clear)");
      case _ =>
    }
  }

  predicate Closes(m: Message, s: State) {
    s.w.turn.Some? && Prompt(m)
  }

  // --- the recursion ---

  // What a branch that stays inside the open turn must keep.
  ghost predicate Stays(s: State, t: State) {
    t.w.turn == s.w.turn && s.w.started <= t.w.started && s.subIds.Keys <= t.subIds.Keys
  }

  lemma {:induction false} MapMessageTraced(m: Message, s: State)
    requires Ready(s) && !Breaks(m, s)
    ensures Ready(MapMessage(m, s))
    ensures Harmless(m) && s.w.turn.Some? ==> Stays(s, MapMessage(m, s))
    decreases Waiting(s), 5, 0
  {
    MapMessageSound(m, s);
    var (p, s1) := Resolve(m, s);
    var s2 := Remember(s1, m, p);
    SamePoolsSound(s, s2);
    if p.Some? && p.value !in s2.subIds {
      BufferHarmless(m, p.value, s2);
    } else {
      MapResolvedTraced(m, p, s2);
    }
  }

  lemma BufferHarmless(m: Message, p: ProviderId, s: State)
    requires WaitingHarmless(s)
    ensures WaitingHarmless(BufferMessage(s, p, m)) <==> Harmless(m)
  {
    var t := BufferMessage(s, p, m);
    var q := t.buffers[p];
    assert q[|q| - 1] == m;
    forall r, i | r in t.buffers && 0 <= i < |t.buffers[r]| && !(r == p && i == |q| - 1)
      ensures Harmless(t.buffers[r][i])
    {
      assert r in s.buffers && t.buffers[r][i] == s.buffers[r][i];
    }
  }

  lemma {:induction false} MapResolvedTraced(m: Message, p: Option<ProviderId>, s: State)
    requires Ready(s) && (p.Some? ==> p.value in s.subIds && (Mixed(m) ==> s.subIds[p.value] in s.w.started))
    ensures var t := MapResolved(m, p, s);
            Traced(t.w) && WaitingHarmless(t) && (Harmless(m) && s.w.turn.Some? ==> Stays(s, t))
    decreases Waiting(s), 4, 0
  {
    var sub := if p.Some? then Some(s.subIds[p.value]) else None;
    var s1 := s.(mapped := s.mapped + [Mapped(m, p)]);
    if m.body.Assistant? {
      MapAssistantTraced(m.body, sub, s1);
    } else {
      MapFlatTraced(m, sub, s1);
    }
  }

  lemma {:induction false} MapAssistantTraced(body: Body, sub: Option<Id>, s: State)
    requires body.Assistant? && Ready(s)
    ensures var t := MapAssistant(body, sub, s);
            && Traced(t.w) && WaitingHarmless(t)
            && (s.w.turn.Some? ==> t.w.turn == s.w.turn) && s.w.started <= t.w.started && s.subIds.Keys <= t.subIds.Keys
    decreases Waiting(s), 3, 0
  {
    OpenScopeTraced(s, sub);
    EnsureTurnSound(s);
    var s1 := EnsureTurn(s);
    var turn := s1.w.turn.value;
    OpenScopeSound(s1, turn, sub);
    var s2 := OpenScope(s1, turn, sub);
    AssistantBlocksTraced(body.blocks, turn, sub, s2);
    if body.usage.Some? {
      PutInScope(AssistantBlocks(body.blocks, turn, sub, s2).w, Usage(body.usage.value.0, body.usage.value.1),
          turn, sub);
    }
  }

  lemma {:induction false} AssistantBlocksTraced(blocks: seq<Block>, turn: Id, sub: Option<Id>, s: State)
    requires Ready(s) && InScope(s.w, turn, sub)
    ensures var t := AssistantBlocks(blocks, turn, sub, s); Ready(t) && InScope(t.w, turn, sub) && Stays(s, t)
    decreases Waiting(s), 2, |blocks|
  {
    if blocks != [] {
      AssistantBlockTraced(blocks[0], turn, sub, s);
      AssistantBlocksTraced(blocks[1..], turn, sub, AssistantBlock(blocks[0], turn, sub, s));
    }
  }

  lemma {:induction false} AssistantBlockTraced(b: Block, turn: Id, sub: Option<Id>, s: State)
    requires Ready(s) && InScope(s.w, turn, sub)
    ensures var t := AssistantBlock(b, turn, sub, s); Ready(t) && InScope(t.w, turn, sub) && Stays(s, t)
    decreases Waiting(s), 2, 0
  {
    match b {
      case TextBlock(text) => EmitInScope(s, Text(text.raw, false), turn, sub);
      case ThinkingBlock(text) => EmitInScope(s, Text(text, true), turn, sub);
      case ToolUse(_, _, _, _, _) => ToolUseTraced(b, turn, sub, s);
      case _ =>
    }
  }

  lemma EmitInScope(s: State, ev: Event, turn: Id, sub: Option<Id>)
    requires Ready(s) && InScope(s.w, turn, sub) && ev.Text?
    ensures var t := Emit(s, AgentIn(ev, turn, sub)); Ready(t) && InScope(t.w, turn, sub) && Stays(s, t)
  {
    PutInScope(s.w, ev, turn, sub);
    PutBracketed(s.w, AgentIn(ev, turn, sub));
  }

  lemma StartToolCallTraced(b: Block, p: ProviderId, turn: Id, sub: Option<Id>, s: State)
    requires b.ToolUse? && InScope(s.w, turn, sub)
    ensures InScope(StartToolCall(b, p, turn, sub, s).w, turn, sub)
  {
    var s1 := MintCall(s, p);
    var title := Some(ToolTitle(b.name, b.description));
    PutInScope(s1.w, ToolStart(s1.callIds[p], b.name, title, b.input, ToolRisk(b.name)), turn, sub);
  }

  lemma AnnounceCallTraced(b: Block, p: ProviderId, turn: Id, sub: Option<Id>, s: State)
    requires b.ToolUse? && InScope(s.w, turn, sub)
    ensures InScope(AnnounceCall(b, p, turn, sub, s).w, turn, sub)
  {
    if b.name != "Task" {
      StartToolCallTraced(b, p, turn, sub, s);
    }
  }

  lemma {:induction false} ToolUseTraced(b: Block, turn: Id, sub: Option<Id>, s: State)
    requires b.ToolUse? && Ready(s) && InScope(s.w, turn, sub)
    ensures var t := ToolUseBlock(b, turn, sub, s); Ready(t) && InScope(t.w, turn, sub) && Stays(s, t)
    decreases Waiting(s), 1, 0
  {
    var (s1, p) := IdentifyCall(b, s);
    var s2 := AnnounceCall(b, p, turn, sub, s1);
    AnnouncedReady(b, turn, sub, s);
    ContentsPut(s2.buffers, p, []);
    ReplayTraced(Queued(s2.buffers, p), Detach(s2, p));
  }

  lemma AnnouncedReady(b: Block, turn: Id, sub: Option<Id>, s: State)
    requires b.ToolUse? && Ready(s) && InScope(s.w, turn, sub)
    ensures var (s1, p) := IdentifyCall(b, s);
            var s2 := AnnounceCall(b, p, turn, sub, s1);
            WaitingHarmless(s2) && Ready(Detach(s2, p)) && Stays(s, s2)
  {
    var (s1, p) := IdentifyCall(b, s);
    var s2 := AnnounceCall(b, p, turn, sub, s1);
    AnnounceCallTraced(b, p, turn, sub, s1);
    AnnounceCallBracketed(b, p, turn, sub, s1);
    DetachSound(p, s, s2);
  }

  // Replaying a batch of harmless messages inside an open turn.
  lemma {:induction false} ReplayTraced(ms: seq<Message>, s: State)
    requires Ready(s) && s.w.turn.Some? && forall i :: 0 <= i < |ms| ==> Harmless(ms[i])
    ensures Ready(Replay(ms, s)) && Stays(s, Replay(ms, s))
    decreases Waiting(s) + |ms|, 0, |ms|
  {
    if ms != [] {
      MapMessageTraced(ms[0], s);
      ReplayTraced(ms[1..], MapMessage(ms[0], s));
    }
  }

  // --- whole runs ---

  lemma MixedUntraced(m: Message, p: ProviderId, s: State)
    requires Traced(s.w) && p in s.subIds && Mixed(m) && s.subIds[p] !in s.w.started
    ensures !Traced(MapResolved(m, Some(p), s).w)
  {
    MixedRejected(m, s.subIds[p], s.(mapped := s.mapped + [Mapped(m, Some(p))]));
  }

  lemma BreaksUnready(m: Message, s: State)
    requires Ready(s) && Breaks(m, s)
    ensures !Ready(MapMessage(m, s))
  {
    var (p, s1) := Resolve(m, s);
    var s2 := Remember(s1, m, p);
    if p.value in s.subIds {
      MixedUntraced(m, p.value, s2);
    } else {
      BufferHarmless(m, p.value, s2);
    }
  }

  // Main result: a line keeps the mapper ready exactly when it does not break in.
  lemma LineKeepsReady(m: Message, s: State)
    requires Ready(s)
    ensures Ready(MapMessage(m, s)) <==> !Breaks(m, s)
  {
    if Breaks(m, s) {
      BreaksUnready(m, s);
    } else {
      MapMessageTraced(m, s);
    }
  }

  lemma CloseReady(s: State, status: Status)
    requires Ready(s)
    ensures Ready(CloseTurn(s, status))
  {
    CloseTurnSound(s, status);
    CloseTurnTraced(s, status);
  }

  // No line of the run breaks in on a subagent.
  ghost predicate Clean(s: State, inputs: seq<Input>)
    decreases |inputs|
  {
    inputs == [] || (!(inputs[0].Line? && Breaks(inputs[0].m, s)) && Clean(Step(s, inputs[0]), inputs[1..]))
  }

  ghost predicate ReadyThroughout(s: State, inputs: seq<Input>)
    decreases |inputs|
  {
    Ready(s) && (inputs == [] || ReadyThroughout(Step(s, inputs[0]), inputs[1..]))
  }

  lemma {:induction false} CleanIsReady(s: State, inputs: seq<Input>)
    requires Ready(s)
    ensures ReadyThroughout(s, inputs) <==> Clean(s, inputs)
    ensures Clean(s, inputs) ==> Ready(Run(s, inputs))
    decreases |inputs|
  {
    if inputs != [] {
      var s1 := Step(s, inputs[0]);
      match inputs[0] {
        case Line(m) => LineKeepsReady(m, s);
        case ForceClose(status) => CloseReady(s, status);
      }
      if Ready(s1) {
        CleanIsReady(s1, inputs[1..]);
      }
    }
  }

  lemma InitialReady()
    ensures Ready(INITIAL)
  {
    BlankTraced();
  }

  // Main result: the mapper is ready at every point of a run exactly when no line of it breaks in;
  // then the whole trace is well formed, its brackets are the mapper's own, and subagent starts and
  // stops pair up as soon as no turn is open.
  lemma CleanTraceIsWellFormed(inputs: seq<Input>, x: Id)
    ensures ReadyThroughout(INITIAL, inputs) <==> Clean(INITIAL, inputs)
    ensures Clean(INITIAL, inputs) ==>
              var s := Run(INITIAL, inputs);
              Reads(IDLE, s.w.log) == Some(MonitorOf(s.w)) &&
              (s.w.turn.None? ==> SubStarts(x, s.w.log) == SubStops(x, s.w.log))
  {
    InitialReady();
    CleanIsReady(INITIAL, inputs);
    if Clean(INITIAL, inputs) {
      TracedPairs(Run(INITIAL, inputs).w, x);
    }
  }

  // --- what breaking in does ---

  // The assistant message that makes call t, and says what it cost.
  function Release(call: string): Message {
    Message(None, None, None, false, Assistant([ToolUse(Some(call), "Task", None, None, "{}")], Some((0, 0))))
  }

  // The prompt m waits for the call behind harmless messages, and nothing harmful waits elsewhere.
  ghost predicate WaitsLast(m: Message, call: string, waiting: seq<Message>, s: State) {
    Prompt(m) && m.parentToolUse == Some(call) && Queued(s.buffers, Raw(call)) == waiting + [m] &&
    (forall i :: 0 <= i < |waiting| ==> Harmless(waiting[i])) && ElsewhereHarmless(Raw(call), s)
  }

  ghost predicate ElsewhereHarmless(p: ProviderId, s: State) {
    forall q, i :: q in s.buffers && q != p && 0 <= i < |s.buffers[q]| ==> Harmless(s.buffers[q][i])
  }

  // Taking the waiting messages of a call out once it is minted, whatever they are.
  lemma DetachReady(b: Block, turn: Id, s: State)
    requires b.ToolUse? && Sound(s) && InScope(s.w, turn, None) && ElsewhereHarmless(IdentifyCall(b, s).1, s)
    ensures var (s1, p) := IdentifyCall(b, s);
            var d := Detach(AnnounceCall(b, p, turn, None, s1), p);
            Ready(d) && d.w.turn == Some(turn) && p in d.subIds
  {
    var (s1, p) := IdentifyCall(b, s);
    var s2 := AnnounceCall(b, p, turn, None, s1);
    AnnounceCallTraced(b, p, turn, None, s1);
    AnnounceCallBracketed(b, p, turn, None, s1);
    DetachSound(p, s, s2);
  }

  lemma {:induction false} ReplayLast(ms: seq<Message>, m: Message, s: State)
    ensures Replay(ms + [m], s) == MapMessage(m, Replay(ms, s))
    decreases |ms|
  {
    if ms == [] {
      assert [] + [m] == [m] && [m][1..] == [];
      assert Replay([m], s) == Replay([], MapMessage(m, s));
    } else {
      assert (ms + [m])[1..] == ms[1..] + [m] && (ms + [m])[0] == ms[0];
      ReplayLast(ms[1..], m, MapMessage(ms[0], s));
    }
  }

  // A prompt released by its call ends the turn it is released in.
  lemma PromptReleased(m: Message, call: string, s: State)
    requires Ready(s) && s.w.turn.Some? && Prompt(m) && m.parentToolUse == Some(call) && Raw(call) in s.subIds
    ensures var t := MapMessage(m, s); Traced(t.w) && t.w.turn.None?
  {
    var p := Some(Raw(call));
    var s2 := Remember(s, m, p);
    MapFlatTraced(m, Some(s.subIds[Raw(call)]), s2.(mapped := s2.mapped + [Mapped(m, p)]));
  }

  // The call that releases a prompt comes back with its turn closed.
  lemma CallClosesTurn(m: Message, call: string, waiting: seq<Message>, s: State)
    requires Sound(s) && s.w.turn.Some? && Traced(s.w) && WaitsLast(m, call, waiting, s)
    ensures var t := ToolUseBlock(Release(call).body.blocks[0], s.w.turn.value, None, s);
            Traced(t.w) && t.w.turn.None?
  {
    var b := Release(call).body.blocks[0];
    DetachReady(b, s.w.turn.value, s);
    var (s1, p) := IdentifyCall(b, s);
    var d := Detach(AnnounceCall(b, p, s.w.turn.value, None, s1), p);
    ReplayTraced(waiting, d);
    ReplayLast(waiting, m, d);
    PromptReleased(m, call, Replay(waiting, d));
  }

  // Nothing of a turn may be written once it is closed.
  lemma LateRejected(w: Writer, ev: Event, turn: Id)
    requires Traced(w) && w.turn.None? && ev.Usage?
    ensures Reads(IDLE, Put(w, AgentIn(ev, turn, None)).log).None?
  {
    ReadsConcat(IDLE, w.log, [AgentIn(ev, turn, None)]);
    ReadsOne(MonitorOf(w), AgentIn(ev, turn, None));
  }

  lemma ReleaseUnfolds(call: string, s: State)
    ensures var s1 := EnsureTurn(s);
            var turn := s1.w.turn.value;
            MapAssistant(Release(call).body, None, s)
              == Emit(ToolUseBlock(Release(call).body.blocks[0], turn, None, s1), AgentIn(Usage(0, 0), turn, None))
  {
    var s1 := EnsureTurn(s);
    var turn := s1.w.turn.value;
    var bs := Release(call).body.blocks;
    assert bs[1..] == [];
    assert AssistantBlocks(bs, turn, None, s1) ==
        AssistantBlocks([], turn, None, AssistantBlock(bs[0], turn, None, s1));
  }

  lemma ReleaseRejected(m: Message, call: string, waiting: seq<Message>, s: State)
    requires Sound(s) && Traced(s.w) && WaitsLast(m, call, waiting, s)
    ensures Reads(IDLE, MapAssistant(Release(call).body, None, s).w.log).None?
  {
    EnsureTurnTraced(s);
    EnsureTurnSound(s);
    CallClosesTurn(m, call, waiting, EnsureTurn(s));
    ReleaseUnfolds(call, s);
    var turn := EnsureTurn(s).w.turn.value;
    LateRejected(ToolUseBlock(Release(call).body.blocks[0], turn, None, EnsureTurn(s)).w, Usage(0, 0), turn);
  }

  lemma BufferedLast(m: Message, call: string, s: State)
    requires WaitingHarmless(s) && Prompt(m) && m.parentToolUse == Some(call) && Raw(call) !in s.subIds
    ensures WaitsLast(m, call, Queued(s.buffers, Raw(call)), MapMessage(m, s)) && MapMessage(m, s).w == s.w
  {
  }

  // Main result: every prompt that is left waiting for a call spoils the trace as soon as the call
  // comes: it ends the turn from inside the assistant message that releases it, and the rest of that
  // message is written into a closed turn.
  lemma WaitingPromptBreaksIn(m: Message, call: string, s: State)
    requires Ready(s) && Prompt(m) && m.parentToolUse == Some(call) && Raw(call) !in s.subIds
    ensures Breaks(m, s)
    ensures Reads(IDLE, MapMessage(Release(call), MapMessage(m, s)).w.log).None?
  {
    var s1 := MapMessage(m, s);
    MapMessageSound(m, s);
    BufferedLast(m, call, s);
    var base := s1.(mapped := s1.mapped + [Mapped(Release(call), None)]);
    assert MapMessage(Release(call), s1) == MapResolved(Release(call), None, s1);
    ReleaseRejected(m, call, Queued(s.buffers, Raw(call)), base);
  }
}
