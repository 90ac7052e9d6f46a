// The Claude transcript mapper (packages/cli/src/claude/envelopeMapper.ts): one parsed transcript
// line in, zero or more envelopes out, over a mutable per-session state. Orphaned subagent
// messages wait in per-parent buffers and are replayed, recursively, when the parent's tool call
// shows up.
module ClaudeMapper {
  import opened Wrappers
  import opened Wire
  import opened Scopes

  // A provider-side id: either one the provider wrote, or one minted for a tool_use without an id.
  datatype ProviderId = Raw(text: string) | Made(n: nat)

  // A JavaScript string together with its `trim()`.
  datatype JsText = JsText(raw: string, trimmed: string)

  datatype ImageSource = ImageSource(fileName: string, data: string)

  datatype Block =
    | TextBlock(text: JsText)
    | ThinkingBlock(thinking: string)
    | ToolUse(id: Option<string>, name: string, prompt: Option<string>, description: Option<JsText>, input: Json)
    | ToolResult(callId: Option<string>, isError: bool, output: Option<Json>, images: seq<ImageSource>)
    | ImageBlock(source: Option<ImageSource>)
    | OtherBlock

  // What the two local-command patterns find in a user string.
  datatype Command = Plain | Stdout(cleaned: string) | Invocation

  datatype Body =
    | Summary
    | System
    | CompactSummary
    | Assistant(blocks: seq<Block>, usage: Option<(nat, nat)>)
    | UserText(meta: bool, text: JsText, command: Command)
    | UserBlocks(meta: bool, blocks: seq<Block>)
    | OtherBody

  datatype Message = Message(uuid: Option<string>, parentUuid: Option<string>, parentToolUse: Option<string>,
                             sidechain: bool, body: Body)

  type Buffers = map<ProviderId, seq<Message>>

  // A message the mapper is done with, and the call it was found to belong to.
  datatype Mapped = Mapped(m: Message, parent: Option<ProviderId>)

  // ClaudeEnvelopeMapperState plus the id supply and two histories: the messages mapped, and the
  // buffered messages a turn close threw away.
  datatype State = State(
    w: Writer,
    uuidSub: map<string, ProviderId>,
    prompts: map<string, seq<ProviderId>>,
    callIds: map<ProviderId, Id>,
    subIds: map<ProviderId, Id>,
    buffers: Buffers,
    hidden: set<ProviderId>,
    nextId: nat,
    mapped: seq<Mapped>,
    discarded: multiset<Message>)

  const INITIAL := State(BLANK, map[], map[], map[], map[], map[], {}, 0, [], multiset{})

  // --- the messages waiting in the buffers ---

  ghost function Contents(b: Buffers): multiset<Message>
    decreases |b|
  {
    if b == map[] then multiset{}
    else var k :| k in b; multiset(b[k]) + Contents(b - {k})
  }

  lemma {:induction false} ContentsSplit(b: Buffers, k: ProviderId)
    requires k in b
    ensures Contents(b) == multiset(b[k]) + Contents(b - {k})
    decreases |b|
  {
    var j :| j in b && Contents(b) == multiset(b[j]) + Contents(b - {j});
    if j != k {
      ContentsSplit(b - {j}, k);
      ContentsSplit(b - {k}, j);
      assert b - {j} - {k} == b - {k} - {j};
    }
  }

  function Queued(b: Buffers, p: ProviderId): seq<Message> {
    if p in b then b[p] else []
  }

  lemma ContentsPut(b: Buffers, k: ProviderId, q: seq<Message>)
    ensures Contents(b[k := q]) == Contents(b - {k}) + multiset(q)
    ensures Contents(b) == Contents(b - {k}) + multiset(Queued(b, k))
  {
    ContentsSplit(b[k := q], k);
    assert b[k := q] - {k} == b - {k};
    if k in b {
      ContentsSplit(b, k);
    } else {
      assert b - {k} == b;
    }
  }

  ghost function Waiting(s: State): nat {
    |Contents(s.buffers)|
  }

  // --- emission and turn lifecycle ---

  function Emit(s: State, e: Envelope): State {
    s.(w := Put(s.w, e))
  }

  function EnsureTurn(s: State): (r: State)
    ensures r.w.turn.Some? && r == s.(w := r.w, nextId := r.nextId)
  {
    if s.w.turn.Some? then s else s.(w := OpenTurn(s.w, s.nextId), nextId := s.nextId + 1)
  }

  function OpenScope(s: State, turn: Id, sub: Option<Id>): State {
    s.(w := StartSub(s.w, turn, sub))
  }

  // closeTurn with clearSubagentTracking: whatever is still buffered goes down with the turn.
  ghost function CloseTurn(s: State, status: Status): State {
    if s.w.turn.None? then s
    else State(EndTurn(s.w, status), map[], map[], map[], map[], map[], {}, s.nextId, s.mapped,
               s.discarded + Contents(s.buffers))
  }

  // --- which subagent a message belongs to ---

  function QueuePrompt(s: State, prompt: string, p: ProviderId): State {
    var q := if prompt in s.prompts then s.prompts[prompt] else [];
    s.(prompts := s.prompts[prompt := if p in q then q else q + [p]])
  }

  function DropFirst(s: State, prompt: string): State
    requires prompt in s.prompts && s.prompts[prompt] != []
  {
    var rest := s.prompts[prompt][1..];
    s.(prompts := if rest == [] then s.prompts - {prompt} else s.prompts[prompt := rest])
  }

  // The prompt is the only one with a task still waiting.
  predicate SolePrompt(s: State, prompt: string) {
    prompt in s.prompts && s.prompts[prompt] != [] &&
    forall other :: other in s.prompts && s.prompts[other] != [] ==> other == prompt
  }

  ghost function TakeSoleTask(s: State): (Option<ProviderId>, State) {
    if prompt :| SolePrompt(s, prompt) then (Some(s.prompts[prompt][0]), DropFirst(s, prompt))
    else (None, s)
  }

  // pickSidechainRootPrompt: the trimmed text of a user string, when there is any.
  function RootPrompt(m: Message): Option<string> {
    if m.body.UserText? && m.body.text.trimmed != [] then Some(m.body.text.trimmed) else None
  }

  ghost function Resolve(m: Message, s: State): (r: (Option<ProviderId>, State))
    ensures r.1 == s.(prompts := r.1.prompts)
  {
    if m.parentToolUse.Some? then (Some(Raw(m.parentToolUse.value)), s)
    else if m.parentUuid.Some? && m.parentUuid.value in s.uuidSub then (Some(s.uuidSub[m.parentUuid.value]), s)
    else if !m.sidechain then (None, s)
    else
      var prompt := RootPrompt(m);
      if prompt.Some? && prompt.value in s.prompts && s.prompts[prompt.value] != []
      then (Some(s.prompts[prompt.value][0]), DropFirst(s, prompt.value))
      else if m.parentUuid.None? then TakeSoleTask(s)
      else (None, s)
  }

  function Remember(s: State, m: Message, p: Option<ProviderId>): State {
    if p.Some? && m.uuid.Some? then s.(uuidSub := s.uuidSub[m.uuid.value := p.value]) else s
  }

  ghost function BufferMessage(s: State, p: ProviderId, m: Message): (r: State)
    ensures Contents(r.buffers) == Contents(s.buffers) + multiset{m}
  {
    ContentsPut(s.buffers, p, Queued(s.buffers, p) + [m]);
    s.(buffers := s.buffers[p := Queued(s.buffers, p) + [m]])
  }

  function MintSub(s: State, p: ProviderId): State {
    if p in s.subIds then s else s.(subIds := s.subIds[p := s.nextId], nextId := s.nextId + 1)
  }

  function MintCall(s: State, p: ProviderId): State {
    if p in s.callIds then s else s.(callIds := s.callIds[p := s.nextId], nextId := s.nextId + 1)
  }

  // --- presentation: images, tool titles, risk ---

  const MAX_INLINE_IMAGE_BYTES := 256 * 1024

  function ImageEvent(i: ImageSource): Event {
    var size := |i.data| * 3 / 4;
    if size > MAX_INLINE_IMAGE_BYTES then Service("image omitted (too large)")
    else File("inline:" + i.data, i.fileName, size)
  }

  function EmitImages(s: State, images: seq<ImageSource>, turn: Id, sub: Option<Id>): (r: State)
    ensures r == s.(w := s.w.(log := r.w.log)) && s.w.log <= r.w.log
    decreases |images|
  {
    if images == [] then s
    else EmitImages(Emit(s, AgentIn(ImageEvent(images[0]), turn, sub)), images[1..], turn, sub)
  }

  function ToolTitle(name: string, description: Option<JsText>): string {
    if description.Some? && description.value.trimmed != [] then
      if |description.value.raw| > 80 then description.value.raw[..77] + "..." else description.value.raw
    else name + " call"
  }

  const RISK_BY_TOOL_NAME := map[
    "Bash" := ExecRisk, "Edit" := WriteRisk, "Write" := WriteRisk, "MultiEdit" := WriteRisk,
    "NotebookEdit" := WriteRisk,
    "Read" := ReadRisk, "Grep" := ReadRisk, "Glob" := ReadRisk, "LS" := ReadRisk,
    "WebFetch" := NetworkRisk, "WebSearch" := NetworkRisk]

  function ToolRisk(name: string): Option<Risk> {
    if name in RISK_BY_TOOL_NAME then Some(RISK_BY_TOOL_NAME[name]) else None
  }

  // --- the mapping itself ---

  // A message that resolves to a parent call nobody has seen waits; any other is mapped.
  ghost function MapMessage(m: Message, s: State): (r: State)
    ensures Waiting(r) <= Waiting(s) + 1
    decreases Waiting(s), 5, 0
  {
    var (p, s1) := Resolve(m, s);
    var s2 := Remember(s1, m, p);
    if p.Some? && p.value !in s2.subIds then BufferMessage(s2, p.value, m)
    else MapResolved(m, p, s2)
  }

  ghost function MapResolved(m: Message, p: Option<ProviderId>, s: State): (r: State)
    requires p.Some? ==> p.value in s.subIds
    ensures Waiting(r) <= Waiting(s)
    decreases Waiting(s), 4, 0
  {
    var sub := if p.Some? then Some(s.subIds[p.value]) else None;
    var s1 := s.(mapped := s.mapped + [Mapped(m, p)]);
    if m.body.Assistant? then MapAssistant(m.body, sub, s1) else MapFlat(m, sub, s1)
  }

  ghost function MapAssistant(body: Body, sub: Option<Id>, s: State): (r: State)
    requires body.Assistant?
    ensures Waiting(r) <= Waiting(s)
    decreases Waiting(s), 3, 0
  {
    var s1 := EnsureTurn(s);
    var turn := s1.w.turn.value;
    var s2 := AssistantBlocks(body.blocks, turn, sub, OpenScope(s1, turn, sub));
    if body.usage.Some? then Emit(s2, AgentIn(Usage(body.usage.value.0, body.usage.value.1), turn, sub)) else s2
  }

  // The assistant branch's block loop, and its body.
  ghost function AssistantBlocks(blocks: seq<Block>, turn: Id, sub: Option<Id>, s: State): (r: State)
    ensures Waiting(r) <= Waiting(s)
    decreases Waiting(s), 2, |blocks|
  {
    if blocks == [] then s else AssistantBlocks(blocks[1..], turn, sub, AssistantBlock(blocks[0], turn, sub, s))
  }

  ghost function AssistantBlock(b: Block, turn: Id, sub: Option<Id>, s: State): (r: State)
    ensures Waiting(r) <= Waiting(s)
    decreases Waiting(s), 2, 0
  {
    match b
    case TextBlock(text) => Emit(s, AgentIn(Text(text.raw, false), turn, sub))
    case ThinkingBlock(text) => Emit(s, AgentIn(Text(text, true), turn, sub))
    case ToolUse(_, _, _, _, _) => ToolUseBlock(b, turn, sub, s)
    case _ => s
  }

  // A tool_use releases whatever was waiting for its id.
  ghost function ToolUseBlock(b: Block, turn: Id, sub: Option<Id>, s: State): (r: State)
    requires b.ToolUse?
    ensures Waiting(r) <= Waiting(s)
    decreases Waiting(s), 1, 0
  {
    var (s1, p) := IdentifyCall(b, s);
    var s2 := AnnounceCall(b, p, turn, sub, s1);
    ContentsPut(s2.buffers, p, []);
    Replay(Queued(s2.buffers, p), Detach(s2, p))
  }

  function Detach(s: State, p: ProviderId): State {
    s.(buffers := s.buffers - {p})
  }

  // The provider id of a tool call (minted when the block has none) and its subagent identity,
  // which every tool call gets, not just a Task.
  function IdentifyCall(b: Block, s: State): (r: (State, ProviderId))
    requires b.ToolUse?
    ensures r.0 == s.(subIds := r.0.subIds, nextId := r.0.nextId) && r.0.subIds.Keys == s.subIds.Keys + {r.1}
  {
    var p := if b.id.Some? then Raw(b.id.value) else Made(s.nextId);
    (MintSub(if b.id.Some? then s else s.(nextId := s.nextId + 1), p), p)
  }

  // The rest of the tool_use branch up to the replay: register a Task (no card), or show the call.
  function AnnounceCall(b: Block, p: ProviderId, turn: Id, sub: Option<Id>, s: State): (r: State)
    requires b.ToolUse?
    ensures r.buffers == s.buffers && r.subIds == s.subIds && r.mapped == s.mapped && r.discarded == s.discarded
    ensures r.w == s.w.(log := r.w.log)
  {
    if b.name == "Task" then RegisterTask(b.prompt, p, s) else StartToolCall(b, p, turn, sub, s)
  }

  function RegisterTask(prompt: Option<string>, p: ProviderId, s: State): State {
    var s1 := if prompt.Some? then QueuePrompt(s, prompt.value, p) else s;
    s1.(hidden := s1.hidden + {p})
  }

  function StartToolCall(b: Block, p: ProviderId, turn: Id, sub: Option<Id>, s: State): State
    requires b.ToolUse?
  {
    var s1 := MintCall(s, p);
    var title := Some(ToolTitle(b.name, b.description));
    Emit(s1, AgentIn(ToolStart(s1.callIds[p], b.name, title, b.input, ToolRisk(b.name)), turn, sub))
  }

  // Detached children go through the mapper again, in the order they arrived.
  ghost function Replay(ms: seq<Message>, s: State): (r: State)
    ensures Waiting(r) <= Waiting(s) + |ms|
    decreases Waiting(s) + |ms|, 0, |ms|
  {
    if ms == [] then s else Replay(ms[1..], MapMessage(ms[0], s))
  }

  // The branches that never replay.
  ghost function MapFlat(m: Message, sub: Option<Id>, s: State): (r: State)
    ensures Waiting(r) <= Waiting(s)
  {
    match m.body
    case CompactSummary => Emit(s, Envelope(Agent, Service("History compacted (/clear)"), None, None))
    case UserText(_, _, _) => MapUserText(m, sub, s)
    case UserBlocks(meta, blocks) => if meta || blocks == [] then s else MapUserBlocks(m, sub, s)
    case _ => s
  }

  ghost function MapUserText(m: Message, sub: Option<Id>, s: State): (r: State)
    requires m.body.UserText?
    ensures Waiting(r) <= Waiting(s)
  {
    if m.body.meta || m.body.command.Invocation? then s
    else if m.body.command.Stdout? then Emit(s, Envelope(Agent, Service(m.body.command.cleaned), None, None))
    else if m.sidechain then
      var s1 := EnsureTurn(s);
      var turn := s1.w.turn.value;
      Emit(OpenScope(s1, turn, sub), AgentIn(Text(m.body.text.raw, false), turn, sub))
    else
      Emit(CloseTurn(s, Completed), Envelope(User, Text(m.body.text.raw, false), None, None))
  }

  ghost function MapUserBlocks(m: Message, sub: Option<Id>, s: State): (r: State)
    requires m.body.UserBlocks?
    ensures Waiting(r) <= Waiting(s)
  {
    if !m.sidechain && !HasToolResult(m.body.blocks) then UserPrompt(m.body.blocks, CloseTurn(s, Completed))
    else
      var s1 := EnsureTurn(s);
      var turn := s1.w.turn.value;
      ResultBlocks(m.body.blocks, turn, sub, if m.sidechain then OpenScope(s1, turn, sub) else s1)
  }

  predicate HasToolResult(blocks: seq<Block>) {
    exists i :: 0 <= i < |blocks| && blocks[i].ToolResult?
  }

  // A fresh human prompt made of blocks.
  function UserPrompt(blocks: seq<Block>, s: State): (r: State)
    ensures r == s.(w := s.w.(log := r.w.log))
    decreases |blocks|
  {
    if blocks == [] then s else UserPrompt(blocks[1..], PromptBlock(blocks[0], s))
  }

  function PromptBlock(b: Block, s: State): State {
    match b
    case TextBlock(text) => if text.trimmed != [] then Emit(s, Envelope(User, Text(text.raw, false), None, None)) else s
    case ImageBlock(source) => if source.Some? then Emit(s, Envelope(User, ImageEvent(source.value), None, None)) else s
    case _ => s
  }

  // What handling tool results leaves alone; it only adds to the log.
  predicate SamePools(s: State, t: State) {
    t.buffers == s.buffers && t.mapped == s.mapped && t.discarded == s.discarded && t.subIds == s.subIds &&
    t.w.turn == s.w.turn && t.w.started == s.w.started && s.w.log <= t.w.log
  }

  function ToolResultBlock(b: Block, turn: Id, sub: Option<Id>, s: State): (r: State)
    requires b.ToolResult?
    ensures SamePools(s, r) && r.uuidSub == s.uuidSub && r.prompts == s.prompts
  {
    if b.callId.None? then s
    else
      var p := Raw(b.callId.value);
      var s1 := s.(w := StopSub(s.w, turn, if p in s.subIds then Some(s.subIds[p]) else None));
      // A Task's call was never shown, so it gets no tool end.
      if p in s.hidden then s1.(hidden := s1.hidden - {p}) else EndToolCall(b, p, turn, sub, s1)
  }

  function EndToolCall(b: Block, p: ProviderId, turn: Id, sub: Option<Id>, s: State): (r: State)
    requires b.ToolResult?
    ensures SamePools(s, r) && r.uuidSub == s.uuidSub && r.prompts == s.prompts
  {
    var s1 := MintCall(s, p);
    EmitImages(Emit(s1, AgentIn(ToolEnd(s1.callIds[p], !b.isError, b.output), turn, sub)), b.images, turn, sub)
  }

  // The loop over a user message that carries tool results or belongs to a sidechain.
  function ResultBlocks(blocks: seq<Block>, turn: Id, sub: Option<Id>, s: State): (r: State)
    ensures SamePools(s, r) && r.uuidSub == s.uuidSub && r.prompts == s.prompts
    decreases |blocks|
  {
    if blocks == [] then s else ResultBlocks(blocks[1..], turn, sub, ResultBlock(blocks[0], turn, sub, s))
  }

  function ResultBlock(b: Block, turn: Id, sub: Option<Id>, s: State): (r: State)
    ensures SamePools(s, r) && r.uuidSub == s.uuidSub && r.prompts == s.prompts
  {
    match b
    case ToolResult(_, _, _, _) => ToolResultBlock(b, turn, sub, s)
    case TextBlock(text) => if text.trimmed != [] then Emit(s, AgentIn(Text(text.raw, false), turn, sub)) else s
    case ImageBlock(source) => if source.Some? then Emit(s, AgentIn(ImageEvent(source.value), turn, sub)) else s
    case _ => s
  }

  // A run: transcript lines, and turns force-closed from outside (crash, cancel).
  datatype Input = Line(m: Message) | ForceClose(status: Status)

  ghost function Step(s: State, i: Input): State {
    match i
    case Line(m) => MapMessage(m, s)
    case ForceClose(status) => CloseTurn(s, status)
  }

  ghost function Run(s: State, inputs: seq<Input>): State
    decreases |inputs|
  {
    if inputs == [] then s else Run(Step(s, inputs[0]), inputs[1..])
  }
}
