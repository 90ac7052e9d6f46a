// The ACP mapper (packages/cli/src/acp/acpToEnvelope.ts): session/update notifications in,
// envelopes out. Consecutive text chunks with one key coalesce into a single envelope, and a tool
// start is held back until its arguments are known.
module AcpMapper {
  import opened Wrappers
  import opened Wire
  import opened Scopes

  datatype Kind = MessageChunk | ThoughtChunk | ToolCall | ToolCallUpdate | PlanUpdate | Unmapped
  datatype ToolStatus = Unfinished | Succeeded | Errored

  // One notification with its fields already picked: strings trimmed and non-empty, `args` the
  // rawInput object or EmptyArgs.
  datatype Update = Update(
    kind: Kind, text: Option<string>, messageId: Option<string>,
    toolCallId: Option<string>, parentToolUse: Option<string>,
    claudeName: Option<string>, acpKind: Option<string>, title: Option<string>,
    args: Json, status: ToolStatus, output: Option<Json>, steps: seq<PlanStep>)

  const EMPTY_ARGS: Json := "{}"

  datatype TextRun = TextRun(turn: Id, sub: Option<Id>, thinking: bool, messageId: Option<string>, parts: seq<string>)

  datatype PendingStart = PendingStart(turn: Id, call: Id, sub: Option<Id>, name: string, title: Option<string>,
                                       args: Json, risk: Option<Risk>)

  // AcpEnvelopeMapperState. `starts` is the insertion-ordered map of held tool starts; `seen` is the
  // history of calls announced in the open turn.
  datatype State = State(w: Writer, ids: map<string, Id>, subOf: map<Id, Id>, text: Option<TextRun>,
                         starts: seq<PendingStart>, nextId: nat, seen: seq<Id>)

  const INITIAL := State(BLANK, map[], map[], None, [], 0, [])

  function Join(parts: seq<string>): string {
    if parts == [] then "" else parts[0] + Join(parts[1..])
  }

  // --- ids and scopes ---

  function Mint(s: State, providerId: string): (r: State)
    ensures providerId in r.ids
  {
    if providerId in s.ids then s else s.(ids := s.ids[providerId := s.nextId], nextId := s.nextId + 1)
  }

  function Resolve(u: Update, s: State): (r: (Option<Id>, State))
    ensures r.1 == s.(ids := r.1.ids, subOf := r.1.subOf, nextId := r.1.nextId)
  {
    if u.parentToolUse.Some? then
      var s1 := Mint(s, u.parentToolUse.value);
      var sub := s1.ids[u.parentToolUse.value];
      if u.toolCallId.Some? then
        var s2 := Mint(s1, u.toolCallId.value);
        (Some(sub), s2.(subOf := s2.subOf[s2.ids[u.toolCallId.value] := sub]))
      else (Some(sub), s1)
    else if u.toolCallId.Some? then
      var s1 := Mint(s, u.toolCallId.value);
      var call := s1.ids[u.toolCallId.value];
      (if call in s1.subOf then Some(s1.subOf[call]) else None, s1)
    else (None, s)
  }

  // --- the held tool starts: a map with insertion order ---

  function Held(starts: seq<PendingStart>, call: Id): Option<PendingStart> {
    if starts == [] then None else if starts[0].call == call then Some(starts[0]) else Held(starts[1..], call)
  }

  function Hold(starts: seq<PendingStart>, p: PendingStart): seq<PendingStart> {
    if starts == [] then [p]
    else if starts[0].call == p.call then [p] + starts[1..]
    else [starts[0]] + Hold(starts[1..], p)
  }

  function Drop(starts: seq<PendingStart>, call: Id): (r: seq<PendingStart>)
    ensures |r| <= |starts|
    ensures starts != [] && starts[0].call == call ==> |r| < |starts|
  {
    if starts == [] then []
    else if starts[0].call == call then Drop(starts[1..], call)
    else [starts[0]] + Drop(starts[1..], call)
  }

  // --- emission ---

  function FlushText(s: State): (r: State)
    ensures r == s.(w := r.w, text := None) && r.w.turn == s.w.turn
  {
    if s.text.None? || Join(s.text.value.parts) == "" then s.(text := None)
    else
      var run := s.text.value;
      s.(text := None,
         w := Put(StartSub(s.w, run.turn, run.sub), AgentIn(Text(Join(run.parts), run.thinking), run.turn, run.sub)))
  }

  function EmitStart(s: State, p: PendingStart): (r: State)
    ensures r == s.(w := r.w, starts := Drop(s.starts, p.call)) && r.w.turn == s.w.turn
  {
    s.(starts := Drop(s.starts, p.call),
       w := Put(StartSub(s.w, p.turn, p.sub),
                AgentIn(ToolStart(p.call, p.name, p.title, p.args, p.risk), p.turn, p.sub)))
  }

  function FlushStarts(s: State): (r: State)
    ensures r == s.(w := r.w, starts := []) && r.w.turn == s.w.turn
    decreases |s.starts|
  {
    if s.starts == [] then s else FlushStarts(EmitStart(s, s.starts[0]))
  }

  // --- turn lifecycle ---

  function StartTurn(s: State): State {
    s.(w := OpenTurn(s.w, s.nextId), nextId := s.nextId + 1, seen := [])
  }

  function CloseTurn(s: State, status: Status): State {
    if s.w.turn.None? then s
    else
      var s1 := FlushStarts(FlushText(s));
      State(EndTurn(s1.w, status), map[], map[], None, [], s1.nextId, s1.seen)
  }

  function TurnStatus(stopReason: string): Status {
    if stopReason == "end_turn" then Completed else if stopReason == "cancelled" then Cancelled else Failed
  }

  // --- the handlers ---

  function SameRun(run: TextRun, turn: Id, sub: Option<Id>, thinking: bool, messageId: Option<string>): bool {
    run.turn == turn && run.sub == sub && run.thinking == thinking && run.messageId == messageId
  }

  function HandleText(u: Update, thinking: bool, s: State): State {
    if s.w.turn.None? || u.text.None? then s
    else
      var turn := s.w.turn.value;
      var (sub, s1) := Resolve(u, s);
      if s1.text.Some? && SameRun(s1.text.value, turn, sub, thinking, u.messageId)
      then s1.(text := Some(s1.text.value.(parts := s1.text.value.parts + [u.text.value])))
      else FlushText(s1).(text := Some(TextRun(turn, sub, thinking, u.messageId, [u.text.value])))
  }

  // The plan envelope is written at once; the open text run is not flushed for it.
  function HandlePlan(u: Update, s: State): State {
    if s.w.turn.None? then s
    else
      var (sub, s1) := Resolve(u, s);
      s1.(w := Put(s1.w, AgentIn(Plan(u.steps), s1.w.turn.value, sub)))
  }

  function ToolName(u: Update): string {
    if u.claudeName.Some? then u.claudeName.value else if u.acpKind.Some? then u.acpKind.value else "tool"
  }

  const RISK_BY_KIND := map[
    "read" := ReadRisk, "search" := ReadRisk, "edit" := WriteRisk, "delete" := WriteRisk, "move" := WriteRisk,
    "execute" := ExecRisk, "fetch" := NetworkRisk]

  function ToolRisk(u: Update): Option<Risk> {
    if u.acpKind.Some? && u.acpKind.value in RISK_BY_KIND then Some(RISK_BY_KIND[u.acpKind.value]) else None
  }

  function HandleToolCall(u: Update, s: State): State {
    if s.w.turn.None? || u.toolCallId.None? then s
    else
      var (sub, s1) := Resolve(u, FlushText(s));
      var s2 := Mint(s1, u.toolCallId.value);
      var call := s2.ids[u.toolCallId.value];
      var p := PendingStart(s.w.turn.value, call, sub, ToolName(u), u.title, u.args, ToolRisk(u));
      Announce(s2, p)
  }

  // A start is held, and written at once when its arguments are known.
  function Announce(s: State, p: PendingStart): State {
    var s1 := s.(starts := Hold(s.starts, p), seen := s.seen + [p.call]);
    if p.args != EMPTY_ARGS then EmitStart(s1, p) else s1
  }

  function Refine(p: PendingStart, u: Update): PendingStart {
    p.(args := if u.args != EMPTY_ARGS then u.args else p.args,
       title := if u.title.Some? then u.title else p.title,
       risk := if p.risk.None? then ToolRisk(u) else p.risk,
       name := if u.claudeName.Some? && p.name == "tool" then u.claudeName.value else p.name)
  }

  function HandleToolCallUpdate(u: Update, s: State): State {
    if s.w.turn.None? || u.toolCallId.None? then s
    else
      var s1 := Mint(s, u.toolCallId.value);
      var call := s1.ids[u.toolCallId.value];
      if u.status.Unfinished? then RefineHeld(u, call, s1) else FinishCall(u, call, s1)
  }

  // A refinement emits the held start the moment its arguments become known.
  function RefineHeld(u: Update, call: Id, s: State): State {
    var held := Held(s.starts, call);
    if held.None? then s
    else
      var p := Refine(held.value, u);
      var s1 := s.(starts := Hold(s.starts, p));
      if p.args == EMPTY_ARGS then s1 else EmitStart(FlushText(s1), p)
  }

  function ShowHeld(u: Update, call: Id, s: State): (r: State)
    ensures r.w.turn == s.w.turn && r.text.None?
  {
    var s1 := FlushText(s);
    var held := Held(s1.starts, call);
    if held.Some? then EmitStart(s1, Refine(held.value, u)) else s1
  }

  // A terminal update shows a start that is still held, stops the subagent the call spawned, and
  // then ends the call.
  function FinishCall(u: Update, call: Id, s: State): State
    requires s.w.turn.Some?
  {
    var turn := s.w.turn.value;
    var s1 := ShowHeld(u, call, s);
    var s2 := s1.(w := StopSub(s1.w, turn, Some(call)));
    var (sub, s3) := Resolve(u, s2);
    s3.(w := Put(s3.w, AgentIn(ToolEnd(call, u.status.Succeeded?, u.output), turn, sub)))
  }

  function MapUpdate(u: Update, s: State): State {
    match u.kind
    case MessageChunk => HandleText(u, false, s)
    case ThoughtChunk => HandleText(u, true, s)
    case ToolCall => HandleToolCall(u, s)
    case ToolCallUpdate => HandleToolCallUpdate(u, s)
    case PlanUpdate => HandlePlan(u, s)
    case Unmapped => s
  }

  // What the transport asks of the mapper.
  datatype Input = Notify(u: Update) | FlushNow | BeginTurn | FinishTurn(status: Status)

  function Step(s: State, i: Input): State {
    match i
    case Notify(u) => MapUpdate(u, s)
    case FlushNow => FlushText(s)
    case BeginTurn => StartTurn(s)
    case FinishTurn(status) => CloseTurn(s, status)
  }

  function Run(s: State, inputs: seq<Input>): State
    decreases |inputs|
  {
    if inputs == [] then s else Run(Step(s, inputs[0]), inputs[1..])
  }
}
