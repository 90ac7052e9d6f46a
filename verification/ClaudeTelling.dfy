// What a Claude transcript is to be told as, without the mapper: the parts of its messages, one after the
// other, and what each of them writes and changes. Each message's parts are told exactly once and in order; a
// message's parts are interrupted only after one of its tool calls, and only by whole messages. Which call a
// message belongs to, and whether it has to wait for it, follows from what was told before it.
module ClaudeTelling {
  import opened Wrappers
  import opened Wire
  import opened ClaudeMapper

  // --- the parts of a message ---

  // How a block is taken: in an assistant message, beside tool results, or in a human prompt.
  datatype Way = Speaking | Replying | Prompting

  // Joins: the message goes into a turn, which is opened if none is, and its subagent starts if it is new and
  // `opens` says so. Leaves: the open turn ends.
  datatype Part =
    | Joins(opens: bool)
    | Leaves
    | Told(way: Way, b: Block)
    | Asked(md: string)
    | Counted(inputTokens: nat, outputTokens: nat)
    | Noted(note: string)

  function Each(way: Way, blocks: seq<Block>): seq<Part> {
    if blocks == [] then [] else [Told(way, blocks[0])] + Each(way, blocks[1..])
  }

  function Parts(m: Message): seq<Part> {
    match m.body
    case CompactSummary => [Noted("History compacted (/clear)")]
    case Assistant(blocks, usage) =>
      [Joins(true)] + Each(Speaking, blocks) + if usage.Some? then [Counted(usage.value.0, usage.value.1)] else []
    case UserText(meta, text, command) =>
      if meta || command.Invocation? then []
      else if command.Stdout? then [Noted(command.cleaned)]
      else if m.sidechain then [Joins(true), Told(Speaking, TextBlock(text))]
      else [Leaves, Asked(text.raw)]
    case UserBlocks(meta, blocks) =>
      if meta || blocks == [] then []
      else if m.sidechain || (exists b :: b in blocks && b.ToolResult?)
      then [Joins(m.sidechain)] + Each(Replying, blocks)
      else [Leaves] + Each(Prompting, blocks)
    case _ => []
  }

  // --- telling parts one after the other ---

  // A message is taken in, found to belong to a call, and maybe left waiting for it; a part of message
  // `owner` is told, in the turn and subagent the message is in, with the ids that were made for it: a name
  // for a tool_use that brought none, the call of its card, and the subagent its result stops; or the turn is
  // closed from outside.
  datatype Piece =
    | Takes(m: Message, parent: Option<ProviderId>, waits: bool)
    | Piece(owner: nat, part: Part, turn: Id, sub: Option<Id>, made: Option<nat>, call: Id, stops: Option<Id>)
    | Forced(status: Status)

  datatype Task = Task(prompt: string, p: ProviderId)

  // The open turn and how many turns ended; and since the last one did: the subagents that started and those
  // still running, the calls made, the tasks among them that are not answered yet, those whose prompt no
  // subagent has claimed yet, and the call the last message with each uuid was found to belong to.
  datatype Scene = Scene(turn: Option<Id>, ended: nat, started: set<Id>, running: seq<Id>,
                         calls: set<ProviderId>, tasks: set<ProviderId>,
                         unclaimed: seq<Task>, under: map<string, ProviderId>)

  const NOTHING := Scene(None, 0, {}, [], {}, {}, [], map[])

  // --- which call a message belongs to ---

  function FirstFor(tasks: seq<Task>, prompt: string): Option<Task> {
    if tasks == [] then None
    else if tasks[0].prompt == prompt then Some(tasks[0])
    else FirstFor(tasks[1..], prompt)
  }

  predicate OnePrompt(tasks: seq<Task>) {
    tasks != [] && forall t :: t in tasks ==> t.prompt == tasks[0].prompt
  }

  // The task a subagent's message claims when nothing else says whose it is: the oldest with its text as
  // prompt, or, for a root message, the oldest if only one prompt is left.
  function ClaimOf(scene: Scene, m: Message): Option<Task> {
    if m.parentToolUse.Some? || (m.parentUuid.Some? && m.parentUuid.value in scene.under) || !m.sidechain then None
    else if m.body.UserText? && m.body.text.trimmed != [] && FirstFor(scene.unclaimed, m.body.text.trimmed).Some?
    then FirstFor(scene.unclaimed, m.body.text.trimmed)
    else if m.parentUuid.None? && OnePrompt(scene.unclaimed) then Some(scene.unclaimed[0])
    else None
  }

  // The call a message names, or that of the message it answers, or the one whose prompt it claims.
  function ParentOf(scene: Scene, m: Message): Option<ProviderId> {
    if m.parentToolUse.Some? then Some(Raw(m.parentToolUse.value))
    else if m.parentUuid.Some? && m.parentUuid.value in scene.under then Some(scene.under[m.parentUuid.value])
    else if ClaimOf(scene, m).Some? then Some(ClaimOf(scene, m).value.p)
    else None
  }

  function Minus(tasks: seq<Task>, t: Task): seq<Task> {
    if tasks == [] then [] else if tasks[0] == t then tasks[1..] else [tasks[0]] + Minus(tasks[1..], t)
  }

  function Took(scene: Scene, m: Message, parent: Option<ProviderId>): Scene {
    scene.(unclaimed := if ClaimOf(scene, m).Some? then Minus(scene.unclaimed, ClaimOf(scene, m).value)
                        else scene.unclaimed,
           under := if parent.Some? && m.uuid.Some? then scene.under[m.uuid.value := parent.value] else scene.under)
  }

  // The call a piece is about.
  function CallOf(x: Piece): Option<ProviderId>
    requires x.Piece?
  {
    match x.part
    case Told(Speaking, ToolUse(id, _, _, _, _)) =>
      if id.Some? then Some(Raw(id.value)) else if x.made.Some? then Some(Made(x.made.value)) else None
    case Told(Replying, ToolResult(callId, _, _, _)) => if callId.Some? then Some(Raw(callId.value)) else None
    case _ => None
  }

  function Closed(scene: Scene): Scene {
    if scene.turn.None? then scene else Scene(None, scene.ended + 1, {}, [], {}, {}, [], map[])
  }

  // A Task may be called twice under one id and prompt before it is claimed; it is claimed once.
  function Called(scene: Scene, p: ProviderId, task: bool, prompt: Option<string>): Scene {
    var s1 := scene.(calls := scene.calls + {p});
    if !task then s1
    else
      s1.(tasks := s1.tasks + {p},
          unclaimed := if prompt.Some? && Task(prompt.value, p) !in s1.unclaimed
                       then s1.unclaimed + [Task(prompt.value, p)]
                       else s1.unclaimed)
  }

  predicate Starts(scene: Scene, opens: bool, sub: Option<Id>) {
    opens && sub.Some? && sub.value !in scene.started
  }

  function Joined(scene: Scene, opens: bool, turn: Id, sub: Option<Id>): Scene {
    var s1 := scene.(turn := Some(turn));
    if Starts(scene, opens, sub)
    then s1.(started := s1.started + {sub.value}, running := s1.running + [sub.value])
    else s1
  }

  function Others(ids: seq<Id>, id: Id): seq<Id> {
    if ids == [] then [] else (if ids[0] == id then [] else [ids[0]]) + Others(ids[1..], id)
  }

  function Answered(scene: Scene, p: ProviderId, stops: Option<Id>): Scene {
    scene.(tasks := scene.tasks - {p},
           running := if stops.Some? then Others(scene.running, stops.value) else scene.running)
  }

  function After(scene: Scene, x: Piece): Scene {
    match x
    case Takes(m, parent, _) => Took(scene, m, parent)
    case Forced(_) => Closed(scene)
    case Piece(_, Joins(opens), turn, sub, _, _, _) => Joined(scene, opens, turn, sub)
    case Piece(_, Leaves, _, _, _, _, _) => Closed(scene)
    case Piece(_, Told(Speaking, ToolUse(_, name, prompt, _, _)), _, _, _, _, _) =>
      if CallOf(x).Some? then Called(scene, CallOf(x).value, name == "Task", prompt) else scene
    case Piece(_, Told(Replying, ToolResult(_, _, _, _)), _, _, _, _, stops) =>
      if CallOf(x).Some? then Answered(scene, CallOf(x).value, stops) else scene
    case _ => scene
  }

  // An image of up to 256 KiB, going by its base64 text, is inlined; a larger one leaves a note.
  function Picture(image: ImageSource): Event {
    if |image.data| * 3 / 4 <= 262144 then File("inline:" + image.data, image.fileName, |image.data| * 3 / 4)
    else Service("image omitted (too large)")
  }

  function Pictures(images: seq<ImageSource>): seq<Event> {
    if images == [] then [] else [Picture(images[0])] + Pictures(images[1..])
  }

  // A card is titled by its description, cut to 80 characters, if it has one.
  function Title(name: string, description: Option<JsText>): string {
    if description.None? || description.value.trimmed == "" then name + " call"
    else if |description.value.raw| <= 80 then description.value.raw
    else description.value.raw[..77] + "..."
  }

  function RiskOf(name: string): Option<Risk> {
    if name == "Bash" then Some(ExecRisk)
    else if name in {"Edit", "Write", "MultiEdit", "NotebookEdit"} then Some(WriteRisk)
    else if name in {"Read", "Grep", "Glob", "LS"} then Some(ReadRisk)
    else if name in {"WebFetch", "WebSearch"} then Some(NetworkRisk)
    else None
  }

  // What a block of an assistant message says. A Task's call is not shown.
  function Spoken(b: Block, call: Id): seq<Event> {
    match b
    case TextBlock(text) => [Text(text.raw, false)]
    case ThinkingBlock(text) => [Text(text, true)]
    case ToolUse(_, name, _, description, input) =>
      if name == "Task" then []
      else [ToolStart(call, name, Some(Title(name, description)), input, RiskOf(name))]
    case _ => []
  }

  // What a block beside tool results says. The result of a Task is not shown.
  function Replied(b: Block, tasks: set<ProviderId>, call: Id): seq<Event> {
    match b
    case ToolResult(callId, isError, output, images) =>
      if callId.None? || Raw(callId.value) in tasks then [] else [ToolEnd(call, !isError, output)] + Pictures(images)
    case TextBlock(text) => if text.trimmed != [] then [Text(text.raw, false)] else []
    case ImageBlock(source) => if source.Some? then [Picture(source.value)] else []
    case _ => []
  }

  // What a block of a human prompt says.
  function Prompted(b: Block): seq<Envelope> {
    match b
    case TextBlock(text) => if text.trimmed != [] then [Envelope(User, Text(text.raw, false), None, None)] else []
    case ImageBlock(source) => if source.Some? then [Envelope(User, Picture(source.value), None, None)] else []
    case _ => []
  }

  function InTurn(events: seq<Event>, turn: Id, sub: Option<Id>): seq<Envelope> {
    if events == [] then [] else [AgentIn(events[0], turn, sub)] + InTurn(events[1..], turn, sub)
  }

  function Stopping(ids: seq<Id>, turn: Id): seq<Envelope> {
    if ids == [] then [] else [AgentIn(SubStop, turn, Some(ids[0]))] + Stopping(ids[1..], turn)
  }

  function Ending(scene: Scene, status: Status): seq<Envelope> {
    if scene.turn.Some?
    then Stopping(scene.running, scene.turn.value) + [AgentIn(TurnEnd(status), scene.turn.value, None)]
    else []
  }

  function Joining(scene: Scene, opens: bool, turn: Id, sub: Option<Id>): seq<Envelope> {
    (if scene.turn.None? then [AgentIn(TurnStart, turn, None)] else []) +
    (if Starts(scene, opens, sub) then [AgentIn(SubStart, turn, sub)] else [])
  }

  function Quitting(scene: Scene, turn: Id, stops: Option<Id>): seq<Envelope> {
    if stops.Some? && stops.value in scene.running then [AgentIn(SubStop, turn, stops)] else []
  }

  function Shown(scene: Scene, x: Piece): seq<Envelope> {
    if x.Forced? then Ending(scene, x.status)
    else if x.Takes? then []
    else
      match x.part
      case Joins(opens) => Joining(scene, opens, x.turn, x.sub)
      case Leaves => Ending(scene, Completed)
      case Asked(md) => [Envelope(User, Text(md, false), None, None)]
      case Noted(note) => [Envelope(Agent, Service(note), None, None)]
      case Counted(i, o) => [AgentIn(Usage(i, o), x.turn, x.sub)]
      case Told(Prompting, b) => Prompted(b)
      case Told(Speaking, b) => InTurn(Spoken(b, x.call), x.turn, x.sub)
      case Told(Replying, b) =>
        Quitting(scene, x.turn, x.stops) + InTurn(Replied(b, scene.tasks, x.call), x.turn, x.sub)
  }

  function SceneOf(v: seq<Piece>): Scene {
    if v == [] then NOTHING else After(SceneOf(v[..|v| - 1]), v[|v| - 1])
  }

  // What a telling leaves in the log.
  function Rendered(v: seq<Piece>): seq<Envelope> {
    if v == [] then [] else Rendered(v[..|v| - 1]) + Shown(SceneOf(v[..|v| - 1]), v[|v| - 1])
  }

  // The parts of message k told so far.
  function Own(v: seq<Piece>, k: int): seq<Part> {
    if v == [] then []
    else
      Own(v[..|v| - 1], k) +
      if v[|v| - 1].Piece? && v[|v| - 1].owner == k then [v[|v| - 1].part] else []
  }

  // The messages taken in and not left waiting.
  function Taken(v: seq<Piece>): seq<Mapped> {
    if v == [] then []
    else
      var x := v[|v| - 1];
      Taken(v[..|v| - 1]) + if x.Takes? && !x.waits then [Mapped(x.m, x.parent)] else []
  }

  function Forces(v: seq<Piece>): seq<Status> {
    if v == [] then [] else Forces(v[..|v| - 1]) + if v[|v| - 1].Forced? then [v[|v| - 1].status] else []
  }

  // --- what makes a telling right ---

  // Call and subagent ids live until the turn ends.
  datatype Key = CallKey(ended: nat, p: ProviderId) | SubKey(ended: nat, p: ProviderId)

  // The turn and the subagent a message is in.
  datatype Seat = Seat(turn: Id, sub: Option<Id>)

  datatype Tale = Tale(v: seq<Piece>, seats: seq<Seat>, dir: map<Key, Id>)

  predicate NamedIn(dir: map<Key, Id>, ended: nat, p: Option<ProviderId>, sub: Option<Id>) {
    if p.Some? then SubKey(ended, p.value) in dir && sub == Some(dir[SubKey(ended, p.value)]) else sub.None?
  }

  predicate CallsTool(part: Part) {
    part.Told? && part.way.Speaking? && part.b.ToolUse?
  }

  // Message k starts after those before it, and goes on only where it left off or after a tool call of its.
  predicate GoesOn(v: seq<Piece>, k: nat) {
    if Own(v, k) == [] then forall x :: x in v && x.Piece? ==> x.owner < k
    else (v != [] && v[|v| - 1].Piece? && v[|v| - 1].owner == k) || CallsTool(Own(v, k)[|Own(v, k)| - 1])
  }

  // The messages after k that have begun are told completely.
  predicate Whole(v: seq<Piece>, mapped: seq<Mapped>, k: int) {
    forall j :: k < j < |mapped| && 0 <= j ==> Own(v, j) == [] || Own(v, j) == Parts(mapped[j].m)
  }

  // The piece is about a call with a card.
  predicate Carded(scene: Scene, x: Piece)
    requires x.Piece?
  {
    CallOf(x).Some? &&
    match x.part
    case Told(Speaking, b) => Spoken(b, x.call) != []
    case Told(_, b) => Replied(b, scene.tasks, x.call) != []
    case _ => false
  }

  // A result stops the subagent its call spawned.
  predicate StopsRight(dir: map<Key, Id>, scene: Scene, x: Piece)
    requires x.Piece?
  {
    if x.part.Told? && x.part.way.Replying? && CallOf(x).Some? && CallOf(x).value in scene.calls
    then SubKey(scene.ended, CallOf(x).value) in dir && x.stops == Some(dir[SubKey(scene.ended, CallOf(x).value)])
    else x.stops.None?
  }

  // Piece x may come after v.
  predicate Fits(v: seq<Piece>, x: Piece, t: Tale, mapped: seq<Mapped>) {
    var scene := SceneOf(v);
    if x.Forced? then Whole(v, mapped, -1)
    else if x.Takes? then
      x.parent == ParentOf(scene, x.m) && (x.waits <==> x.parent.Some? && x.parent.value !in scene.calls)
    else
      x.owner < |mapped| && x.owner < |t.seats| && Seat(x.turn, x.sub) == t.seats[x.owner] &&
      GoesOn(v, x.owner) && Whole(v, mapped, x.owner) &&
      (x.part.Joins? ==>
         (scene.turn.None? || scene.turn == Some(x.turn)) &&
         NamedIn(t.dir, scene.ended, mapped[x.owner].parent, x.sub)) &&
      (CallsTool(x.part) && x.part.b.id.None? ==>
         x.made.Some? && forall y :: y in v && y.Piece? ==> y.made != x.made) &&
      StopsRight(t.dir, scene, x) &&
      (Carded(scene, x) ==>
         CallKey(scene.ended, CallOf(x).value) in t.dir && t.dir[CallKey(scene.ended, CallOf(x).value)] == x.call)
  }

  predicate Right(v: seq<Piece>, t: Tale, mapped: seq<Mapped>) {
    v == [] || (Right(v[..|v| - 1], t, mapped) && Fits(v[..|v| - 1], v[|v| - 1], t, mapped))
  }

  predicate OneToOne(dir: map<Key, Id>) {
    forall x, y :: x in dir && y in dir && dir[x] == dir[y] ==> x == y
  }
}
