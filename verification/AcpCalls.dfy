// What the ACP mapper writes about tools and plans, in terms of the notifications alone: a tool start
// carries everything its call's notifications have said by then, and goes out as soon as one of them
// has brought arguments.
module AcpCalls {
  import opened Wrappers
  import opened Wire
  import opened Scopes
  import opened AcpMapper
  import opened AcpTraces

  // --- what the notifications of a call say ---

  // The notifications about a call's start since it was announced, and the call it was announced under.
  datatype Story = Story(parent: Option<string>, notes: seq<Update>)

  function LastArgs(notes: seq<Update>): Json {
    if notes == [] then EMPTY_ARGS
    else if notes[|notes| - 1].args != EMPTY_ARGS then notes[|notes| - 1].args
    else LastArgs(notes[..|notes| - 1])
  }

  function LastTitle(notes: seq<Update>): Option<string> {
    if notes == [] then None
    else if notes[|notes| - 1].title.Some? then notes[|notes| - 1].title
    else LastTitle(notes[..|notes| - 1])
  }

  function RiskOf(u: Update): Option<Risk> {
    if u.acpKind.None? then None
    else if u.acpKind.value in {"read", "search"} then Some(ReadRisk)
    else if u.acpKind.value in {"edit", "delete", "move"} then Some(WriteRisk)
    else if u.acpKind.value == "execute" then Some(ExecRisk)
    else if u.acpKind.value == "fetch" then Some(NetworkRisk)
    else None
  }

  function FirstRisk(notes: seq<Update>): Option<Risk> {
    if notes == [] then None else if RiskOf(notes[0]).Some? then RiskOf(notes[0]) else FirstRisk(notes[1..])
  }

  // The first proper name the agent's own tool names bring.
  function FirstName(notes: seq<Update>): string {
    if notes == [] then "tool"
    else if notes[0].claudeName.Some? && notes[0].claudeName.value != "tool" then notes[0].claudeName.value
    else FirstName(notes[1..])
  }

  // The announcement's own tool name, or its kind, or else the first proper name a refinement brings.
  function BestName(notes: seq<Update>): string
    requires notes != []
  {
    match (notes[0].claudeName, notes[0].acpKind)
    case (Some(name), _) => if name != "tool" then name else FirstName(notes[1..])
    case (None, Some(kind)) => if kind != "tool" then kind else FirstName(notes[1..])
    case (None, None) => FirstName(notes[1..])
  }

  // --- what is known, held and let out, from the inputs alone ---

  predicate InTurn(inputs: seq<Input>) {
    inputs != [] &&
    match inputs[|inputs| - 1]
    case BeginTurn => true
    case FinishTurn(_) => false
    case _ => InTurn(inputs[..|inputs| - 1])
  }

  // The notifications that put something in a scope.
  predicate Placed(u: Update) {
    match u.kind
    case MessageChunk => u.text.Some?
    case ThoughtChunk => u.text.Some?
    case ToolCall => u.toolCallId.Some?
    case ToolCallUpdate => u.toolCallId.Some? && !u.status.Unfinished?
    case PlanUpdate => true
    case Unmapped => false
  }

  // The call each call of the open turn was last said to run under.
  function Parents(inputs: seq<Input>): map<string, string> {
    if inputs == [] then map[]
    else
      var before := inputs[..|inputs| - 1];
      match inputs[|inputs| - 1]
      case Notify(u) =>
        if InTurn(before) && Placed(u) && u.toolCallId.Some? && u.parentToolUse.Some?
        then Parents(before)[u.toolCallId.value := u.parentToolUse.value]
        else Parents(before)
      case FinishTurn(_) => map[]
      case _ => Parents(before)
  }

  // The call u is about to be placed under.
  function ParentOf(before: seq<Input>, u: Update): Option<string> {
    if u.parentToolUse.Some? then u.parentToolUse
    else if u.toolCallId.Some? && u.toolCallId.value in Parents(before) then Some(Parents(before)[u.toolCallId.value])
    else None
  }

  // Nothing more is awaited before the start can be shown.
  predicate Complete(u: Update) {
    u.args != EMPTY_ARGS || (u.kind.ToolCallUpdate? && !u.status.Unfinished?)
  }

  // The calls announced in the open turn whose start has not been let out since.
  function Awaited(inputs: seq<Input>): map<string, Story>
    decreases |inputs|, 0
  {
    if inputs == [] then map[]
    else
      var before := inputs[..|inputs| - 1];
      match inputs[|inputs| - 1]
      case Notify(u) =>
        var story := Heard(before, u);
        if story.None? then Awaited(before)
        else if Complete(u) then Awaited(before) - {u.toolCallId.value}
        else Awaited(before)[u.toolCallId.value := story.value]
      case FinishTurn(_) => map[]
      case _ => Awaited(before)
  }

  // What is known of u's call once u has come, if u is about a start that is still to be shown.
  function Heard(before: seq<Input>, u: Update): (r: Option<Story>)
    ensures r.Some? ==> InTurn(before) && u.toolCallId.Some? && (u.kind.ToolCall? || u.kind.ToolCallUpdate?)
    decreases |before|, 1
  {
    if !InTurn(before) || u.toolCallId.None? then None
    else if u.kind.ToolCall? then Some(Story(ParentOf(before, u), [u]))
    else if u.kind.ToolCallUpdate? && u.toolCallId.value in Awaited(before)
    then
      var story := Awaited(before)[u.toolCallId.value];
      Some(story.(notes := story.notes + [u]))
    else None
  }

  predicate EndsCall(before: seq<Input>, u: Update) {
    InTurn(before) && u.kind.ToolCallUpdate? && u.toolCallId.Some? && !u.status.Unfinished?
  }

  // --- what is written ---

  // A tool or plan envelope, without the turn it is in.
  datatype Act = Act(ev: Event, sub: Option<Id>)

  function ActOf(e: Envelope): seq<Act> {
    if e.ev.ToolStart? || e.ev.ToolEnd? || e.ev.Plan? then [Act(e.ev, e.sub)] else []
  }

  function Acts(log: seq<Envelope>): seq<Act> {
    if log == [] then [] else Acts(log[..|log| - 1]) + ActOf(log[|log| - 1])
  }

  predicate Under(ids: map<string, Id>, parent: Option<string>, sub: Option<Id>) {
    if parent.Some? then parent.value in ids && sub == Some(ids[parent.value]) else sub.None?
  }

  // Act a is the start of call t as its story tells it.
  predicate Starts(a: Act, ids: map<string, Id>, t: string, story: Story) {
    story.notes != [] && t in ids && Under(ids, story.parent, a.sub) &&
    a.ev == ToolStart(ids[t], BestName(story.notes), LastTitle(story.notes), LastArgs(story.notes),
                      FirstRisk(story.notes))
  }

  predicate Ends(a: Act, ids: map<string, Id>, before: seq<Input>, u: Update)
    requires u.toolCallId.Some?
  {
    u.toolCallId.value in ids && Under(ids, ParentOf(before, u), a.sub) &&
    a.ev == ToolEnd(ids[u.toolCallId.value], u.status.Succeeded?, u.output)
  }

  // What u writes, in this order: the start it completes, the end of its call, the plan.
  predicate NotifyWrites(acts: seq<Act>, ids: map<string, Id>, before: seq<Input>, u: Update) {
    var started := Heard(before, u).Some? && Complete(u);
    var ended := EndsCall(before, u);
    var planned := InTurn(before) && u.kind.PlanUpdate?;
    |acts| == (if started then 1 else 0) + (if ended then 1 else 0) + (if planned then 1 else 0) &&
    (started ==> Starts(acts[0], ids, u.toolCallId.value, Heard(before, u).value)) &&
    (ended ==> Ends(acts[|acts| - 1], ids, before, u)) &&
    (planned ==> acts[0].ev == Plan(u.steps) && Under(ids, ParentOf(before, u), acts[0].sub))
  }

  // What the end of a turn writes: the start of every call still awaited, once each.
  ghost predicate FinishWrites(acts: seq<Act>, ids: map<string, Id>, awaited: map<string, Story>) {
    (forall a :: a in acts ==> TellsSome(a, ids, awaited)) &&
    (forall t :: t in awaited ==> IsTold(acts, ids, t, awaited[t])) &&
    forall j, k :: 0 <= j < k < |acts| ==> acts[j] != acts[k]
  }

  ghost predicate TellsSome(a: Act, ids: map<string, Id>, awaited: map<string, Story>) {
    exists t :: t in awaited && Starts(a, ids, t, awaited[t])
  }

  ghost predicate IsTold(acts: seq<Act>, ids: map<string, Id>, t: string, story: Story) {
    exists a :: a in acts && Starts(a, ids, t, story)
  }

  ghost predicate Writes(acts: seq<Act>, ids: map<string, Id>, before: seq<Input>, i: Input) {
    match i
    case Notify(u) => NotifyWrites(acts, ids, before, u)
    case FinishTurn(_) => FinishWrites(acts, ids, Awaited(before))
    case _ => acts == []
  }

  // --- the mapper knows what was said ---

  predicate Bears(p: PendingStart, ids: map<string, Id>, t: string, story: Story) {
    Starts(StartAct(p), ids, t, story)
  }

  function StartAct(p: PendingStart): Act {
    Act(ToolStart(p.call, p.name, p.title, p.args, p.risk), p.sub)
  }

  predicate OneToOne(ids: map<string, Id>) {
    forall t, x :: t in ids && x in ids && ids[t] == ids[x] ==> t == x
  }

  // The ids are one-to-one, and the scopes of the calls are those they were said to run under.
  ghost predicate Named(ids: map<string, Id>, subOf: map<Id, Id>, nextId: nat, parents: map<string, string>) {
    OneToOne(ids) && (forall t :: t in ids ==> ids[t] < nextId) && (forall c :: c in subOf ==> c < nextId) &&
    (forall t :: t in parents ==> t in ids && parents[t] in ids) &&
    (forall t :: t in ids ==> (ids[t] in subOf <==> t in parents)) &&
    (forall t :: t in parents ==> subOf[ids[t]] == ids[parents[t]])
  }

  ghost predicate Registered(s: State, parents: map<string, string>) {
    Named(s.ids, s.subOf, s.nextId, parents)
  }

  predicate Waits(starts: seq<PendingStart>, ids: map<string, Id>, t: string, story: Story) {
    t in ids && Held(starts, ids[t]).Some? && Bears(Held(starts, ids[t]).value, ids, t, story) &&
    LastArgs(story.notes) == EMPTY_ARGS
  }

  ghost predicate Belongs(c: Id, ids: map<string, Id>, awaited: map<string, Story>) {
    exists t :: t in awaited && t in ids && ids[t] == c
  }

  // The held starts are those of the awaited calls, with all that was said about them.
  ghost predicate Holding(starts: seq<PendingStart>, ids: map<string, Id>, awaited: map<string, Story>) {
    Distinct(Calls(starts)) && (forall c :: c in Calls(starts) ==> Belongs(c, ids, awaited)) &&
    (forall t :: t in awaited ==> Waits(starts, ids, t, awaited[t]))
  }

  ghost predicate Knows(s: State, inputs: seq<Input>) {
    (s.w.turn.Some? <==> InTurn(inputs)) && Registered(s, Parents(inputs)) &&
    Holding(s.starts, s.ids, Awaited(inputs)) &&
    (s.w.turn.None? ==> s.starts == [] && s.ids == map[] && s.subOf == map[])
  }

  // --- ids and scopes ---

  predicate Extends(s: State, r: State) {
    forall t :: t in s.ids ==> t in r.ids && r.ids[t] == s.ids[t]
  }

  lemma MintNamed(s: State, t: string, parents: map<string, string>)
    requires Registered(s, parents)
    ensures Registered(Mint(s, t), parents) && Extends(s, Mint(s, t))
  {
  }

  lemma LinkNamed(s: State, t: string, p: string, parents: map<string, string>)
    requires Registered(s, parents) && t in s.ids && p in s.ids
    ensures Registered(s.(subOf := s.subOf[s.ids[t] := s.ids[p]]), parents[t := p])
  {
  }

  lemma NotifyParents(before: seq<Input>, u: Update)
    ensures Parents(before + [Notify(u)])
         == if InTurn(before) && Placed(u) && u.toolCallId.Some? && u.parentToolUse.Some?
            then Parents(before)[u.toolCallId.value := u.parentToolUse.value]
            else Parents(before)
    ensures InTurn(before + [Notify(u)]) <==> InTurn(before)
  {
    assert (before + [Notify(u)])[..|before|] == before;
  }

  lemma NotifyAwaited(before: seq<Input>, u: Update)
    ensures Awaited(before + [Notify(u)])
         == if Heard(before, u).None? then Awaited(before)
            else if Complete(u) then Awaited(before) - {u.toolCallId.value}
            else Awaited(before)[u.toolCallId.value := Heard(before, u).value]
  {
    assert (before + [Notify(u)])[..|before|] == before;
  }

  lemma ResolveNamed(u: Update, s: State, before: seq<Input>)
    requires Registered(s, Parents(before))
    ensures var (sub, r) := Resolve(u, s);
            && Extends(s, r) && Under(r.ids, ParentOf(before, u), sub)
            && (u.toolCallId.Some? ==> u.toolCallId.value in r.ids)
            && (InTurn(before) && Placed(u) ==> Registered(r, Parents(before + [Notify(u)])))
  {
    var parents := Parents(before);
    NotifyParents(before, u);
    if u.parentToolUse.Some? {
      MintNamed(s, u.parentToolUse.value, parents);
      var s1 := Mint(s, u.parentToolUse.value);
      if u.toolCallId.Some? {
        MintNamed(s1, u.toolCallId.value, parents);
        LinkNamed(Mint(s1, u.toolCallId.value), u.toolCallId.value, u.parentToolUse.value, parents);
      }
    } else if u.toolCallId.Some? {
      MintNamed(s, u.toolCallId.value, parents);
    }
  }

  // --- the held starts ---

  lemma {:induction false} HoldHeld(starts: seq<PendingStart>, p: PendingStart, c: Id)
    requires c != p.call
    ensures Held(Hold(starts, p), c) == Held(starts, c)
  {
    if starts != [] && starts[0].call != p.call {
      HoldHeld(starts[1..], p, c);
      assert ([starts[0]] + Hold(starts[1..], p))[1..] == Hold(starts[1..], p);
    } else if starts != [] {
      assert ([p] + starts[1..])[1..] == starts[1..];
    }
  }

  lemma {:induction false} DropHeld(starts: seq<PendingStart>, call: Id, c: Id)
    requires c != call
    ensures Held(Drop(starts, call), c) == Held(starts, c)
  {
    if starts != [] {
      DropHeld(starts[1..], call, c);
      if starts[0].call != call {
        assert ([starts[0]] + Drop(starts[1..], call))[1..] == Drop(starts[1..], call);
      }
    }
  }

  lemma HoldingExtends(s: State, r: State, awaited: map<string, Story>)
    requires Holding(s.starts, s.ids, awaited) && Extends(s, r) && r.starts == s.starts
    ensures Holding(r.starts, r.ids, awaited)
  {
    forall c | c in Calls(r.starts)
      ensures Belongs(c, r.ids, awaited)
    {
      assert Belongs(c, s.ids, awaited);
    }
    forall t | t in awaited
      ensures Waits(r.starts, r.ids, t, awaited[t])
    {
      assert Waits(s.starts, s.ids, t, awaited[t]);
    }
  }

  lemma HoldHolding(starts: seq<PendingStart>, ids: map<string, Id>, p: PendingStart, t: string, story: Story,
                    awaited: map<string, Story>)
    requires OneToOne(ids) && Holding(starts, ids, awaited) && Bears(p, ids, t, story)
    requires LastArgs(story.notes) == EMPTY_ARGS
    ensures Holding(Hold(starts, p), ids, awaited[t := story])
  {
    HoldCalls(starts, p);
    var now := awaited[t := story];
    assert t in now && ids[t] == p.call;
    forall c | c in Calls(Hold(starts, p))
      ensures Belongs(c, ids, now)
    {
      if c != p.call {
        assert Belongs(c, ids, awaited);
        var x :| x in awaited && x in ids && ids[x] == c;
        assert x in now;
      }
    }
    forall x | x in now
      ensures Waits(Hold(starts, p), ids, x, now[x])
    {
      if x != t {
        assert Waits(starts, ids, x, awaited[x]);
        HoldHeld(starts, p, ids[x]);
      }
    }
  }

  lemma OthersBelong(starts: seq<PendingStart>, ids: map<string, Id>, t: string, awaited: map<string, Story>)
    requires Distinct(Calls(starts)) && t in ids && forall c :: c in Calls(starts) ==> Belongs(c, ids, awaited)
    ensures forall c :: c in Calls(Drop(starts, ids[t])) ==> Belongs(c, ids, awaited - {t})
  {
    DropCalls(starts, ids[t]);
    forall c | c in Calls(Drop(starts, ids[t]))
      ensures Belongs(c, ids, awaited - {t})
    {
      assert Belongs(c, ids, awaited);
      var x :| x in awaited && x in ids && ids[x] == c;
      assert x in awaited - {t};
    }
  }

  lemma DropHolding(starts: seq<PendingStart>, ids: map<string, Id>, t: string, awaited: map<string, Story>)
    requires OneToOne(ids) && Holding(starts, ids, awaited) && t in ids
    ensures Holding(Drop(starts, ids[t]), ids, awaited - {t})
  {
    DropCalls(starts, ids[t]);
    OthersBelong(starts, ids, t, awaited);
    forall x | x in awaited - {t}
      ensures Waits(Drop(starts, ids[t]), ids, x, (awaited - {t})[x])
    {
      assert Waits(starts, ids, x, awaited[x]);
      DropHeld(starts, ids[t], ids[x]);
    }
  }

  // A call is held exactly when it is awaited.
  lemma HeldAwaited(starts: seq<PendingStart>, ids: map<string, Id>, t: string, awaited: map<string, Story>)
    requires OneToOne(ids) && Holding(starts, ids, awaited) && t in ids
    ensures Held(starts, ids[t]).Some? <==> t in awaited
    ensures t in awaited ==> Waits(starts, ids, t, awaited[t])
  {
    HeldCalls(starts, ids[t]);
    if Held(starts, ids[t]).Some? {
      assert Belongs(ids[t], ids, awaited);
    }
  }

  // Dropping a start just put in is dropping the one before.
  lemma {:induction false} DropHold(starts: seq<PendingStart>, p: PendingStart)
    ensures Drop(Hold(starts, p), p.call) == Drop(starts, p.call)
  {
    if starts == [] {
    } else if starts[0].call == p.call {
      assert ([p] + starts[1..])[1..] == starts[1..];
    } else {
      DropHold(starts[1..], p);
      assert ([starts[0]] + Hold(starts[1..], p))[1..] == Hold(starts[1..], p);
    }
  }

  // --- a refinement adds to the story ---

  lemma {:induction false} FirstRiskAppend(notes: seq<Update>, u: Update)
    ensures FirstRisk(notes + [u]) == if FirstRisk(notes).Some? then FirstRisk(notes) else ToolRisk(u)
  {
    if notes == [] {
      assert ([] + [u])[1..] == [];
    } else {
      FirstRiskAppend(notes[1..], u);
      assert (notes + [u])[1..] == notes[1..] + [u];
    }
  }

  lemma {:induction false} FirstNameAppend(notes: seq<Update>, u: Update)
    ensures FirstName(notes + [u])
         == if FirstName(notes) != "tool" || u.claudeName.None? then FirstName(notes) else u.claudeName.value
  {
    if notes == [] {
      assert ([] + [u])[1..] == [];
    } else {
      FirstNameAppend(notes[1..], u);
      assert (notes + [u])[1..] == notes[1..] + [u];
    }
  }

  lemma AnnouncedBears(p: PendingStart, ids: map<string, Id>, t: string, story: Story, u: Update)
    requires story.notes == [u] && t in ids && Under(ids, story.parent, p.sub)
    requires p.call == ids[t] && p.name == ToolName(u) && p.title == u.title && p.args == u.args
    requires p.risk == ToolRisk(u)
    ensures Bears(p, ids, t, story)
  {
    assert [u][1..] == [] && [u][..0] == [];
  }

  lemma RefinedBears(p: PendingStart, u: Update, ids: map<string, Id>, t: string, story: Story)
    requires Bears(p, ids, t, story)
    ensures Bears(Refine(p, u), ids, t, story.(notes := story.notes + [u]))
  {
    var notes := story.notes;
    FirstRiskAppend(notes, u);
    FirstNameAppend(notes[1..], u);
    assert (notes + [u])[1..] == notes[1..] + [u] && (notes + [u])[..|notes|] == notes;
  }

  // --- what the pieces write ---

  lemma ActsPut(w: Writer, e: Envelope)
    ensures Acts(Put(w, e).log) == Acts(w.log) + ActOf(e)
  {
    assert (w.log + [e])[..|w.log|] == w.log;
  }

  lemma StartSubActs(w: Writer, turn: Id, sub: Option<Id>)
    ensures Acts(StartSub(w, turn, sub).log) == Acts(w.log)
  {
    ActsPut(w, AgentIn(SubStart, turn, sub));
  }

  lemma StopSubActs(w: Writer, turn: Id, sub: Option<Id>)
    ensures Acts(StopSub(w, turn, sub).log) == Acts(w.log)
  {
    ActsPut(w, AgentIn(SubStop, turn, sub));
  }

  lemma {:induction false} StopAllActs(w: Writer, turn: Id)
    ensures Acts(StopAll(w, turn).log) == Acts(w.log)
    decreases |w.active|
  {
    if w.active != [] {
      ActsPut(w, AgentIn(SubStop, turn, Some(w.active[0])));
      StopAllActs(Put(w.(active := w.active[1..]), AgentIn(SubStop, turn, Some(w.active[0]))), turn);
    }
  }

  lemma FlushTextActs(s: State)
    ensures Acts(FlushText(s).w.log) == Acts(s.w.log)
  {
    if s.text.Some? && Join(s.text.value.parts) != "" {
      var run := s.text.value;
      StartSubActs(s.w, run.turn, run.sub);
      ActsPut(StartSub(s.w, run.turn, run.sub), AgentIn(Text(Join(run.parts), run.thinking), run.turn, run.sub));
    }
  }

  lemma EmitStartActs(s: State, p: PendingStart)
    ensures Acts(EmitStart(s, p).w.log) == Acts(s.w.log) + [StartAct(p)]
  {
    StartSubActs(s.w, p.turn, p.sub);
    ActsPut(StartSub(s.w, p.turn, p.sub),
      AgentIn(ToolStart(p.call, p.name, p.title, p.args, p.risk), p.turn, p.sub));
  }

  // --- each input ---

  lemma StartsExtends(a: Act, s: State, r: State, t: string, story: Story)
    requires Starts(a, s.ids, t, story) && Extends(s, r)
    ensures Starts(a, r.ids, t, story)
  {
  }

  // The scope of a notification is resolved as its parents say.
  lemma ResolveKnows(u: Update, s: State, before: seq<Input>)
    requires Knows(s, before) && InTurn(before) && Placed(u)
    ensures var (sub, r) := Resolve(u, s);
            && Under(r.ids, ParentOf(before, u), sub)
            && (u.toolCallId.Some? ==> u.toolCallId.value in r.ids)
            && Registered(r, Parents(before + [Notify(u)])) && Holding(r.starts, r.ids, Awaited(before))
  {
    ResolveNamed(u, s, before);
    HoldingExtends(s, Resolve(u, s).1, Awaited(before));
  }

  lemma FlushTextKnows(s: State, inputs: seq<Input>)
    requires Knows(s, inputs)
    ensures Knows(FlushText(s), inputs)
  {
  }

  // What the handling of an input must establish.
  ghost predicate Follows(s: State, before: seq<Input>, i: Input, r: State, acts: seq<Act>) {
    Knows(r, before + [i]) && Acts(r.w.log) == Acts(s.w.log) + acts &&
    Writes(acts, if i.Notify? then r.ids else s.ids, before, i)
  }

  lemma IdleFollows(s: State, before: seq<Input>, i: Input)
    requires Knows(s, before) && !i.BeginTurn? && !i.FinishTurn?
    requires i.Notify? ==> !InTurn(before) || (!Placed(i.u) && !(i.u.kind.ToolCallUpdate? && i.u.toolCallId.Some?))
    ensures Follows(s, before, i, s, [])
  {
    if i.Notify? {
      NotifyParents(before, i.u);
      NotifyAwaited(before, i.u);
    } else {
      assert (before + [i])[..|before|] == before;
    }
  }

  lemma ChunkFollows(u: Update, s: State, before: seq<Input>, s1: State, r: State)
    requires InTurn(before) && s1.w.turn.Some? && !u.kind.ToolCall? && !u.kind.ToolCallUpdate? && !u.kind.PlanUpdate?
    requires Registered(s1, Parents(before + [Notify(u)])) && Holding(s1.starts, s1.ids, Awaited(before))
    requires r == s1.(w := r.w, text := r.text) && r.w.turn == s1.w.turn && Acts(r.w.log) == Acts(s.w.log)
    ensures Follows(s, before, Notify(u), r, [])
  {
    NotifyParents(before, u);
    NotifyAwaited(before, u);
  }

  lemma HandleTextFollows(u: Update, thinking: bool, s: State, before: seq<Input>)
    requires Knows(s, before) && u.kind == if thinking then ThoughtChunk else MessageChunk
    ensures Follows(s, before, Notify(u), HandleText(u, thinking, s), [])
  {
    NotifyParents(before, u);
    NotifyAwaited(before, u);
    if s.w.turn.None? || u.text.None? {
      IdleFollows(s, before, Notify(u));
    } else {
      ResolveKnows(u, s, before);
      var s1 := Resolve(u, s).1;
      FlushTextActs(s1);
      ChunkFollows(u, s, before, s1, HandleText(u, thinking, s));
    }
  }

  lemma HandlePlanFollows(u: Update, s: State, before: seq<Input>) returns (acts: seq<Act>)
    requires Knows(s, before) && u.kind.PlanUpdate?
    ensures Follows(s, before, Notify(u), HandlePlan(u, s), acts)
  {
    NotifyParents(before, u);
    NotifyAwaited(before, u);
    acts := [];
    if s.w.turn.None? {
      IdleFollows(s, before, Notify(u));
    } else {
      ResolveKnows(u, s, before);
      var (sub, s1) := Resolve(u, s);
      ActsPut(s1.w, AgentIn(Plan(u.steps), s1.w.turn.value, sub));
      acts := [Act(Plan(u.steps), sub)];
    }
  }

  // Putting a start on hold and, if it is complete, letting it out.
  lemma TakeFollows(s: State, before: seq<Input>, u: Update, p: PendingStart, story: Story) returns (acts: seq<Act>)
    requires OneToOne(s.ids) && Holding(s.starts, s.ids, Awaited(before))
    requires Heard(before, u) == Some(story) && Bears(p, s.ids, u.toolCallId.value, story)
    requires !Complete(u) ==> LastArgs(story.notes) == EMPTY_ARGS
    ensures Holding(if Complete(u) then Drop(s.starts, p.call) else Hold(s.starts, p), s.ids,
              Awaited(before + [Notify(u)]))
    ensures acts == if Complete(u) then [StartAct(p)] else []
  {
    NotifyAwaited(before, u);
    acts := [];
    if Complete(u) {
      DropHolding(s.starts, s.ids, u.toolCallId.value, Awaited(before));
      acts := [StartAct(p)];
    } else {
      HoldHolding(s.starts, s.ids, p, u.toolCallId.value, story, Awaited(before));
    }
  }

  lemma AnnounceKnows(s: State, before: seq<Input>, u: Update, p: PendingStart) returns (acts: seq<Act>)
    requires OneToOne(s.ids) && Holding(s.starts, s.ids, Awaited(before))
    requires InTurn(before) && u.kind.ToolCall? && u.toolCallId.Some? && p.args == u.args
    requires Bears(p, s.ids, u.toolCallId.value, Story(ParentOf(before, u), [u]))
    ensures var r := Announce(s, p);
            && r == s.(w := r.w, starts := r.starts, seen := r.seen) && r.w.turn == s.w.turn
            && Holding(r.starts, r.ids, Awaited(before + [Notify(u)])) && Acts(r.w.log) == Acts(s.w.log) + acts
            && acts == (if Complete(u) then [StartAct(p)] else [])
  {
    var story := Story(ParentOf(before, u), [u]);
    assert LastArgs(story.notes) == u.args by { assert [u][..0] == []; }
    acts := TakeFollows(s, before, u, p, story);
    DropHold(s.starts, p);
    EmitStartActs(s.(starts := Hold(s.starts, p), seen := s.seen + [p.call]), p);
  }

  lemma HandleToolCallFollows(u: Update, s: State, before: seq<Input>) returns (acts: seq<Act>)
    requires Knows(s, before) && u.kind.ToolCall?
    ensures Follows(s, before, Notify(u), HandleToolCall(u, s), acts)
  {
    NotifyParents(before, u);
    NotifyAwaited(before, u);
    acts := [];
    if s.w.turn.None? || u.toolCallId.None? {
      IdleFollows(s, before, Notify(u));
    } else {
      var s0 := FlushText(s);
      FlushTextActs(s);
      FlushTextKnows(s, before);
      ResolveKnows(u, s0, before);
      var (sub, s1) := Resolve(u, s0);
      var p := PendingStart(s.w.turn.value, s1.ids[u.toolCallId.value], sub, ToolName(u), u.title, u.args, ToolRisk(u));
      var story := Story(ParentOf(before, u), [u]);
      AnnouncedBears(p, s1.ids, u.toolCallId.value, story, u);
      acts := AnnounceKnows(s1, before, u, p);
    }
  }

  // What is held of an awaited call, refined by u, is what has been heard once u has come.
  lemma RefinedKnows(s: State, before: seq<Input>, u: Update)
    requires OneToOne(s.ids) && Holding(s.starts, s.ids, Awaited(before)) && InTurn(before)
    requires u.kind.ToolCallUpdate? && u.toolCallId.Some? && u.toolCallId.value in s.ids
    ensures var held := Held(s.starts, s.ids[u.toolCallId.value]);
            && (held.Some? <==> Heard(before, u).Some?)
            && (held.Some? ==> Bears(Refine(held.value, u), s.ids, u.toolCallId.value, Heard(before, u).value) &&
                               LastArgs(Heard(before, u).value.notes) == Refine(held.value, u).args &&
                               Refine(held.value, u).args == u.args)
  {
    var t := u.toolCallId.value;
    HeldAwaited(s.starts, s.ids, t, Awaited(before));
    if t in Awaited(before) {
      RefinedBears(Held(s.starts, s.ids[t]).value, u, s.ids, t, Awaited(before)[t]);
    }
  }

  lemma RefineHeldFollows(u: Update, s: State, before: seq<Input>) returns (acts: seq<Act>)
    requires Knows(s, before) && InTurn(before) && u.kind.ToolCallUpdate? && u.status.Unfinished?
    requires u.toolCallId.Some? && u.toolCallId.value in s.ids
    ensures Follows(s, before, Notify(u), RefineHeld(u, s.ids[u.toolCallId.value], s), acts)
  {
    NotifyParents(before, u);
    NotifyAwaited(before, u);
    RefinedKnows(s, before, u);
    acts := [];
    var held := Held(s.starts, s.ids[u.toolCallId.value]);
    if held.Some? {
      var p := Refine(held.value, u);
      acts := TakeFollows(s, before, u, p, Heard(before, u).value);
      DropHold(s.starts, p);
      var s1 := s.(starts := Hold(s.starts, p));
      FlushTextActs(s1);
      EmitStartActs(FlushText(s1), p);
    }
  }

  lemma ShowHeldKnows(u: Update, s: State, before: seq<Input>) returns (acts: seq<Act>)
    requires Knows(s, before) && InTurn(before) && u.kind.ToolCallUpdate? && !u.status.Unfinished?
    requires u.toolCallId.Some? && u.toolCallId.value in s.ids
    ensures var r := ShowHeld(u, s.ids[u.toolCallId.value], s);
            && r == s.(w := r.w, text := None, starts := r.starts) && Acts(r.w.log) == Acts(s.w.log) + acts
            && Holding(r.starts, r.ids, Awaited(before + [Notify(u)]))
            && (if Heard(before, u).None? then acts == [] else
                |acts| == 1 && Starts(acts[0], s.ids, u.toolCallId.value, Heard(before, u).value))
  {
    NotifyAwaited(before, u);
    RefinedKnows(s, before, u);
    FlushTextActs(s);
    acts := [];
    var held := Held(s.starts, s.ids[u.toolCallId.value]);
    if held.Some? {
      var p := Refine(held.value, u);
      acts := TakeFollows(s, before, u, p, Heard(before, u).value);
      EmitStartActs(FlushText(s), p);
    }
  }

  lemma MintKnows(s: State, t: string, before: seq<Input>)
    requires Knows(s, before) && InTurn(before)
    ensures Knows(Mint(s, t), before) && t in Mint(s, t).ids
  {
    MintNamed(s, t, Parents(before));
    HoldingExtends(s, Mint(s, t), Awaited(before));
  }

  // FinishCall after the start of its call has been shown.
  function EndCall(u: Update, call: Id, s: State): State
    requires s.w.turn.Some?
  {
    var (sub, s1) := Resolve(u, s.(w := StopSub(s.w, s.w.turn.value, Some(call))));
    s1.(w := Put(s1.w, AgentIn(ToolEnd(call, u.status.Succeeded?, u.output), s.w.turn.value, sub)))
  }

  lemma EndKnows(u: Update, call: Id, s: State, before: seq<Input>) returns (end: Act)
    requires Registered(s, Parents(before)) && Holding(s.starts, s.ids, Awaited(before + [Notify(u)]))
    requires s.w.turn.Some? && EndsCall(before, u) && u.toolCallId.value in s.ids && call == s.ids[u.toolCallId.value]
    ensures var r := EndCall(u, call, s);
            && Extends(s, r) && Acts(r.w.log) == Acts(s.w.log) + [end] && Ends(end, r.ids, before, u)
            && Knows(r, before + [Notify(u)])
  {
    NotifyParents(before, u);
    var turn := s.w.turn.value;
    StopSubActs(s.w, turn, Some(call));
    var s1 := s.(w := StopSub(s.w, turn, Some(call)));
    ResolveNamed(u, s1, before);
    var (sub, s2) := Resolve(u, s1);
    HoldingExtends(s1, s2, Awaited(before + [Notify(u)]));
    ActsPut(s2.w, AgentIn(ToolEnd(call, u.status.Succeeded?, u.output), turn, sub));
    end := Act(ToolEnd(call, u.status.Succeeded?, u.output), sub);
  }

  lemma FinishCallEnds(u: Update, call: Id, s: State)
    requires s.w.turn.Some?
    ensures FinishCall(u, call, s) == EndCall(u, call, ShowHeld(u, call, s))
  {
  }

  lemma ShownThenEnded(shown: seq<Act>, end: Act, ids: map<string, Id>, before: seq<Input>, u: Update)
    requires EndsCall(before, u) && Ends(end, ids, before, u)
    requires if Heard(before, u).None? then shown == []
             else |shown| == 1 && Starts(shown[0], ids, u.toolCallId.value, Heard(before, u).value)
    ensures NotifyWrites(shown + [end], ids, before, u)
  {
  }

  lemma FinishCallFollows(u: Update, s: State, before: seq<Input>) returns (acts: seq<Act>)
    requires Knows(s, before) && InTurn(before) && u.kind.ToolCallUpdate? && !u.status.Unfinished?
    requires u.toolCallId.Some? && u.toolCallId.value in s.ids
    ensures Follows(s, before, Notify(u), FinishCall(u, s.ids[u.toolCallId.value], s), acts)
  {
    var call := s.ids[u.toolCallId.value];
    var shown := ShowHeldKnows(u, s, before);
    var s1 := ShowHeld(u, call, s);
    var end := EndKnows(u, call, s1, before);
    var r := EndCall(u, call, s1);
    FinishCallEnds(u, call, s);
    if shown != [] {
      StartsExtends(shown[0], s, r, u.toolCallId.value, Heard(before, u).value);
    }
    acts := shown + [end];
    ShownThenEnded(shown, end, r.ids, before, u);
    Reassociate(Acts(s.w.log), shown, [end]);
  }

  lemma HandleToolCallUpdateFollows(u: Update, s: State, before: seq<Input>) returns (acts: seq<Act>)
    requires Knows(s, before) && u.kind.ToolCallUpdate?
    ensures Follows(s, before, Notify(u), HandleToolCallUpdate(u, s), acts)
  {
    acts := [];
    if s.w.turn.None? || u.toolCallId.None? {
      IdleFollows(s, before, Notify(u));
    } else {
      MintKnows(s, u.toolCallId.value, before);
      var s1 := Mint(s, u.toolCallId.value);
      if u.status.Unfinished? {
        acts := RefineHeldFollows(u, s1, before);
      } else {
        acts := FinishCallFollows(u, s1, before);
      }
    }
  }

  // --- the end of a turn ---

  lemma {:induction false} DropAbsent(starts: seq<PendingStart>, call: Id)
    requires call !in Calls(starts)
    ensures Drop(starts, call) == starts
  {
    if starts != [] {
      DropAbsent(starts[1..], call);
    }
  }

  function StartActs(starts: seq<PendingStart>): (r: seq<Act>)
    ensures |r| == |starts| && forall k :: 0 <= k < |r| ==> r[k] == StartAct(starts[k])
  {
    if starts == [] then [] else [StartAct(starts[0])] + StartActs(starts[1..])
  }

  lemma {:induction false} FlushStartsActs(s: State)
    requires Distinct(Calls(s.starts))
    ensures Acts(FlushStarts(s).w.log) == Acts(s.w.log) + StartActs(s.starts)
    decreases |s.starts|
  {
    if s.starts != [] {
      var p := s.starts[0];
      EmitStartActs(s, p);
      DropAbsent(s.starts[1..], p.call);
      assert Drop(s.starts, p.call) == s.starts[1..];
      FlushStartsActs(EmitStart(s, p));
      Reassociate(Acts(s.w.log), [StartAct(p)], StartActs(s.starts[1..]));
    }
  }

  lemma {:induction false} HeldIsOne(starts: seq<PendingStart>, c: Id) returns (k: nat)
    requires Held(starts, c).Some?
    ensures k < |starts| && Held(starts, c).value == starts[k]
  {
    k := 0;
    if starts[0].call != c {
      var j := HeldIsOne(starts[1..], c);
      k := j + 1;
    }
  }

  lemma {:induction false} OneIsHeld(starts: seq<PendingStart>, k: nat)
    requires Distinct(Calls(starts)) && k < |starts|
    ensures Held(starts, starts[k].call) == Some(starts[k]) && starts[k].call in Calls(starts)
    ensures forall j :: 0 <= j < |starts| && starts[j].call == starts[k].call ==> j == k
  {
    CallsIndexed(starts);
    if k > 0 {
      OneIsHeld(starts[1..], k - 1);
      assert Calls(starts)[1..] == Calls(starts[1..]);
      forall j | 0 <= j < |starts| && starts[j].call == starts[k].call
        ensures j == k
      {
        if j > 0 {
          assert starts[1..][j - 1].call == starts[1..][k - 1].call;
        }
      }
    } else {
      forall j | 0 < j < |starts|
        ensures starts[j].call != starts[0].call
      {
        assert Calls(starts)[1..][j - 1] == starts[j].call;
      }
    }
  }

  lemma {:induction false} CallsIndexed(starts: seq<PendingStart>)
    ensures |Calls(starts)| == |starts| && forall k :: 0 <= k < |starts| ==> Calls(starts)[k] == starts[k].call
  {
    if starts != [] {
      CallsIndexed(starts[1..]);
    }
  }

  lemma HeldWasAwaited(starts: seq<PendingStart>, ids: map<string, Id>, awaited: map<string, Story>, k: nat)
      returns (t: string)
    requires Holding(starts, ids, awaited) && k < |starts|
    ensures t in awaited && Starts(StartAct(starts[k]), ids, t, awaited[t])
  {
    OneIsHeld(starts, k);
    assert Belongs(starts[k].call, ids, awaited);
    t :| t in awaited && t in ids && ids[t] == starts[k].call;
    assert Waits(starts, ids, t, awaited[t]);
  }

  lemma AwaitedIsHeld(starts: seq<PendingStart>, ids: map<string, Id>, awaited: map<string, Story>, t: string)
      returns (k: nat)
    requires Holding(starts, ids, awaited) && t in awaited
    ensures k < |starts| && Starts(StartAct(starts[k]), ids, t, awaited[t])
  {
    assert Waits(starts, ids, t, awaited[t]);
    k := HeldIsOne(starts, ids[t]);
  }

  lemma {:induction false} AwaitedWereHeld(starts: seq<PendingStart>, ids: map<string, Id>, awaited: map<string, Story>)
    requires Holding(starts, ids, awaited)
    ensures FinishWrites(StartActs(starts), ids, awaited)
  {
    var acts := StartActs(starts);
    forall a | a in acts
      ensures TellsSome(a, ids, awaited)
    {
      var k :| 0 <= k < |acts| && acts[k] == a;
      var t := HeldWasAwaited(starts, ids, awaited, k);
    }
    forall t | t in awaited
      ensures IsTold(acts, ids, t, awaited[t])
    {
      var k := AwaitedIsHeld(starts, ids, awaited, t);
      assert acts[k] in acts;
    }
    forall j, k | 0 <= j < k < |acts|
      ensures acts[j] != acts[k]
    {
      OneIsHeld(starts, k);
    }
  }

  lemma FinishKnows(r: State, before: seq<Input>, status: Status)
    requires r.w.turn.None? && r.starts == [] && r.ids == map[] && r.subOf == map[]
    ensures Knows(r, before + [FinishTurn(status)])
  {
    assert (before + [FinishTurn(status)])[..|before|] == before;
  }

  lemma CloseTurnActs(s: State, status: Status)
    requires Distinct(Calls(s.starts)) && (s.w.turn.None? ==> s.starts == [])
    ensures Acts(CloseTurn(s, status).w.log) == Acts(s.w.log) + StartActs(s.starts)
  {
    if s.w.turn.Some? {
      FlushTextActs(s);
      FlushStartsActs(FlushText(s));
      var w := FlushStarts(FlushText(s)).w;
      StopAllActs(w, w.turn.value);
      ActsPut(StopAll(w, w.turn.value), AgentIn(TurnEnd(status), w.turn.value, None));
    }
  }

  lemma CloseTurnFollows(s: State, before: seq<Input>, status: Status) returns (acts: seq<Act>)
    requires Knows(s, before)
    ensures Follows(s, before, FinishTurn(status), CloseTurn(s, status), acts)
  {
    acts := StartActs(s.starts);
    AwaitedWereHeld(s.starts, s.ids, Awaited(before));
    CloseTurnActs(s, status);
    FinishKnows(CloseTurn(s, status), before, status);
  }

  // --- every run ---

  lemma StartTurnFollows(s: State, before: seq<Input>)
    requires Knows(s, before)
    ensures Follows(s, before, BeginTurn, StartTurn(s), [])
  {
    assert (before + [BeginTurn])[..|before|] == before;
    ActsPut(s.w.(turn := Some(s.nextId)), AgentIn(TurnStart, s.nextId, None));
  }

  lemma FlushFollows(s: State, before: seq<Input>)
    requires Knows(s, before)
    ensures Follows(s, before, FlushNow, FlushText(s), [])
  {
    assert (before + [FlushNow])[..|before|] == before;
    FlushTextActs(s);
  }

  lemma StepFollows(s: State, before: seq<Input>, i: Input) returns (acts: seq<Act>)
    requires Knows(s, before)
    ensures Follows(s, before, i, Step(s, i), acts)
  {
    acts := [];
    match i {
      case FlushNow => FlushFollows(s, before);
      case BeginTurn => StartTurnFollows(s, before);
      case FinishTurn(status) => acts := CloseTurnFollows(s, before, status);
      case Notify(u) =>
        match u.kind {
          case MessageChunk => HandleTextFollows(u, false, s, before);
          case ThoughtChunk => HandleTextFollows(u, true, s, before);
          case ToolCall => acts := HandleToolCallFollows(u, s, before);
          case ToolCallUpdate => acts := HandleToolCallUpdateFollows(u, s, before);
          case PlanUpdate => acts := HandlePlanFollows(u, s, before);
          case Unmapped => IdleFollows(s, before, i);
        }
    }
  }

  lemma {:induction false} RunLast(s: State, inputs: seq<Input>, i: Input)
    ensures Run(s, inputs + [i]) == Step(Run(s, inputs), i)
    decreases |inputs|
  {
    if inputs == [] {
      assert ([] + [i])[1..] == [];
    } else {
      assert (inputs + [i])[1..] == inputs[1..] + [i];
      RunLast(Step(s, inputs[0]), inputs[1..], i);
    }
  }

  lemma {:induction false} RunKnows(inputs: seq<Input>)
    ensures Knows(Run(INITIAL, inputs), inputs)
    decreases |inputs|
  {
    if inputs != [] {
      var before, i := inputs[..|inputs| - 1], inputs[|inputs| - 1];
      assert inputs == before + [i];
      RunKnows(before);
      RunLast(INITIAL, before, i);
      var acts := StepFollows(Run(INITIAL, before), before, i);
    }
  }

  // Main result: at any point of any run, the tool starts, tool ends and plans the next input writes are
  // exactly those the inputs call for. A start carries the last arguments its call's notifications have
  // brought since it was announced, the latest title, the first known risk and the best name, in the scope
  // it was announced in; an end carries the outcome and output of its own update. They go by the ids of the
  // calls, which are one-to-one.
  lemma EveryStartTellsItsStory(inputs: seq<Input>, i: Input) returns (acts: seq<Act>)
    ensures var s, t := Run(INITIAL, inputs), Run(INITIAL, inputs + [i]);
            && Acts(t.w.log) == Acts(s.w.log) + acts
            && Writes(acts, if i.Notify? then t.ids else s.ids, inputs, i) && OneToOne(s.ids) && OneToOne(t.ids)
  {
    RunKnows(inputs);
    RunKnows(inputs + [i]);
    RunLast(INITIAL, inputs, i);
    acts := StepFollows(Run(INITIAL, inputs), inputs, i);
  }

  lemma {:induction false} NoArgs(notes: seq<Update>)
    requires LastArgs(notes) == EMPTY_ARGS
    ensures forall u :: u in notes ==> u.args == EMPTY_ARGS
  {
    if notes != [] {
      NoArgs(notes[..|notes| - 1]);
      assert notes == notes[..|notes| - 1] + [notes[|notes| - 1]];
    }
  }

  // Main result: at any point of any run a start is held exactly for the calls announced in the open turn
  // of which nothing said since brought arguments or an end.
  lemma HeldUntilComplete(inputs: seq<Input>, t: string)
    ensures var s := Run(INITIAL, inputs);
            && (t in Awaited(inputs) <==> t in s.ids && s.ids[t] in Calls(s.starts))
            && (forall c :: c in Calls(s.starts) ==> Belongs(c, s.ids, Awaited(inputs)))
            && (t in Awaited(inputs) ==> forall u :: u in Awaited(inputs)[t].notes ==> u.args == EMPTY_ARGS)
  {
    RunKnows(inputs);
    var s := Run(INITIAL, inputs);
    if t in Awaited(inputs) {
      assert Waits(s.starts, s.ids, t, Awaited(inputs)[t]);
      NoArgs(Awaited(inputs)[t].notes);
    }
    if t in s.ids {
      HeldCalls(s.starts, s.ids[t]);
      HeldAwaited(s.starts, s.ids, t, Awaited(inputs));
    }
  }

  lemma StopSubStops(w: Writer, turn: Id, call: Id)
    ensures call !in StopSub(w, turn, Some(call)).active
  {
  }

  // Main result: when a call is over, the subagent it spawned is not left running.
  lemma FinishedCallStops(inputs: seq<Input>, u: Update)
    requires EndsCall(inputs, u)
    ensures var t := Run(INITIAL, inputs + [Notify(u)]);
            u.toolCallId.value in t.ids && t.ids[u.toolCallId.value] !in t.w.active
  {
    RunKnows(inputs);
    RunLast(INITIAL, inputs, Notify(u));
    var s := Run(INITIAL, inputs);
    MintKnows(s, u.toolCallId.value, inputs);
    var s1 := Mint(s, u.toolCallId.value);
    var call := s1.ids[u.toolCallId.value];
    var s2 := ShowHeld(u, call, s1);
    FinishCallEnds(u, call, s1);
    StopSubStops(s2.w, s.w.turn.value, call);
    var acts := ShowHeldKnows(u, s1, inputs);
    ResolveNamed(u, s2.(w := StopSub(s2.w, s.w.turn.value, Some(call))), inputs);
  }
}
