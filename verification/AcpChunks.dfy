// Every accepted character reaches the wire once, in order and in its own scope, however the agent
// cuts its text into chunks.
module AcpChunks {
  import opened Wrappers
  import opened Wire
  import opened Scopes
  import opened AcpMapper
  import opened AcpStream

  // Something to read off the wire, envelope by envelope.
  function View(log: seq<Envelope>, f: Envelope -> seq<Item>): seq<Item> {
    if log == [] then [] else View(log[..|log| - 1], f) + f(log[|log| - 1])
  }

  // Readers of text and of turn brackets: blind to tools, plans and subagent brackets, and unable to
  // tell one text envelope from its pieces.
  ghost predicate Reader(f: Envelope -> seq<Item>) {
    (forall ev: Event, turn: Id, sub :: ev.SubStart? || ev.SubStop? || ev.ToolStart? || ev.ToolEnd? || ev.Plan?
                                        ==> f(AgentIn(ev, turn, sub)) == []) &&
    (forall a, b, thinking, turn: Id, sub ::
      f(AgentIn(Text(a, thinking), turn, sub)) + f(AgentIn(Text(b, thinking), turn, sub))
        == f(AgentIn(Text(a + b, thinking), turn, sub))) &&
    (forall thinking, turn: Id, sub :: f(AgentIn(Text("", thinking), turn, sub)) == [])
  }

  function RunText(run: TextRun): Envelope {
    AgentIn(Text(Join(run.parts), run.thinking), run.turn, run.sub)
  }

  // Written so far, plus the open run.
  function Owned(s: State, f: Envelope -> seq<Item>): seq<Item> {
    View(s.w.log, f) + if s.text.None? then [] else f(RunText(s.text.value))
  }

  // What an input delivers: a text chunk received inside a turn, under the scope it resolves to; the
  // start and the end of a turn.
  function Delivered(s: State, i: Input, f: Envelope -> seq<Item>): seq<Item> {
    match i
    case Notify(u) =>
      if (u.kind.MessageChunk? || u.kind.ThoughtChunk?) && s.w.turn.Some? && u.text.Some?
      then f(AgentIn(Text(u.text.value, u.kind.ThoughtChunk?), s.w.turn.value, Resolve(u, s).0))
      else []
    case FlushNow => []
    case BeginTurn => f(AgentIn(TurnStart, s.nextId, None))
    case FinishTurn(status) => if s.w.turn.None? then [] else f(AgentIn(TurnEnd(status), s.w.turn.value, None))
  }

  function AllDelivered(s: State, inputs: seq<Input>, f: Envelope -> seq<Item>): seq<Item>
    decreases |inputs|
  {
    if inputs == [] then [] else Delivered(s, inputs[0], f) + AllDelivered(Step(s, inputs[0]), inputs[1..], f)
  }

  lemma ViewPut(w: Writer, e: Envelope, f: Envelope -> seq<Item>)
    ensures View(Put(w, e).log, f) == View(w.log, f) + f(e)
  {
  }

  lemma StartSubView(w: Writer, turn: Id, sub: Option<Id>, f: Envelope -> seq<Item>)
    requires Reader(f)
    ensures View(StartSub(w, turn, sub).log, f) == View(w.log, f)
  {
  }

  lemma StopSubView(w: Writer, turn: Id, sub: Option<Id>, f: Envelope -> seq<Item>)
    requires Reader(f)
    ensures View(StopSub(w, turn, sub).log, f) == View(w.log, f)
  {
  }

  lemma {:induction false} StopAllView(w: Writer, turn: Id, f: Envelope -> seq<Item>)
    requires Reader(f)
    ensures View(StopAll(w, turn).log, f) == View(w.log, f)
    decreases |w.active|
  {
    if w.active != [] {
      var w1 := w.(active := w.active[1..]);
      ViewPut(w1, AgentIn(SubStop, turn, Some(w.active[0])), f);
      StopAllView(Put(w1, AgentIn(SubStop, turn, Some(w.active[0]))), turn, f);
    }
  }

  lemma FlushTextView(s: State, f: Envelope -> seq<Item>)
    requires Reader(f)
    ensures View(FlushText(s).w.log, f) == Owned(s, f)
  {
    if s.text.Some? {
      var run := s.text.value;
      StartSubView(s.w, run.turn, run.sub, f);
      ViewPut(StartSub(s.w, run.turn, run.sub), RunText(run), f);
    }
  }

  lemma EmitStartView(s: State, p: PendingStart, f: Envelope -> seq<Item>)
    requires Reader(f)
    ensures View(EmitStart(s, p).w.log, f) == View(s.w.log, f)
  {
  }

  lemma {:induction false} FlushStartsView(s: State, f: Envelope -> seq<Item>)
    requires Reader(f)
    ensures View(FlushStarts(s).w.log, f) == View(s.w.log, f)
    decreases |s.starts|
  {
    if s.starts != [] {
      EmitStartView(s, s.starts[0], f);
      FlushStartsView(EmitStart(s, s.starts[0]), f);
    }
  }

  lemma CloseTurnOwned(s: State, status: Status, f: Envelope -> seq<Item>)
    requires Reader(f)
    ensures Owned(CloseTurn(s, status), f) == Owned(s, f) + Delivered(s, FinishTurn(status), f)
  {
    if s.w.turn.Some? {
      FlushTextView(s, f);
      FlushStartsView(FlushText(s), f);
      var t := FlushStarts(FlushText(s));
      StopAllView(t.w, t.w.turn.value, f);
      ViewPut(StopAll(t.w, t.w.turn.value), AgentIn(TurnEnd(status), t.w.turn.value, None), f);
    }
  }

  lemma HandleTextOwned(u: Update, thinking: bool, s: State, f: Envelope -> seq<Item>)
    requires Reader(f)
    ensures Owned(HandleText(u, thinking, s), f) == Owned(s, f) +
            if s.w.turn.Some? && u.text.Some?
            then f(AgentIn(Text(u.text.value, thinking), s.w.turn.value, Resolve(u, s).0))
            else []
  {
    if s.w.turn.Some? && u.text.Some? {
      var (sub, s1) := Resolve(u, s);
      var text := u.text.value;
      assert Join([text]) == text by { assert [text][1..] == []; }
      FlushTextView(s1, f);
      if s1.text.Some? && SameRun(s1.text.value, s.w.turn.value, sub, thinking, u.messageId) {
        var run := s1.text.value;
        JoinLast(run.parts, text);
        Reassociate(View(s.w.log, f), f(RunText(run)), f(AgentIn(Text(text, thinking), s.w.turn.value, sub)));
      }
    }
  }

  lemma HandlePlanOwned(u: Update, s: State, f: Envelope -> seq<Item>)
    requires Reader(f)
    ensures Owned(HandlePlan(u, s), f) == Owned(s, f)
  {
  }

  lemma HandleToolCallOwned(u: Update, s: State, f: Envelope -> seq<Item>)
    requires Reader(f)
    ensures Owned(HandleToolCall(u, s), f) == Owned(s, f)
  {
    if s.w.turn.Some? && u.toolCallId.Some? {
      FlushTextView(s, f);
      var (sub, s1) := Resolve(u, FlushText(s));
      var s2 := Mint(s1, u.toolCallId.value);
      var call := s2.ids[u.toolCallId.value];
      var p := PendingStart(s.w.turn.value, call, sub, ToolName(u), u.title, u.args, ToolRisk(u));
      EmitStartView(s2.(starts := Hold(s2.starts, p), seen := s2.seen + [call]), p, f);
    }
  }

  lemma RefineHeldOwned(u: Update, call: Id, s: State, f: Envelope -> seq<Item>)
    requires Reader(f)
    ensures Owned(RefineHeld(u, call, s), f) == Owned(s, f)
  {
    var held := Held(s.starts, call);
    if held.Some? {
      var p := Refine(held.value, u);
      var s1 := s.(starts := Hold(s.starts, p));
      FlushTextView(s1, f);
      EmitStartView(FlushText(s1), p, f);
    }
  }

  lemma FinishCallOwned(u: Update, call: Id, s: State, f: Envelope -> seq<Item>)
    requires s.w.turn.Some? && Reader(f)
    ensures Owned(FinishCall(u, call, s), f) == Owned(s, f)
  {
    FlushTextView(s, f);
    var held := Held(FlushText(s).starts, call);
    if held.Some? {
      EmitStartView(FlushText(s), Refine(held.value, u), f);
    }
    var s1 := ShowHeld(u, call, s);
    StopSubView(s1.w, s.w.turn.value, Some(call), f);
    var s2 := s1.(w := StopSub(s1.w, s.w.turn.value, Some(call)));
    ViewPut(s2.w, AgentIn(ToolEnd(call, u.status.Succeeded?, u.output), s.w.turn.value, Resolve(u, s2).0), f);
  }

  lemma HandleToolCallUpdateOwned(u: Update, s: State, f: Envelope -> seq<Item>)
    requires Reader(f)
    ensures Owned(HandleToolCallUpdate(u, s), f) == Owned(s, f)
  {
    if s.w.turn.Some? && u.toolCallId.Some? {
      var s1 := Mint(s, u.toolCallId.value);
      if u.status.Unfinished? {
        RefineHeldOwned(u, s1.ids[u.toolCallId.value], s1, f);
      } else {
        FinishCallOwned(u, s1.ids[u.toolCallId.value], s1, f);
      }
    }
  }

  lemma MapUpdateOwned(u: Update, s: State, f: Envelope -> seq<Item>)
    requires Reader(f)
    ensures Owned(MapUpdate(u, s), f) == Owned(s, f) + Delivered(s, Notify(u), f)
  {
    match u.kind {
      case MessageChunk => HandleTextOwned(u, false, s, f);
      case ThoughtChunk => HandleTextOwned(u, true, s, f);
      case ToolCall => HandleToolCallOwned(u, s, f);
      case ToolCallUpdate => HandleToolCallUpdateOwned(u, s, f);
      case PlanUpdate => HandlePlanOwned(u, s, f);
      case Unmapped =>
    }
  }

  lemma StepOwned(s: State, i: Input, f: Envelope -> seq<Item>)
    requires Reader(f) && (i.BeginTurn? ==> s.text.None?)
    ensures Owned(Step(s, i), f) == Owned(s, f) + Delivered(s, i, f)
  {
    match i {
      case Notify(u) => MapUpdateOwned(u, s, f);
      case FlushNow => FlushTextView(s, f);
      case BeginTurn => ViewPut(s.w.(turn := Some(s.nextId)), AgentIn(TurnStart, s.nextId, None), f);
      case FinishTurn(status) => CloseTurnOwned(s, status, f);
    }
  }

  lemma {:induction false} RunOwned(s: State, inputs: seq<Input>, f: Envelope -> seq<Item>)
    requires Reader(f) && Settled(s) && TurnsApart(s, inputs)
    ensures Owned(Run(s, inputs), f) == Owned(s, f) + AllDelivered(s, inputs, f)
    decreases |inputs|
  {
    if inputs != [] {
      var next := Step(s, inputs[0]);
      StepOwned(s, inputs[0], f);
      StepSettled(s, inputs[0]);
      RunOwned(next, inputs[1..], f);
      Reassociate(Owned(s, f), Delivered(s, inputs[0], f), AllDelivered(next, inputs[1..], f));
    }
  }

  // Text one character at a time, and turn brackets.
  function SpokenOf(e: Envelope): seq<Item> {
    if e.ev.Text? || e.ev.TurnStart? || e.ev.TurnEnd? then ItemsOf(e) else []
  }

  lemma SpokenReader()
    ensures Reader(SpokenOf)
  {
    forall a: string, b: string, thinking: bool, turn: Id, sub: Option<Id>
      ensures SpokenOf(AgentIn(Text(a, thinking), turn, sub)) + SpokenOf(AgentIn(Text(b, thinking), turn, sub))
           == SpokenOf(AgentIn(Text(a + b, thinking), turn, sub))
    {
      GlyphsConcat(a, b, thinking, Some(turn), sub);
    }
  }

  // Main result: what was written, followed by the open run, is exactly what was delivered inside
  // turns, character by character, each with its turn, its subagent and whether it is thinking.
  lemma EveryCharacterOnce(inputs: seq<Input>)
    requires TurnsApart(INITIAL, inputs)
    ensures Owned(Run(INITIAL, inputs), SpokenOf) == AllDelivered(INITIAL, inputs, SpokenOf)
  {
    SpokenReader();
    RunOwned(INITIAL, inputs, SpokenOf);
  }

  // --- how a chunk is cut does not matter ---

  // Equal states, except for how the open run's text is cut into parts.
  predicate SameButCut(s: State, t: State) {
    t == s.(text := t.text) && (s.text.None? <==> t.text.None?) &&
    (s.text.Some? ==>
      t.text.value == s.text.value.(parts := t.text.value.parts) &&
      Join(t.text.value.parts) == Join(s.text.value.parts))
  }

  lemma FlushTextCut(s: State, t: State)
    requires SameButCut(s, t)
    ensures FlushText(s) == FlushText(t)
  {
  }

  lemma HandleTextCut(u: Update, thinking: bool, s: State, t: State)
    requires SameButCut(s, t)
    ensures SameButCut(HandleText(u, thinking, s), HandleText(u, thinking, t))
  {
    if s.w.turn.Some? && u.text.Some? {
      ResolveElsewhere(u, s, s.w, t.text);
      FlushTextCut(Resolve(u, s).1, Resolve(u, t).1);
      if s.text.Some? {
        JoinLast(s.text.value.parts, u.text.value);
        JoinLast(t.text.value.parts, u.text.value);
      }
    }
  }

  lemma HandlePlanCut(u: Update, s: State, t: State)
    requires SameButCut(s, t)
    ensures SameButCut(HandlePlan(u, s), HandlePlan(u, t))
  {
    ResolveElsewhere(u, s, s.w, t.text);
  }

  lemma HandleToolCallUpdateCut(u: Update, s: State, t: State)
    requires SameButCut(s, t)
    ensures SameButCut(HandleToolCallUpdate(u, s), HandleToolCallUpdate(u, t))
  {
    if s.w.turn.Some? && u.toolCallId.Some? {
      var s1, t1 := Mint(s, u.toolCallId.value), Mint(t, u.toolCallId.value);
      assert SameButCut(s1, t1);
      FlushTextCut(s1, t1);
      var call := s1.ids[u.toolCallId.value];
      if u.status.Unfinished? {
        RefineHeldCut(u, call, s1, t1);
      }
    }
  }

  lemma RefineHeldCut(u: Update, call: Id, s: State, t: State)
    requires SameButCut(s, t)
    ensures SameButCut(RefineHeld(u, call, s), RefineHeld(u, call, t))
  {
  }

  lemma StepCut(s: State, t: State, i: Input)
    requires SameButCut(s, t)
    ensures SameButCut(Step(s, i), Step(t, i))
  {
    FlushTextCut(s, t);
    match i {
      case Notify(u) =>
        match u.kind {
          case MessageChunk => HandleTextCut(u, false, s, t);
          case ThoughtChunk => HandleTextCut(u, true, s, t);
          case ToolCall =>
          case ToolCallUpdate => HandleToolCallUpdateCut(u, s, t);
          case PlanUpdate => HandlePlanCut(u, s, t);
          case Unmapped =>
        }
      case FlushNow =>
      case BeginTurn =>
      case FinishTurn(status) =>
    }
  }

  lemma {:induction false} RunCut(s: State, t: State, inputs: seq<Input>)
    requires SameButCut(s, t)
    ensures SameButCut(Run(s, inputs), Run(t, inputs))
    decreases |inputs|
  {
    if inputs != [] {
      StepCut(s, t, inputs[0]);
      RunCut(Step(s, inputs[0]), Step(t, inputs[0]), inputs[1..]);
    }
  }

  // The notification u carrying each piece in turn.
  function InPieces(u: Update, pieces: seq<string>): seq<Input> {
    if pieces == [] then [] else [Notify(u.(text := Some(pieces[0])))] + InPieces(u, pieces[1..])
  }

  lemma ResolveTwice(u: Update, s: State)
    ensures Resolve(u, Resolve(u, s).1) == Resolve(u, s)
  {
    var (sub, s1) := Resolve(u, s);
    if u.parentToolUse.Some? && u.toolCallId.Some? {
      var call := s1.ids[u.toolCallId.value];
      assert s1.subOf[call := sub.value] == s1.subOf;
    }
  }

  lemma ResolveIgnoresText(u: Update, text: Option<string>, s: State)
    ensures Resolve(u.(text := text), s) == Resolve(u, s)
  {
  }

  lemma ResolveAfterChunk(u: Update, thinking: bool, s: State, a: string, b: string)
    ensures var mid := HandleText(u.(text := Some(a)), thinking, s);
            s.w.turn.Some? ==> Resolve(u.(text := Some(b)), mid) == (Resolve(u, s).0, mid)
  {
    ResolveIgnoresText(u, Some(a), s);
    ResolveTwice(u, s);
    var s1 := Resolve(u, s).1;
    var mid := HandleText(u.(text := Some(a)), thinking, s);
    ResolveIgnoresText(u, Some(b), mid);
    ResolveElsewhere(u, s1, mid.w, mid.text);
  }

  lemma JoinPieces(parts: seq<string>, a: string, b: string)
    ensures Join([a]) == a && Join([a, b]) == a + b
    ensures Join(parts + [a] + [b]) == Join(parts + [a + b])
  {
    assert [a][1..] == [] && [a, b][1..] == [b] && [b][1..] == [];
    JoinLast(parts, a);
    JoinLast(parts + [a], b);
    JoinLast(parts, a + b);
    assert (Join(parts) + a) + b == Join(parts) + (a + b);
  }

  // Two chunks with one key leave the run that their concatenation leaves.
  lemma HandleTextTwice(u: Update, thinking: bool, s: State, a: string, b: string)
    requires s.w.turn.Some?
    ensures SameButCut(HandleText(u.(text := Some(a + b)), thinking, s),
                       HandleText(u.(text := Some(b)), thinking, HandleText(u.(text := Some(a)), thinking, s)))
  {
    ResolveIgnoresText(u, Some(a), s);
    ResolveIgnoresText(u, Some(a + b), s);
    ResolveAfterChunk(u, thinking, s, a, b);
    var s1 := Resolve(u, s).1;
    var mid := HandleText(u.(text := Some(a)), thinking, s);
    JoinPieces([], a + b, "");
    JoinPieces(if s1.text.Some? then s1.text.value.parts else [], a, b);
    assert HandleText(u.(text := Some(b)), thinking, mid)
        == mid.(text := Some(mid.text.value.(parts := mid.text.value.parts + [b])));
    assert [a] + [b] == [a, b];
  }

  // Main result: cutting a text chunk into pieces changes no envelope, now or later.
  lemma {:induction false} SplittingIsInvisible(s: State, u: Update, pieces: seq<string>, rest: seq<Input>)
    requires (u.kind.MessageChunk? || u.kind.ThoughtChunk?) && pieces != []
    ensures Run(Run(s, InPieces(u, pieces)), rest).w == Run(Step(s, Notify(u.(text := Some(Join(pieces))))), rest).w
    decreases |pieces|
  {
    SplitState(s, u, pieces);
    RunCut(Step(s, Notify(u.(text := Some(Join(pieces))))), Run(s, InPieces(u, pieces)), rest);
  }

  lemma {:induction false} SplitState(s: State, u: Update, pieces: seq<string>)
    requires (u.kind.MessageChunk? || u.kind.ThoughtChunk?) && pieces != []
    ensures SameButCut(Step(s, Notify(u.(text := Some(Join(pieces))))), Run(s, InPieces(u, pieces)))
    decreases |pieces|
  {
    var first, tail := u.(text := Some(pieces[0])), pieces[1..];
    var mid := Step(s, Notify(first));
    assert InPieces(u, pieces)[1..] == InPieces(u, tail);
    if tail == [] {
      assert pieces[0] + "" == pieces[0];
    } else {
      SplitState(mid, u, tail);
      if s.w.turn.Some? {
        HandleTextTwice(u, u.kind.ThoughtChunk?, s, pieces[0], Join(tail));
      }
    }
  }
}
