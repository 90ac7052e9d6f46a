// Coalescing text chunks changes how the ACP mapper cuts its text into envelopes and nothing else:
// flushing early, or splitting a chunk into pieces, leaves what a reader sees unchanged.
module AcpStream {
  import opened Wrappers
  import opened Wire
  import opened Scopes
  import opened AcpMapper

  // What a reader sees: text one character at a time, every other envelope whole. Plans are a stream
  // of their own, since the mapper writes them without flushing the text received before them.
  datatype Item = Glyph(c: char, thinking: bool, turn: Option<Id>, sub: Option<Id>) | Whole(e: Envelope)

  function Glyphs(md: string, thinking: bool, turn: Option<Id>, sub: Option<Id>): seq<Item> {
    if md == "" then [] else [Glyph(md[0], thinking, turn, sub)] + Glyphs(md[1..], thinking, turn, sub)
  }

  function ItemsOf(e: Envelope): seq<Item> {
    if e.ev.Text? then Glyphs(e.ev.md, e.ev.thinking, e.turn, e.sub)
    else if e.ev.Plan? then []
    else [Whole(e)]
  }

  function Items(log: seq<Envelope>): seq<Item> {
    if log == [] then [] else ItemsOf(log[0]) + Items(log[1..])
  }

  function Plans(log: seq<Envelope>): seq<Envelope> {
    if log == [] then []
    else Plans(log[..|log| - 1]) + if log[|log| - 1].ev.Plan? then [log[|log| - 1]] else []
  }

  lemma PlansPut(w: Writer, e: Envelope)
    ensures Plans(Put(w, e).log) == Plans(w.log) + if e.ev.Plan? then [e] else []
  {
  }

  lemma {:induction false} PlansConcat(a: seq<Envelope>, b: seq<Envelope>)
    ensures Plans(a + b) == Plans(a) + Plans(b)
    decreases |b|
  {
    if b == [] {
      assert a + b == a;
    } else {
      PlansConcat(a, b[..|b| - 1]);
      assert (a + b)[..|a + b| - 1] == a + b[..|b| - 1];
    }
  }

  // The whole stream so far, the open run included.
  function Stream(s: State): seq<Item> {
    Items(FlushText(s).w.log)
  }

  lemma {:induction false} GlyphsConcat(a: string, b: string, thinking: bool, turn: Option<Id>, sub: Option<Id>)
    ensures Glyphs(a + b, thinking, turn, sub) == Glyphs(a, thinking, turn, sub) + Glyphs(b, thinking, turn, sub)
  {
    if a == "" {
      assert a + b == b;
    } else {
      GlyphsConcat(a[1..], b, thinking, turn, sub);
      assert (a + b)[1..] == a[1..] + b;
    }
  }

  lemma {:induction false} ItemsConcat(a: seq<Envelope>, b: seq<Envelope>)
    ensures Items(a + b) == Items(a) + Items(b)
  {
    if a == [] {
      assert a + b == b;
    } else {
      ItemsConcat(a[1..], b);
      assert (a + b)[1..] == a[1..] + b;
    }
  }

  lemma ItemsPut(w: Writer, e: Envelope)
    ensures Items(Put(w, e).log) == Items(w.log) + ItemsOf(e)
  {
    ItemsConcat(w.log, [e]);
    assert [e][1..] == [];
    assert Items([e]) == ItemsOf(e) + Items([]);
  }

  lemma {:induction false} JoinLast(parts: seq<string>, last: string)
    ensures Join(parts + [last]) == Join(parts) + last
  {
    if parts != [] {
      JoinLast(parts[1..], last);
      assert (parts + [last])[1..] == parts[1..] + [last];
    }
  }

  // --- no step looks at the envelopes already written ---

  // The same writer after an earlier history `pre`.
  function After(pre: seq<Envelope>, w: Writer): Writer {
    w.(log := pre + w.log)
  }

  function Later(pre: seq<Envelope>, s: State): State {
    s.(w := After(pre, s.w))
  }

  lemma PutAfter(pre: seq<Envelope>, w: Writer, e: Envelope)
    ensures Put(After(pre, w), e) == After(pre, Put(w, e))
  {
  }

  lemma StopSubAfter(pre: seq<Envelope>, w: Writer, turn: Id, sub: Option<Id>)
    ensures StopSub(After(pre, w), turn, sub) == After(pre, StopSub(w, turn, sub))
  {
  }

  lemma {:induction false} StopAllAfter(pre: seq<Envelope>, w: Writer, turn: Id)
    ensures StopAll(After(pre, w), turn) == After(pre, StopAll(w, turn))
    decreases |w.active|
  {
    if w.active != [] {
      var w1 := w.(active := w.active[1..]);
      var e := AgentIn(SubStop, turn, Some(w.active[0]));
      PutAfter(pre, w1, e);
      StopAllAfter(pre, Put(w1, e), turn);
    }
  }

  lemma EndTurnAfter(pre: seq<Envelope>, w: Writer, status: Status)
    requires w.turn.Some?
    ensures EndTurn(After(pre, w), status) == After(pre, EndTurn(w, status))
  {
    StopAllAfter(pre, w, w.turn.value);
    PutAfter(pre, StopAll(w, w.turn.value), AgentIn(TurnEnd(status), w.turn.value, None));
  }

  lemma FlushTextLater(pre: seq<Envelope>, s: State)
    ensures FlushText(Later(pre, s)) == Later(pre, FlushText(s))
  {
  }

  lemma EmitStartLater(pre: seq<Envelope>, s: State, p: PendingStart)
    ensures EmitStart(Later(pre, s), p) == Later(pre, EmitStart(s, p))
  {
  }

  lemma {:induction false} FlushStartsLater(pre: seq<Envelope>, s: State)
    ensures FlushStarts(Later(pre, s)) == Later(pre, FlushStarts(s))
    decreases |s.starts|
  {
    if s.starts != [] {
      EmitStartLater(pre, s, s.starts[0]);
      FlushStartsLater(pre, EmitStart(s, s.starts[0]));
    }
  }

  lemma CloseTurnLater(pre: seq<Envelope>, s: State, status: Status)
    ensures CloseTurn(Later(pre, s), status) == Later(pre, CloseTurn(s, status))
  {
    if s.w.turn.Some? {
      FlushTextLater(pre, s);
      FlushStartsLater(pre, FlushText(s));
      EndTurnAfter(pre, FlushStarts(FlushText(s)).w, status);
    }
  }

  // Resolving a scope looks neither at the writer nor at the open run.
  lemma ResolveElsewhere(u: Update, s: State, w: Writer, text: Option<TextRun>)
    ensures Resolve(u, s.(w := w, text := text)) == (Resolve(u, s).0, Resolve(u, s).1.(w := w, text := text))
  {
  }

  lemma ResolveLater(pre: seq<Envelope>, u: Update, s: State)
    ensures Resolve(u, Later(pre, s)) == (Resolve(u, s).0, Later(pre, Resolve(u, s).1))
  {
  }

  lemma HandleTextLater(pre: seq<Envelope>, u: Update, thinking: bool, s: State)
    ensures HandleText(u, thinking, Later(pre, s)) == Later(pre, HandleText(u, thinking, s))
  {
    ResolveLater(pre, u, s);
    FlushTextLater(pre, Resolve(u, s).1);
  }

  lemma HandlePlanLater(pre: seq<Envelope>, u: Update, s: State)
    ensures HandlePlan(u, Later(pre, s)) == Later(pre, HandlePlan(u, s))
  {
    if s.w.turn.Some? {
      ResolveLater(pre, u, s);
      PutAfter(pre, Resolve(u, s).1.w, AgentIn(Plan(u.steps), s.w.turn.value, Resolve(u, s).0));
    }
  }

  lemma AnnounceLater(pre: seq<Envelope>, s: State, p: PendingStart)
    ensures Announce(Later(pre, s), p) == Later(pre, Announce(s, p))
  {
  }

  lemma HandleToolCallLater(pre: seq<Envelope>, u: Update, s: State)
    ensures HandleToolCall(u, Later(pre, s)) == Later(pre, HandleToolCall(u, s))
  {
    if s.w.turn.Some? && u.toolCallId.Some? {
      FlushTextLater(pre, s);
      var s0 := FlushText(s);
      var (sub, s1) := Resolve(u, s0);
      ResolveLater(pre, u, s0);
      var s2 := Mint(s1, u.toolCallId.value);
      assert Mint(Later(pre, s1), u.toolCallId.value) == Later(pre, s2);
      var call := s2.ids[u.toolCallId.value];
      AnnounceLater(pre, s2, PendingStart(s.w.turn.value, call, sub, ToolName(u), u.title, u.args, ToolRisk(u)));
    }
  }

  lemma RefineHeldLater(pre: seq<Envelope>, u: Update, call: Id, s: State)
    ensures RefineHeld(u, call, Later(pre, s)) == Later(pre, RefineHeld(u, call, s))
  {
    var held := Held(s.starts, call);
    if held.Some? {
      var p := Refine(held.value, u);
      var s1 := s.(starts := Hold(s.starts, p));
      FlushTextLater(pre, s1);
      EmitStartLater(pre, FlushText(s1), p);
    }
  }

  lemma ShowHeldLater(pre: seq<Envelope>, u: Update, call: Id, s: State)
    ensures ShowHeld(u, call, Later(pre, s)) == Later(pre, ShowHeld(u, call, s))
  {
    FlushTextLater(pre, s);
    var held := Held(s.starts, call);
    if held.Some? {
      EmitStartLater(pre, FlushText(s), Refine(held.value, u));
    }
  }

  lemma FinishCallLater(pre: seq<Envelope>, u: Update, call: Id, s: State)
    requires s.w.turn.Some?
    ensures FinishCall(u, call, Later(pre, s)) == Later(pre, FinishCall(u, call, s))
  {
    var turn := s.w.turn.value;
    ShowHeldLater(pre, u, call, s);
    var s1 := ShowHeld(u, call, s);
    StopSubAfter(pre, s1.w, turn, Some(call));
    var s2 := s1.(w := StopSub(s1.w, turn, Some(call)));
    ResolveLater(pre, u, s2);
    PutAfter(pre, s2.w, AgentIn(ToolEnd(call, u.status.Succeeded?, u.output), turn, Resolve(u, s2).0));
  }

  lemma HandleToolCallUpdateLater(pre: seq<Envelope>, u: Update, s: State)
    ensures HandleToolCallUpdate(u, Later(pre, s)) == Later(pre, HandleToolCallUpdate(u, s))
  {
    if s.w.turn.Some? && u.toolCallId.Some? {
      var s1 := Mint(s, u.toolCallId.value);
      assert Mint(Later(pre, s), u.toolCallId.value) == Later(pre, s1);
      var call := s1.ids[u.toolCallId.value];
      if u.status.Unfinished? {
        RefineHeldLater(pre, u, call, s1);
      } else {
        FinishCallLater(pre, u, call, s1);
      }
    }
  }

  // What a step writes does not depend on what was written before it.
  lemma StepLater(pre: seq<Envelope>, s: State, i: Input)
    ensures Step(Later(pre, s), i) == Later(pre, Step(s, i))
  {
    match i {
      case Notify(u) => MapUpdateLater(pre, u, s);
      case FlushNow => FlushTextLater(pre, s);
      case BeginTurn => PutAfter(pre, s.w.(turn := Some(s.nextId)), AgentIn(TurnStart, s.nextId, None));
      case FinishTurn(status) => CloseTurnLater(pre, s, status);
    }
  }

  lemma MapUpdateLater(pre: seq<Envelope>, u: Update, s: State)
    ensures MapUpdate(u, Later(pre, s)) == Later(pre, MapUpdate(u, s))
  {
    match u.kind {
      case MessageChunk => HandleTextLater(pre, u, false, s);
      case ThoughtChunk => HandleTextLater(pre, u, true, s);
      case ToolCall => HandleToolCallLater(pre, u, s);
      case ToolCallUpdate => HandleToolCallUpdateLater(pre, u, s);
      case PlanUpdate => HandlePlanLater(pre, u, s);
      case Unmapped =>
    }
  }

  // --- early flushes do not change the stream ---

  function Forget(s: State): State {
    s.(w := s.w.(log := []))
  }

  // Same mapper state once the open run is flushed, same stream, same plans in the same order: only
  // the cuts between text envelopes and the places of plans among them may differ.
  ghost predicate SameStream(s: State, t: State) {
    Forget(FlushText(s)) == Forget(FlushText(t)) && Stream(s) == Stream(t) && Plans(s.w.log) == Plans(t.w.log)
  }

  // A run is only ever open inside a turn.
  predicate Settled(s: State) {
    s.w.turn.None? ==> s.text.None?
  }

  predicate Nested(s: State, i: Input) {
    i.BeginTurn? && s.w.turn.Some?
  }

  // Inputs under which turns never begin inside turns.
  predicate TurnsApart(s: State, inputs: seq<Input>)
    decreases |inputs|
  {
    inputs == [] || (!Nested(s, inputs[0]) && TurnsApart(Step(s, inputs[0]), inputs[1..]))
  }

  function Unflushed(inputs: seq<Input>): seq<Input> {
    if inputs == [] then []
    else if inputs[0].FlushNow? then Unflushed(inputs[1..])
    else [inputs[0]] + Unflushed(inputs[1..])
  }

  lemma FlushTwice(s: State)
    ensures FlushText(FlushText(s)) == FlushText(s) && Plans(FlushText(s).w.log) == Plans(s.w.log)
  {
    StartSubPlans(s);
  }

  lemma StartSubPlans(s: State)
    ensures s.text.Some? ==> Plans(StartSub(s.w, s.text.value.turn, s.text.value.sub).log) == Plans(s.w.log)
  {
  }

  // Writing an envelope before or after the flush only moves it; a plan does not show at all.
  lemma FlushPastPlan(s: State, e: Envelope)
    requires e.ev.Plan?
    ensures SameStream(s.(w := Put(s.w, e)), FlushText(s).(w := Put(FlushText(s).w, e)))
  {
    var a := s.(w := Put(s.w, e));
    FlushTwice(s);
    PlansPut(s.w, e);
    PlansPut(FlushText(s).w, e);
    ItemsPut(s.w, e);
    ItemsPut(FlushText(s).w, e);
    if s.text.Some? && Join(s.text.value.parts) != "" {
      var run := s.text.value;
      var text := AgentIn(Text(Join(run.parts), run.thinking), run.turn, run.sub);
      StartSubItems(s.w, Put(s.w, e), run.turn, run.sub);
      ItemsPut(StartSub(s.w, run.turn, run.sub), text);
      ItemsPut(StartSub(a.w, run.turn, run.sub), text);
    }
  }

  lemma StartSubItems(w: Writer, v: Writer, turn: Id, sub: Option<Id>)
    requires v == w.(log := v.log) && Items(v.log) == Items(w.log)
    ensures StartSub(v, turn, sub) == StartSub(w, turn, sub).(log := StartSub(v, turn, sub).log)
    ensures Items(StartSub(v, turn, sub).log) == Items(StartSub(w, turn, sub).log)
  {
    if sub.Some? && sub.value !in w.started {
      var e := AgentIn(SubStart, turn, sub);
      ItemsPut(w.(started := w.started + {sub.value}, active := w.active + [sub.value]), e);
      ItemsPut(v.(started := v.started + {sub.value}, active := v.active + [sub.value]), e);
    }
  }

  // Appending to the open run, or flushing it and opening a new one with the same key.
  lemma FlushInsideRun(s: State, text: string)
    requires s.text.Some?
    ensures var run := s.text.value;
            SameStream(s.(text := Some(run.(parts := run.parts + [text]))),
                       FlushText(s).(text := Some(run.(parts := [text]))))
  {
    var run := s.text.value;
    var before := Join(run.parts);
    FlushTwice(s);
    JoinLast(run.parts, text);
    assert Join([text]) == text by { assert [text][1..] == []; }
    if before == "" {
      assert before + text == text;
    } else if text == "" {
      assert before + text == before;
    } else {
      SplitsRun(s, text);
    }
  }

  lemma SplitsRun(s: State, text: string)
    requires s.text.Some? && Join(s.text.value.parts) != "" && text != ""
    ensures var run := s.text.value;
            SameStream(s.(text := Some(run.(parts := run.parts + [text]))),
                       FlushText(s).(text := Some(run.(parts := [text]))))
  {
    var run := s.text.value;
    var before := Join(run.parts);
    FlushTwice(s);
    JoinLast(run.parts, text);
    assert Join([text]) == text by { assert [text][1..] == []; }
    var v := StartSub(s.w, run.turn, run.sub);
    CutText(v, before, text, run);
    assert StartSub(v, run.turn, run.sub) == v;
  }

  // One envelope or two, a reader sees the same characters.
  lemma CutText(w: Writer, a: string, b: string, run: TextRun)
    ensures var whole := Put(w, AgentIn(Text(a + b, run.thinking), run.turn, run.sub));
            var first := Put(w, AgentIn(Text(a, run.thinking), run.turn, run.sub));
            Items(whole.log) == Items(Put(first, AgentIn(Text(b, run.thinking), run.turn, run.sub)).log)
  {
    GlyphsConcat(a, b, run.thinking, Some(run.turn), run.sub);
    ItemsPut(w, AgentIn(Text(a + b, run.thinking), run.turn, run.sub));
    ItemsPut(w, AgentIn(Text(a, run.thinking), run.turn, run.sub));
    ItemsPut(Put(w, AgentIn(Text(a, run.thinking), run.turn, run.sub)),
             AgentIn(Text(b, run.thinking), run.turn, run.sub));
  }

  lemma ResolveFlushed(u: Update, s: State)
    ensures Resolve(u, FlushText(s)) == (Resolve(u, s).0, FlushText(Resolve(u, s).1))
  {
    ResolveElsewhere(u, s, FlushText(s).w, None);
    assert FlushText(Resolve(u, s).1).w == FlushText(s).w;
  }

  lemma HandleTextFlushed(u: Update, thinking: bool, s: State)
    ensures SameStream(HandleText(u, thinking, s), HandleText(u, thinking, FlushText(s)))
  {
    FlushTwice(s);
    if s.w.turn.Some? && u.text.Some? {
      ResolveFlushed(u, s);
      var (sub, s1) := Resolve(u, s);
      FlushTwice(s1);
      if s1.text.Some? && SameRun(s1.text.value, s.w.turn.value, sub, thinking, u.messageId) {
        FlushInsideRun(s1, u.text.value);
      }
    }
  }

  lemma HandlePlanFlushed(u: Update, s: State)
    ensures SameStream(HandlePlan(u, s), HandlePlan(u, FlushText(s)))
  {
    FlushTwice(s);
    if s.w.turn.Some? {
      ResolveFlushed(u, s);
      FlushPastPlan(Resolve(u, s).1, AgentIn(Plan(u.steps), s.w.turn.value, Resolve(u, s).0));
    }
  }

  lemma HandleToolCallFlushed(u: Update, s: State)
    ensures SameStream(HandleToolCall(u, s), HandleToolCall(u, FlushText(s)))
  {
    FlushTwice(s);
    if s.w.turn.Some? && u.toolCallId.Some? {
      assert HandleToolCall(u, FlushText(s)) == HandleToolCall(u, s);
    }
  }

  lemma RefineHeldFlushed(u: Update, call: Id, s: State)
    ensures SameStream(RefineHeld(u, call, s), RefineHeld(u, call, FlushText(s)))
  {
    FlushTwice(s);
    var held := Held(s.starts, call);
    if held.Some? {
      var s1 := s.(starts := Hold(s.starts, Refine(held.value, u)));
      assert FlushText(s1) == FlushText(s).(starts := s1.starts);
      FlushTwice(s1);
    }
  }

  lemma HandleToolCallUpdateFlushed(u: Update, s: State)
    ensures SameStream(HandleToolCallUpdate(u, s), HandleToolCallUpdate(u, FlushText(s)))
  {
    FlushTwice(s);
    if s.w.turn.Some? && u.toolCallId.Some? {
      var s1 := Mint(s, u.toolCallId.value);
      assert Mint(FlushText(s), u.toolCallId.value) == FlushText(s1);
      FlushTwice(s1);
      if u.status.Unfinished? {
        RefineHeldFlushed(u, s1.ids[u.toolCallId.value], s1);
      } else {
        FinishCallFlushed(u, s1.ids[u.toolCallId.value], s1);
      }
    }
  }

  lemma FinishCallFlushed(u: Update, call: Id, s: State)
    requires s.w.turn.Some?
    ensures FinishCall(u, call, FlushText(s)) == FinishCall(u, call, s)
  {
    FlushTwice(s);
    assert ShowHeld(u, call, FlushText(s)) == ShowHeld(u, call, s);
  }

  // A flush just before a step changes nothing a reader sees.
  lemma StepFlushed(s: State, i: Input)
    requires Settled(s) && !Nested(s, i)
    ensures SameStream(Step(s, i), Step(FlushText(s), i))
  {
    FlushTwice(s);
    match i {
      case Notify(u) =>
        match u.kind {
          case MessageChunk => HandleTextFlushed(u, false, s);
          case ThoughtChunk => HandleTextFlushed(u, true, s);
          case ToolCall => HandleToolCallFlushed(u, s);
          case ToolCallUpdate => HandleToolCallUpdateFlushed(u, s);
          case PlanUpdate => HandlePlanFlushed(u, s);
          case Unmapped =>
        }
      case FlushNow =>
      case BeginTurn =>
      case FinishTurn(status) =>
    }
  }

  // Flushed states with the same stream step to states with the same stream.
  lemma FlushedStepSame(s: State, t: State, i: Input)
    requires Forget(s) == Forget(t) && Items(s.w.log) == Items(t.w.log) && Plans(s.w.log) == Plans(t.w.log)
    ensures SameStream(Step(s, i), Step(t, i)) && Step(s, i).w.turn == Step(t, i).w.turn
  {
    var r := Step(Forget(s), i);
    assert s == Later(s.w.log, Forget(s)) && t == Later(t.w.log, Forget(t));
    StepLater(s.w.log, Forget(s), i);
    StepLater(t.w.log, Forget(t), i);
    FlushTextLater(s.w.log, r);
    FlushTextLater(t.w.log, r);
    ItemsConcat(s.w.log, FlushText(r).w.log);
    ItemsConcat(t.w.log, FlushText(r).w.log);
    PlansConcat(s.w.log, r.w.log);
    PlansConcat(t.w.log, r.w.log);
  }

  lemma StepSame(s: State, t: State, i: Input)
    requires SameStream(s, t) && Settled(s) && Settled(t) && !Nested(s, i)
    ensures SameStream(Step(s, i), Step(t, i))
  {
    assert s.w.turn == t.w.turn by {
      assert Forget(FlushText(s)).w.turn == Forget(FlushText(t)).w.turn;
    }
    FlushTwice(s);
    FlushTwice(t);
    StepFlushed(s, i);
    StepFlushed(t, i);
    FlushedStepSame(FlushText(s), FlushText(t), i);
  }

  lemma StepSettled(s: State, i: Input)
    requires Settled(s)
    ensures Settled(Step(s, i))
  {
    match i {
      case Notify(u) => MapUpdateKeepsTurn(u, s);
      case FlushNow =>
      case BeginTurn =>
      case FinishTurn(status) =>
    }
  }

  lemma MapUpdateKeepsTurn(u: Update, s: State)
    ensures MapUpdate(u, s).w.turn == s.w.turn
    ensures s.w.turn.None? ==> MapUpdate(u, s) == s
  {
    if u.toolCallId.Some? {
      assert Mint(s, u.toolCallId.value).w == s.w;
    }
  }

  // Main result: wherever the transport flushes, the reader sees the same stream and the same plans, and
  // the mapper ends in the same state.
  lemma {:induction false} FlushesAreInvisible(s: State, t: State, a: seq<Input>, b: seq<Input>)
    requires SameStream(s, t) && Settled(s) && Settled(t)
    requires Unflushed(a) == Unflushed(b) && TurnsApart(s, a)
    ensures SameStream(Run(s, a), Run(t, b))
    decreases |a| + |b|
  {
    if a != [] && a[0].FlushNow? {
      FlushTwice(s);
      FlushesAreInvisible(Step(s, a[0]), t, a[1..], b);
    } else if b != [] && b[0].FlushNow? {
      FlushTwice(t);
      FlushesAreInvisible(s, Step(t, b[0]), a, b[1..]);
    } else if a != [] {
      assert Unflushed(a)[0] == a[0] && Unflushed(b)[0] == b[0];
      assert Unflushed(a)[1..] == Unflushed(a[1..]) && Unflushed(b)[1..] == Unflushed(b[1..]);
      StepSame(s, t, a[0]);
      StepSettled(s, a[0]);
      StepSettled(t, a[0]);
      FlushesAreInvisible(Step(s, a[0]), Step(t, b[0]), a[1..], b[1..]);
    }
  }

  // The mapper without coalescing: every chunk becomes its own envelope.
  function Eagerly(inputs: seq<Input>): seq<Input> {
    if inputs == [] then [] else [inputs[0], FlushNow] + Eagerly(inputs[1..])
  }

  lemma {:induction false} EagerlyUnflushed(inputs: seq<Input>)
    ensures Unflushed(Eagerly(inputs)) == Unflushed(inputs)
  {
    if inputs != [] {
      EagerlyUnflushed(inputs[1..]);
      var rest := [FlushNow] + Eagerly(inputs[1..]);
      assert rest[1..] == Eagerly(inputs[1..]);
      assert Eagerly(inputs) == [inputs[0]] + rest && Eagerly(inputs)[1..] == rest;
      assert Unflushed(rest) == Unflushed(Eagerly(inputs[1..]));
    }
  }

  lemma EagerChunk(s: State, u: Update)
    requires s.text.None? && s.w.turn.Some? && u.text.Some? && u.text.value != ""
    requires u.kind.MessageChunk? || u.kind.ThoughtChunk?
    ensures var turn, sub := s.w.turn.value, Resolve(u, s).0;
            Run(s, Eagerly([Notify(u)])).w
              == Put(StartSub(s.w, turn, sub), AgentIn(Text(u.text.value, u.kind.ThoughtChunk?), turn, sub))
  {
    assert Eagerly([Notify(u)]) == [Notify(u), FlushNow] by { assert [Notify(u)][1..] == []; }
    assert [Notify(u), FlushNow][1..] == [FlushNow] && [FlushNow][1..] == [];
    var mid := Step(s, Notify(u));
    assert Run(s, [Notify(u), FlushNow]) == Run(mid, [FlushNow]) == FlushText(mid);
    assert Join([u.text.value]) == u.text.value by { assert [u.text.value][1..] == []; }
    assert mid.w == s.w;
  }

  // Main result: the coalescing mapper refines the chunk-per-envelope one.
  lemma CoalescingRefinesEager(inputs: seq<Input>)
    requires TurnsApart(INITIAL, inputs)
    ensures SameStream(Run(INITIAL, inputs), Run(INITIAL, Eagerly(inputs)))
  {
    EagerlyUnflushed(inputs);
    FlushesAreInvisible(INITIAL, INITIAL, inputs, Eagerly(inputs));
  }
}
