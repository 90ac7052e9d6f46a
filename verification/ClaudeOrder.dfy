// Messages of one call keep their arrival order through the buffers and the replays of the Claude
// mapper: always for those that name the call, and for those that inherit it through parentUuid as
// long as nothing waiting can end the turn and no uuid changes hands.
module ClaudeOrder {
  import opened Subsequences
  import opened Wrappers
  import opened Wire
  import opened Scopes
  import opened ClaudeMapper
  import opened ClaudeConservation
  import opened ClaudeTraces

  // --- the children of a call ---

  // Two ways of belonging to a call: naming it in the message, or being found to belong to it.
  datatype Kin = Named(call: string) | Found(p: ProviderId)

  predicate Selects(k: Kin, x: Mapped) {
    match k
    case Named(call) => x.m.parentToolUse == Some(call)
    case Found(p) => x.parent == Some(p)
  }

  function Chosen(k: Kin, xs: seq<Mapped>): seq<Message> {
    if xs == [] then [] else (if Selects(k, xs[0]) then [xs[0].m] else []) + Chosen(k, xs[1..])
  }

  lemma {:induction false} ChosenConcat(k: Kin, a: seq<Mapped>, b: seq<Mapped>)
    ensures Chosen(k, a + b) == Chosen(k, a) + Chosen(k, b)
  {
    if a == [] {
      assert a + b == b;
    } else {
      ChosenConcat(k, a[1..], b);
      assert (a + b)[1..] == a[1..] + b && (a + b)[0] == a[0];
      Reassociate(if Selects(k, a[0]) then [a[0].m] else [], Chosen(k, a[1..]), Chosen(k, b));
    }
  }

  function Under(p: ProviderId, ms: seq<Message>): (r: seq<Mapped>)
    ensures |r| == |ms|
  {
    seq(|ms|, i requires 0 <= i < |ms| => Mapped(ms[i], Some(p)))
  }

  function Call(k: Kin): ProviderId {
    match k
    case Named(call) => Raw(call)
    case Found(p) => p
  }

  // The children so far: those mapped, then those still waiting.
  ghost function Children(k: Kin, s: State): seq<Message> {
    Chosen(k, s.mapped) + Chosen(k, Under(Call(k), Queued(s.buffers, Call(k))))
  }

  // --- the invariant ---

  // A waiting message that names its call waits under it.
  ghost predicate Placed(s: State) {
    forall p, i :: p in s.buffers && 0 <= i < |s.buffers[p]| ==>
      s.buffers[p][i].parentToolUse.Some? ==> p == Raw(s.buffers[p][i].parentToolUse.value)
  }

  // m is found to belong to p now, and will be as long as no uuid is forgotten or changes hands.
  predicate Tied(p: ProviderId, m: Message, uuidSub: map<string, ProviderId>) {
    (if m.parentToolUse.Some? then p == Raw(m.parentToolUse.value)
     else m.parentUuid.Some? && m.parentUuid.value in uuidSub && uuidSub[m.parentUuid.value] == p) &&
    (m.uuid.Some? ==> m.uuid.value in uuidSub && uuidSub[m.uuid.value] == p)
  }

  // Waiting messages stay with their call, and prompts only wait for calls that were minted.
  ghost predicate Steady(s: State) {
    (forall p, i :: p in s.buffers && 0 <= i < |s.buffers[p]| ==>
      Harmless(s.buffers[p][i]) && Tied(p, s.buffers[p][i], s.uuidSub)) &&
    PromptsMinted(s)
  }

  ghost predicate PromptsMinted(s: State) {
    forall prompt, i :: prompt in s.prompts && 0 <= i < |s.prompts[prompt]| ==> s.prompts[prompt][i] in s.subIds
  }

  ghost predicate Fit(k: Kin, s: State) {
    Sound(s) && Placed(s) && (k.Found? ==> Steady(s))
  }

  // w was found to belong to its call through uuid, or is the message uuid names.
  predicate Relies(w: Message, uuid: string) {
    w.uuid == Some(uuid) || (w.parentToolUse.None? && w.parentUuid == Some(uuid))
  }

  // The condition on one line: if it must wait it is harmless, and it takes over no uuid that a message
  // waiting for another call relies on.
  ghost predicate Settled(m: Message, s: State) {
    var p := Resolve(m, s).0;
    p.Some? ==> (p.value !in s.subIds ==> Harmless(m)) && (m.uuid.Some? ==> !TakesOver(m.uuid.value, p.value, s))
  }

  ghost predicate TakesOver(uuid: string, p: ProviderId, s: State) {
    exists q, i :: q in s.buffers && 0 <= i < |s.buffers[q]| && q != p && Relies(s.buffers[q][i], uuid)
  }

  ghost predicate Admits(k: Kin, m: Message, s: State) {
    k.Found? ==> Settled(m, s)
  }

  // No child more than s had, plus more; those that are left keep their order.
  ghost predicate Keeps(k: Kin, s: State, more: seq<Message>, t: State) {
    Fit(k, t) && Subsequence(Children(k, t), Children(k, s) + more)
  }

  // What replays leave alone, so that the rest of a batch still belongs to the call it waited for.
  ghost predicate Calm(s: State, t: State) {
    t.uuidSub == s.uuidSub && s.subIds.Keys <= t.subIds.Keys
  }

  lemma KeepsTrans(k: Kin, s: State, a: seq<Message>, t: State, b: seq<Message>, u: State)
    requires Keeps(k, s, a, t) && Keeps(k, t, b, u)
    ensures Keeps(k, s, a + b, u)
  {
    SubsequenceExtend(Children(k, t), Children(k, s) + a, b);
    SubsequenceTrans(Children(k, u), Children(k, t) + b, (Children(k, s) + a) + b);
    Reassociate(Children(k, s), a, b);
  }

  lemma KeepsSame(k: Kin, s: State, t: State)
    requires Fit(k, t) && Children(k, t) == Children(k, s)
    ensures Keeps(k, s, [], t)
  {
    assert Children(k, s) + [] == Children(k, s);
    SubsequenceSelf(Children(k, s));
  }

  // --- taking a message in ---

  // What Resolve and Remember do before the message is buffered or mapped.
  lemma RememberFit(k: Kin, m: Message, s: State)
    requires Fit(k, s) && Admits(k, m, s)
    ensures var (p, s1) := Resolve(m, s);
            var s2 := Remember(s1, m, p);
            && Fit(k, s2) && Children(k, s2) == Children(k, s) && Waiting(s2) == Waiting(s) && s2.subIds == s.subIds
            && (m.parentToolUse.Some? ==> p == Some(Raw(m.parentToolUse.value)))
            && (k.Found? && p.Some? && p.value !in s.subIds ==> Tied(p.value, m, s2.uuidSub))
            && (Rides(m, s) ==> s2.uuidSub == s.uuidSub)
  {
    var (p, s1) := Resolve(m, s);
    var s2 := Remember(s1, m, p);
    SamePoolsSound(s, s2);
    if k.Found? {
      RememberSteady(m, s);
    }
  }

  lemma RememberSteady(m: Message, s: State)
    requires Steady(s) && Settled(m, s)
    ensures var (p, s1) := Resolve(m, s);
            var s2 := Remember(s1, m, p);
            Steady(s2) && (p.Some? && p.value !in s.subIds ==> Tied(p.value, m, s2.uuidSub))
  {
    PromptsStayMinted(m, s);
  }

  // The message taken in, before anything is written for it.
  ghost function Taken(m: Message, s: State): State {
    var (p, s1) := Resolve(m, s);
    var s2 := Remember(s1, m, p);
    if p.Some? && p.value !in s.subIds then BufferMessage(s2, p.value, m) else s2
  }

  lemma BufferedSteady(m: Message, p: ProviderId, s: State)
    requires Steady(BufferMessage(s, p, m)) && PromptsMinted(s)
    ensures Steady(s) && Harmless(m)
  {
    var t := BufferMessage(s, p, m);
    assert t.buffers[p][|t.buffers[p]| - 1] == m;
    forall q, i | q in s.buffers && 0 <= i < |s.buffers[q]|
      ensures Harmless(s.buffers[q][i]) && Tied(q, s.buffers[q][i], s.uuidSub)
    {
      assert t.buffers[q][i] == s.buffers[q][i];
    }
  }

  lemma TakenOverUnties(m: Message, s: State)
    requires Steady(s) && !Settled(m, s)
    ensures !Steady(Taken(m, s))
  {
    var (p, s1) := Resolve(m, s);
    var s2 := Remember(s1, m, p);
    PromptsStayMinted(m, s);
    if p.value !in s.subIds && Steady(Taken(m, s)) {
      BufferedSteady(m, p.value, s2);
    }
    if m.uuid.Some? && TakesOver(m.uuid.value, p.value, s) {
      TakenOver(m.uuid.value, p.value, s, s2);
    }
  }

  lemma TakenOver(uuid: string, p: ProviderId, s: State, t: State)
    requires TakesOver(uuid, p, s) && t.buffers == s.buffers && t.uuidSub == s.uuidSub[uuid := p]
    ensures !Steady(t)
  {
    var q, i :| q in s.buffers && 0 <= i < |s.buffers[q]| && q != p && Relies(s.buffers[q][i], uuid);
    assert !Tied(q, t.buffers[q][i], t.uuidSub);
  }

  // The condition is exact: a line leaves everything that waits with its call exactly when it is settled.
  lemma TakenSteady(m: Message, s: State)
    requires Steady(s) && Placed(s)
    ensures Steady(Taken(m, s)) <==> Settled(m, s)
  {
    if Settled(m, s) {
      RememberSteady(m, s);
      var (p, s1) := Resolve(m, s);
      if p.Some? && p.value !in s.subIds {
        BufferSteady(m, p.value, Remember(s1, m, p));
      }
    } else {
      TakenOverUnties(m, s);
    }
  }

  lemma PromptsStayMinted(m: Message, s: State)
    requires PromptsMinted(s)
    ensures PromptsMinted(Resolve(m, s).1)
    ensures var p := Resolve(m, s).0;
            p.Some? && p.value !in s.subIds ==>
              if m.parentToolUse.Some? then p.value == Raw(m.parentToolUse.value)
              else m.parentUuid.Some? && m.parentUuid.value in s.uuidSub && s.uuidSub[m.parentUuid.value] == p.value
  {
  }

  lemma {:induction false} UnderSnoc(k: Kin, p: ProviderId, ms: seq<Message>, m: Message)
    ensures Chosen(k, Under(p, ms + [m])) == Chosen(k, Under(p, ms)) + Chosen(k, [Mapped(m, Some(p))])
  {
    assert Under(p, ms + [m]) == Under(p, ms) + [Mapped(m, Some(p))];
    ChosenConcat(k, Under(p, ms), [Mapped(m, Some(p))]);
  }

  lemma BufferChildren(k: Kin, m: Message, p: ProviderId, s: State)
    requires m.parentToolUse.Some? ==> p == Raw(m.parentToolUse.value)
    ensures Children(k, BufferMessage(s, p, m)) == Children(k, s) + Chosen(k, [Mapped(m, Some(p))])
  {
    if p == Call(k) {
      UnderSnoc(k, p, Queued(s.buffers, p), m);
      Reassociate(Chosen(k, s.mapped), Chosen(k, Under(p, Queued(s.buffers, p))), Chosen(k, [Mapped(m, Some(p))]));
    } else {
      assert Chosen(k, [Mapped(m, Some(p))]) == [];
    }
  }

  lemma BufferPlaced(m: Message, p: ProviderId, s: State)
    requires Placed(s) && (m.parentToolUse.Some? ==> p == Raw(m.parentToolUse.value))
    ensures Placed(BufferMessage(s, p, m))
  {
  }

  lemma BufferSteady(m: Message, p: ProviderId, s: State)
    requires Steady(s) && Harmless(m) && Tied(p, m, s.uuidSub)
    ensures Steady(BufferMessage(s, p, m))
  {
    var t := BufferMessage(s, p, m);
    forall q, i | q in t.buffers && 0 <= i < |t.buffers[q]|
      ensures Harmless(t.buffers[q][i]) && Tied(q, t.buffers[q][i], t.uuidSub)
    {
      if q == p && i == |Queued(s.buffers, p)| {
        assert t.buffers[q][i] == m;
      } else {
        assert q in s.buffers && t.buffers[q][i] == s.buffers[q][i];
      }
    }
  }

  lemma BufferKeeps(k: Kin, m: Message, p: ProviderId, s: State)
    requires Fit(k, s) && p !in s.subIds && (m.parentToolUse.Some? ==> p == Raw(m.parentToolUse.value))
    requires k.Found? ==> Harmless(m) && Tied(p, m, s.uuidSub)
    ensures Keeps(k, s, Chosen(k, [Mapped(m, Some(p))]), BufferMessage(s, p, m))
  {
    BufferSound(m, p, s);
    BufferPlaced(m, p, s);
    if k.Found? {
      BufferSteady(m, p, s);
    }
    BufferChildren(k, m, p, s);
    SubsequenceSelf(Children(k, BufferMessage(s, p, m)));
  }

  // Once a call is minted nothing waits for it, so a message mapped under it comes after all others.
  lemma MappedChildren(k: Kin, m: Message, p: Option<ProviderId>, s: State)
    requires Sound(s) && (p.Some? ==> p.value in s.subIds)
    requires m.parentToolUse.Some? ==> p == Some(Raw(m.parentToolUse.value))
    ensures var t := s.(mapped := s.mapped + [Mapped(m, p)]);
            Children(k, t) == Children(k, s) + Chosen(k, [Mapped(m, p)])
  {
    ChosenConcat(k, s.mapped, [Mapped(m, p)]);
    if Selects(k, Mapped(m, p)) {
      assert p == Some(Call(k));
      assert Under(Call(k), Queued(s.buffers, Call(k))) == [];
    } else {
      assert Chosen(k, [Mapped(m, p)]) == [];
    }
  }

  // Ending a turn drops what still waits, which leaves the mapped children.
  lemma ClosedKeeps(k: Kin, s: State, t: State)
    requires Sound(t) && t.mapped == s.mapped && t.buffers == map[] && t.prompts == map[]
    ensures Keeps(k, s, [], t)
  {
    var mapped := Chosen(k, s.mapped);
    assert Children(k, t) == mapped + [] == mapped;
    SubsequenceSelf(Children(k, s));
    SubsequencePrefix(mapped, Chosen(k, Under(Call(k), Queued(s.buffers, Call(k)))), Children(k, s));
    assert Children(k, s) + [] == Children(k, s);
  }

  // A branch that touches neither the buffers nor who belongs to whom.
  ghost predicate Apart(s: State, t: State) {
    t.mapped == s.mapped && t.buffers == s.buffers && t.uuidSub == s.uuidSub && t.prompts == s.prompts &&
    s.subIds.Keys <= t.subIds.Keys
  }

  lemma ApartKeeps(k: Kin, s: State, t: State)
    requires Fit(k, s) && Sound(t) && Apart(s, t)
    ensures Keeps(k, s, [], t)
  {
    KeepsSame(k, s, t);
  }

  // What a branch outside the replay loop does: end the turn, or stay apart.
  ghost predicate ClosesOrApart(m: Message, s: State, t: State) {
    if Closes(m, s) then t.mapped == s.mapped && t.buffers == map[] && t.prompts == map[] else Apart(s, t)
  }

  lemma CloseParts(s: State, status: Status)
    ensures var t := CloseTurn(s, status);
            if s.w.turn.Some? then t.mapped == s.mapped && t.buffers == map[] && t.prompts == map[] else t == s
  {
  }

  lemma OpenedApart(s: State, sub: Option<Id>)
    ensures Apart(s, EnsureTurn(s)) && Apart(s, OpenScope(EnsureTurn(s), EnsureTurn(s).w.turn.value, sub))
  {
  }

  lemma TextParts(m: Message, sub: Option<Id>, s: State)
    requires m.body.UserText?
    ensures ClosesOrApart(m, s, MapUserText(m, sub, s))
  {
    if m.body.meta || m.body.command.Invocation? {
    } else if m.body.command.Stdout? {
      EmitApart(s, Envelope(Agent, Service(m.body.command.cleaned), None, None));
    } else if m.sidechain {
      OpenedApart(s, sub);
      var turn := EnsureTurn(s).w.turn.value;
      EmitApart(OpenScope(EnsureTurn(s), turn, sub), AgentIn(Text(m.body.text.raw, false), turn, sub));
    } else {
      CloseParts(s, Completed);
      EmitApart(CloseTurn(s, Completed), Envelope(User, Text(m.body.text.raw, false), None, None));
    }
  }

  lemma EmitApart(s: State, e: Envelope)
    ensures Apart(s, Emit(s, e))
  {
  }

  lemma BlocksParts(m: Message, sub: Option<Id>, s: State)
    requires m.body.UserBlocks? && !m.body.meta && m.body.blocks != []
    ensures ClosesOrApart(m, s, MapUserBlocks(m, sub, s))
  {
    if m.sidechain || HasToolResult(m.body.blocks) {
      OpenedApart(s, sub);
    }
  }

  lemma FlatParts(m: Message, sub: Option<Id>, s: State)
    requires !m.body.Assistant?
    ensures ClosesOrApart(m, s, MapFlat(m, sub, s))
  {
    match m.body {
      case UserText(_, _, _) => TextParts(m, sub, s);
      case UserBlocks(meta, blocks) => if !meta && blocks != [] { BlocksParts(m, sub, s); }
      case _ =>
    }
  }

  // --- the recursion ---

  lemma {:induction false} MapMessageKeeps(k: Kin, m: Message, s: State)
    requires Fit(k, s) && Admits(k, m, s)
    ensures Keeps(k, s, Chosen(k, [Mapped(m, Resolve(m, s).0)]), MapMessage(m, s))
    ensures k.Found? && Rides(m, s) ==> Calm(s, MapMessage(m, s))
    decreases Waiting(s), 5, 0
  {
    var (p, s1) := Resolve(m, s);
    var s2 := Remember(s1, m, p);
    RememberFit(k, m, s);
    if p.Some? && p.value !in s2.subIds {
      BufferKeeps(k, m, p.value, s2);
    } else {
      MapResolvedKeeps(k, m, p, s2);
    }
    KeepsFrom(k, s, s2, Chosen(k, [Mapped(m, p)]), MapMessage(m, s));
  }

  lemma KeepsFrom(k: Kin, s: State, s2: State, more: seq<Message>, t: State)
    requires Keeps(k, s2, more, t) && Children(k, s2) == Children(k, s)
    ensures Keeps(k, s, more, t)
  {
  }

  // A message released by its own call: mapping it changes neither the open turn's calls nor the uuids.
  ghost predicate Rides(m: Message, s: State) {
    var (p, s1) := Resolve(m, s);
    Harmless(m) && p.Some? && p.value in s.subIds && Remember(s1, m, p).uuidSub == s.uuidSub
  }

  lemma {:induction false} MapResolvedKeeps(k: Kin, m: Message, p: Option<ProviderId>, s: State)
    requires Fit(k, s) && (p.Some? ==> p.value in s.subIds)
    requires m.parentToolUse.Some? ==> p == Some(Raw(m.parentToolUse.value))
    ensures Keeps(k, s, Chosen(k, [Mapped(m, p)]), MapResolved(m, p, s))
    ensures k.Found? && Harmless(m) ==> Calm(s, MapResolved(m, p, s))
    decreases Waiting(s), 4, 0
  {
    var sub := if p.Some? then Some(s.subIds[p.value]) else None;
    var s1 := s.(mapped := s.mapped + [Mapped(m, p)]);
    MappedChildren(k, m, p, s);
    if m.body.Assistant? {
      MapAssistantKeeps(k, m.body, sub, s1);
    } else {
      FlatKeeps(k, m, sub, s1);
    }
    MappedKeeps(k, m, p, s, MapResolved(m, p, s));
  }

  lemma MappedKeeps(k: Kin, m: Message, p: Option<ProviderId>, s: State, t: State)
    requires var s1 := s.(mapped := s.mapped + [Mapped(m, p)]);
             Children(k, s1) == Children(k, s) + Chosen(k, [Mapped(m, p)]) && Keeps(k, s1, [], t)
    ensures Keeps(k, s, Chosen(k, [Mapped(m, p)]), t)
  {
    assert (Children(k, s) + Chosen(k, [Mapped(m, p)])) + [] == Children(k, s) + Chosen(k, [Mapped(m, p)]);
  }

  lemma FlatKeeps(k: Kin, m: Message, sub: Option<Id>, s: State)
    requires Fit(k, s) && !m.body.Assistant?
    ensures Keeps(k, s, [], MapFlat(m, sub, s))
    ensures Harmless(m) ==> Calm(s, MapFlat(m, sub, s))
  {
    MapFlatSound(m, sub, s);
    FlatParts(m, sub, s);
    if Closes(m, s) {
      ClosedKeeps(k, s, MapFlat(m, sub, s));
    } else {
      ApartKeeps(k, s, MapFlat(m, sub, s));
    }
  }

  lemma {:induction false} MapAssistantKeeps(k: Kin, body: Body, sub: Option<Id>, s: State)
    requires body.Assistant? && Fit(k, s)
    ensures Keeps(k, s, [], MapAssistant(body, sub, s))
    ensures k.Found? ==> Calm(s, MapAssistant(body, sub, s))
    decreases Waiting(s), 3, 0
  {
    OpeningKeeps(k, sub, s);
    var turn := EnsureTurn(s).w.turn.value;
    var s1 := OpenScope(EnsureTurn(s), turn, sub);
    var s2 := AssistantBlocks(body.blocks, turn, sub, s1);
    AssistantBlocksKeeps(k, body.blocks, turn, sub, s1);
    KeepsNothing(k, s, s1, s2);
    if body.usage.Some? {
      var e := AgentIn(Usage(body.usage.value.0, body.usage.value.1), turn, sub);
      EmitKeeps(k, s2, e);
      KeepsNothing(k, s, s2, Emit(s2, e));
    }
  }

  lemma OpeningKeeps(k: Kin, sub: Option<Id>, s: State)
    requires Fit(k, s)
    ensures var s1 := EnsureTurn(s);
            var s2 := OpenScope(s1, s1.w.turn.value, sub);
            Keeps(k, s, [], s2) && Calm(s, s2) && Waiting(s2) == Waiting(s)
  {
    EnsureTurnSound(s);
    var s1 := EnsureTurn(s);
    OpenScopeSound(s1, s1.w.turn.value, sub);
    ApartKeeps(k, s, OpenScope(s1, s1.w.turn.value, sub));
  }

  lemma KeepsNothing(k: Kin, s: State, t: State, u: State)
    requires Keeps(k, s, [], t) && Keeps(k, t, [], u)
    ensures Keeps(k, s, [], u)
  {
    KeepsTrans(k, s, [], t, [], u);
  }

  lemma {:induction false} AssistantBlocksKeeps(k: Kin, blocks: seq<Block>, turn: Id, sub: Option<Id>, s: State)
    requires Fit(k, s)
    ensures Keeps(k, s, [], AssistantBlocks(blocks, turn, sub, s))
    ensures k.Found? ==> Calm(s, AssistantBlocks(blocks, turn, sub, s))
    decreases Waiting(s), 2, |blocks|
  {
    if blocks == [] {
      KeepsSame(k, s, s);
    } else {
      var s1 := AssistantBlock(blocks[0], turn, sub, s);
      AssistantBlockKeeps(k, blocks[0], turn, sub, s);
      AssistantBlocksKeeps(k, blocks[1..], turn, sub, s1);
      KeepsNothing(k, s, s1, AssistantBlocks(blocks, turn, sub, s));
    }
  }

  lemma {:induction false} AssistantBlockKeeps(k: Kin, b: Block, turn: Id, sub: Option<Id>, s: State)
    requires Fit(k, s)
    ensures Keeps(k, s, [], AssistantBlock(b, turn, sub, s))
    ensures k.Found? ==> Calm(s, AssistantBlock(b, turn, sub, s))
    decreases Waiting(s), 2, 0
  {
    match b {
      case TextBlock(text) => EmitKeeps(k, s, AgentIn(Text(text.raw, false), turn, sub));
      case ThinkingBlock(text) => EmitKeeps(k, s, AgentIn(Text(text, true), turn, sub));
      case ToolUse(_, _, _, _, _) => ToolUseKeeps(k, b, turn, sub, s);
      case _ => KeepsSame(k, s, s);
    }
  }

  lemma EmitKeeps(k: Kin, s: State, e: Envelope)
    requires Fit(k, s) && !e.ev.TurnStart? && !e.ev.TurnEnd?
    ensures Keeps(k, s, [], Emit(s, e)) && Calm(s, Emit(s, e))
  {
    EmitSound(s, e);
    ApartKeeps(k, s, Emit(s, e));
  }

  lemma {:induction false} ToolUseKeeps(k: Kin, b: Block, turn: Id, sub: Option<Id>, s: State)
    requires b.ToolUse? && Fit(k, s)
    ensures Keeps(k, s, [], ToolUseBlock(b, turn, sub, s))
    ensures k.Found? ==> Calm(s, ToolUseBlock(b, turn, sub, s))
    decreases Waiting(s), 1, 0
  {
    var (s1, p) := IdentifyCall(b, s);
    var s2 := AnnounceCall(b, p, turn, sub, s1);
    var queue := Queued(s2.buffers, p);
    ContentsPut(s2.buffers, p, []);
    AnnouncedFit(k, b, turn, sub, s);
    ReplayKeeps(k, p, queue, Detach(s2, p));
    Released(k, p, s, Detach(s2, p), ToolUseBlock(b, turn, sub, s));
  }

  // Minting and announcing a call, with its waiting messages taken out.
  lemma AnnouncedFit(k: Kin, b: Block, turn: Id, sub: Option<Id>, s: State)
    requires b.ToolUse? && Fit(k, s)
    ensures var (s1, p) := IdentifyCall(b, s);
            var t := Detach(AnnounceCall(b, p, turn, sub, s1), p);
            && Fit(k, t) && p in t.subIds && t.uuidSub == s.uuidSub && s.subIds.Keys <= t.subIds.Keys
            && t.buffers == s.buffers - {p} && t.mapped == s.mapped
            && RidesUnder(k, p, Queued(s.buffers, p), t)
  {
    var (s1, p) := IdentifyCall(b, s);
    var s2 := AnnounceCall(b, p, turn, sub, s1);
    AnnounceCallBracketed(b, p, turn, sub, s1);
    DetachSound(p, s, s2);
    AnnouncedPrompts(b, p, turn, sub, s1);
  }

  lemma AnnouncedPrompts(b: Block, p: ProviderId, turn: Id, sub: Option<Id>, s: State)
    requires b.ToolUse? && p in s.subIds
    ensures var t := AnnounceCall(b, p, turn, sub, s);
            t.uuidSub == s.uuidSub && (PromptsMinted(s) ==> PromptsMinted(t))
  {
  }

  // A batch that waited for p: each message names p if it names a call, and will be found under p.
  ghost predicate RidesUnder(k: Kin, p: ProviderId, ms: seq<Message>, s: State) {
    forall i :: 0 <= i < |ms| ==>
      (ms[i].parentToolUse.Some? ==> p == Raw(ms[i].parentToolUse.value)) &&
      (k.Found? ==> Harmless(ms[i]) && Tied(p, ms[i], s.uuidSub))
  }

  // The batch moved from the buffer to the mapped children, where nothing else of p's was waiting.
  lemma Released(k: Kin, p: ProviderId, s: State, d: State, t: State)
    requires Placed(s) && d.buffers == s.buffers - {p} && d.mapped == s.mapped
    requires Keeps(k, d, Chosen(k, Under(p, Queued(s.buffers, p))), t)
    ensures Keeps(k, s, [], t)
  {
    var batch := Chosen(k, Under(p, Queued(s.buffers, p)));
    if p == Call(k) {
      assert Under(p, Queued(d.buffers, p)) == [];
      assert Children(k, d) + batch == Children(k, s) + [];
    } else {
      NoneChosen(k, p, Queued(s.buffers, p));
      assert Children(k, d) + batch == Children(k, s) + [];
    }
  }

  lemma {:induction false} NoneChosen(k: Kin, p: ProviderId, ms: seq<Message>)
    requires p != Call(k)
    requires forall i :: 0 <= i < |ms| ==> ms[i].parentToolUse.Some? ==> p == Raw(ms[i].parentToolUse.value)
    ensures Chosen(k, Under(p, ms)) == []
  {
    if ms != [] {
      NoneChosen(k, p, ms[1..]);
      assert Under(p, ms)[1..] == Under(p, ms[1..]);
    }
  }

  lemma ReplayedUnder(k: Kin, p: ProviderId, ms: seq<Message>, s: State)
    requires ms != [] && RidesUnder(k, p, ms, s) && (k.Found? ==> p in s.subIds && Steady(s))
    ensures Chosen(k, [Mapped(ms[0], Resolve(ms[0], s).0)]) == Chosen(k, [Mapped(ms[0], Some(p))])
    ensures Admits(k, ms[0], s) && (k.Found? ==> Rides(ms[0], s))
    ensures forall t :: (k.Found? ==> Calm(s, t)) ==> RidesUnder(k, p, ms[1..], t)
  {
    if k.Found? {
      assert Resolve(ms[0], s).0 == Some(p);
      if ms[0].uuid.Some? {
        TiedTakesNothing(p, ms[0], s);
      }
    }
  }

  lemma TiedTakesNothing(p: ProviderId, m: Message, s: State)
    requires Steady(s) && Tied(p, m, s.uuidSub) && m.uuid.Some?
    ensures !TakesOver(m.uuid.value, p, s)
  {
  }

  lemma {:induction false} ReplayKeeps(k: Kin, p: ProviderId, ms: seq<Message>, s: State)
    requires Fit(k, s) && RidesUnder(k, p, ms, s) && (k.Found? ==> p in s.subIds)
    ensures Keeps(k, s, Chosen(k, Under(p, ms)), Replay(ms, s))
    ensures k.Found? ==> Calm(s, Replay(ms, s))
    decreases Waiting(s) + |ms|, 0, |ms|
  {
    if ms == [] {
      KeepsSame(k, s, s);
    } else {
      ReplayedUnder(k, p, ms, s);
      MapMessageKeeps(k, ms[0], s);
      ReplayKeeps(k, p, ms[1..], MapMessage(ms[0], s));
      BatchKeeps(k, p, ms, s, MapMessage(ms[0], s), Replay(ms, s));
    }
  }

  lemma BatchKeeps(k: Kin, p: ProviderId, ms: seq<Message>, s: State, t: State, u: State)
    requires ms != [] && Keeps(k, s, Chosen(k, [Mapped(ms[0], Some(p))]), t)
    requires Keeps(k, t, Chosen(k, Under(p, ms[1..])), u)
    ensures Keeps(k, s, Chosen(k, Under(p, ms)), u)
  {
    KeepsTrans(k, s, Chosen(k, [Mapped(ms[0], Some(p))]), t, Chosen(k, Under(p, ms[1..])), u);
    assert Under(p, ms) == [Mapped(ms[0], Some(p))] + Under(p, ms[1..]);
    ChosenConcat(k, [Mapped(ms[0], Some(p))], Under(p, ms[1..]));
  }

  // --- whole runs ---

  // What a step takes in, with the call it is found to belong to on arrival.
  ghost function Arrival(s: State, i: Input): seq<Mapped> {
    if i.Line? then [Mapped(i.m, Resolve(i.m, s).0)] else []
  }

  ghost function Arrivals(s: State, inputs: seq<Input>): seq<Mapped>
    decreases |inputs|
  {
    if inputs == [] then [] else Arrival(s, inputs[0]) + Arrivals(Step(s, inputs[0]), inputs[1..])
  }

  ghost predicate SettledRun(s: State, inputs: seq<Input>)
    decreases |inputs|
  {
    inputs == [] || ((inputs[0].Line? ==> Settled(inputs[0].m, s)) && SettledRun(Step(s, inputs[0]), inputs[1..]))
  }

  lemma StepKeeps(k: Kin, s: State, i: Input)
    requires Fit(k, s) && (i.Line? ==> Admits(k, i.m, s))
    ensures Keeps(k, s, Chosen(k, Arrival(s, i)), Step(s, i))
  {
    match i {
      case Line(m) => MapMessageKeeps(k, m, s);
      case ForceClose(status) =>
        CloseTurnSound(s, status);
        if s.w.turn.Some? {
          ClosedKeeps(k, s, CloseTurn(s, status));
        } else {
          KeepsSame(k, s, s);
        }
    }
  }

  lemma {:induction false} RunKeeps(k: Kin, s: State, inputs: seq<Input>)
    requires Fit(k, s) && (k.Found? ==> SettledRun(s, inputs))
    ensures Keeps(k, s, Chosen(k, Arrivals(s, inputs)), Run(s, inputs))
    decreases |inputs|
  {
    if inputs == [] {
      KeepsSame(k, s, s);
    } else {
      var s1 := Step(s, inputs[0]);
      StepKeeps(k, s, inputs[0]);
      RunKeeps(k, s1, inputs[1..]);
      KeepsTrans(k, s, Chosen(k, Arrival(s, inputs[0])), s1, Chosen(k, Arrivals(s1, inputs[1..])), Run(s, inputs));
      ChosenConcat(k, Arrival(s, inputs[0]), Arrivals(s1, inputs[1..]));
    }
  }

  // The lines that name a call as their parent.
  function Naming(call: string, ms: seq<Message>): seq<Message> {
    if ms == [] then [] else (if ms[0].parentToolUse == Some(call) then [ms[0]] else []) + Naming(call, ms[1..])
  }

  lemma {:induction false} NamedArrivals(call: string, s: State, inputs: seq<Input>)
    ensures Chosen(Named(call), Arrivals(s, inputs)) == Naming(call, Lines(inputs))
    decreases |inputs|
  {
    if inputs != [] {
      var s1 := Step(s, inputs[0]);
      NamedArrivals(call, s1, inputs[1..]);
      if inputs[0].Line? {
        assert Arrivals(s, inputs)[1..] == Arrivals(s1, inputs[1..]);
        assert Lines(inputs)[1..] == Lines(inputs[1..]);
      } else {
        assert Arrivals(s, inputs) == Arrivals(s1, inputs[1..]);
        assert Lines(inputs) == Lines(inputs[1..]);
      }
    }
  }

  lemma InitialFit(k: Kin)
    ensures Fit(k, INITIAL) && Children(k, INITIAL) == []
  {
    BlankTraced();
  }

  lemma KeepsFirst(k: Kin, more: seq<Message>, t: State)
    requires Keeps(k, INITIAL, more, t)
    ensures Subsequence(Children(k, t), more)
  {
    InitialFit(k);
    assert [] + more == more;
  }

  // Main result: on every run, the children that name a call are mapped in the order they arrived,
  // with those still waiting after them.
  lemma NamedKeepArrivalOrder(inputs: seq<Input>, call: string)
    ensures Subsequence(Children(Named(call), Run(INITIAL, inputs)), Naming(call, Lines(inputs)))
  {
    InitialFit(Named(call));
    RunKeeps(Named(call), INITIAL, inputs);
    NamedArrivals(call, INITIAL, inputs);
    KeepsFirst(Named(call), Naming(call, Lines(inputs)), Run(INITIAL, inputs));
  }

  // Main result: so are the children found to belong to a call by any of the four rules, on every run
  // whose waiting messages are harmless and whose uuids stay with their calls.
  lemma FoundKeepArrivalOrder(inputs: seq<Input>, p: ProviderId)
    requires SettledRun(INITIAL, inputs)
    ensures Subsequence(Children(Found(p), Run(INITIAL, inputs)), Chosen(Found(p), Arrivals(INITIAL, inputs)))
  {
    InitialFit(Found(p));
    RunKeeps(Found(p), INITIAL, inputs);
    KeepsFirst(Found(p), Chosen(Found(p), Arrivals(INITIAL, inputs)), Run(INITIAL, inputs));
  }
}
