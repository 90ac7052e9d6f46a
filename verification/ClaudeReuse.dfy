// Why a uuid must stay with its call for children to keep their order: five lines that use one uuid
// under two calls.
module ClaudeReuse {
  import opened Wrappers
  import opened Wire
  import opened ClaudeMapper
  import opened ClaudeOrder

  // A message with nothing to show, under a call it names or under the message it answers.
  predicate Quiet(m: Message, uuid: string, call: string) {
    m.body.System? && m.uuid == Some(uuid) && m.parentToolUse == Some(call)
  }

  predicate Answers(m: Message, uuid: string) {
    m.body.System? && m.uuid.None? && m.parentToolUse.None? && m.parentUuid == Some(uuid)
  }

  // An assistant message that makes one Task call and nothing else.
  predicate Spawns(m: Message, call: string) {
    m.uuid.None? && m.body == Assistant([ToolUse(Some(call), "Task", None, None, "{}")], None)
  }

  lemma Buffered(m: Message, p: ProviderId, s: State)
    requires Resolve(m, s) == (Some(p), s) && p !in s.subIds
    ensures var t := MapMessage(m, s);
            && t.buffers == s.buffers[p := Queued(s.buffers, p) + [m]] && t.uuidSub == Remember(s, m, Some(p)).uuidSub
            && t.mapped == s.mapped && t.subIds == s.subIds
  {
    assert MapMessage(m, s) == BufferMessage(Remember(s, m, Some(p)), p, m);
  }

  lemma QuietMapped(m: Message, p: ProviderId, s: State)
    requires m.body.System? && Resolve(m, s) == (Some(p), s) && p in s.subIds
    ensures MapMessage(m, s) == Remember(s, m, Some(p)).(mapped := s.mapped + [Mapped(m, Some(p))])
  {
  }

  // What a spawned call hands to the replay.
  ghost predicate Handed(m: Message, call: string, s: State, d: State) {
    d.mapped == s.mapped + [Mapped(m, Resolve(m, s).0)] && d.buffers == s.buffers - {Raw(call)} &&
    d.uuidSub == s.uuidSub && d.subIds.Keys == s.subIds.Keys + {Raw(call)}
  }

  lemma CallReleases(b: Block, call: string, turn: Id, sub: Option<Id>, s: State) returns (d: State)
    requires b == ToolUse(Some(call), "Task", None, None, "{}")
    ensures ToolUseBlock(b, turn, sub, s) == Replay(Queued(s.buffers, Raw(call)), d)
    ensures d.mapped == s.mapped && d.buffers == s.buffers - {Raw(call)}
    ensures d.uuidSub == s.uuidSub && d.subIds.Keys == s.subIds.Keys + {Raw(call)}
  {
    var (s1, p) := IdentifyCall(b, s);
    d := Detach(AnnounceCall(b, p, turn, sub, s1), p);
  }

  lemma SpawnReleases(m: Message, call: string, s: State) returns (d: State)
    requires Spawns(m, call) && Resolve(m, s).1 == s
    requires Resolve(m, s).0.Some? ==> Resolve(m, s).0.value in s.subIds
    ensures MapMessage(m, s) == Replay(Queued(s.buffers, Raw(call)), d) && Handed(m, call, s, d)
  {
    var p := Resolve(m, s).0;
    var sub := if p.Some? then Some(s.subIds[p.value]) else None;
    var s1 := s.(mapped := s.mapped + [Mapped(m, p)]);
    var turn := EnsureTurn(s1).w.turn.value;
    var s2 := OpenScope(EnsureTurn(s1), turn, sub);
    var b := m.body.blocks[0];
    assert m.body.blocks[1..] == [];
    assert AssistantBlocks(m.body.blocks, turn, sub, s2) ==
        AssistantBlocks([], turn, sub, ToolUseBlock(b, turn, sub, s2));
    assert MapMessage(m, s) == MapResolved(m, p, s) == MapAssistant(m.body, sub, s1) == ToolUseBlock(b, turn, sub, s2);
    d := CallReleases(b, call, turn, sub, s2);
  }

  lemma ReplayOne(m: Message, s: State)
    ensures Replay([m], s) == MapMessage(m, s)
  {
    assert [m][1..] == [];
    assert Replay([m], s) == Replay([], MapMessage(m, s));
  }

  lemma ReplayThree(a: Message, b: Message, c: Message, s: State)
    ensures Replay([a, b, c], s) == MapMessage(c, MapMessage(b, MapMessage(a, s)))
  {
    var s1 := MapMessage(a, s);
    assert [a, b, c][1..] == [b, c] && [b, c][1..] == [c];
    assert Replay([a, b, c], s) == Replay([b, c], s1) == Replay([c], MapMessage(b, s1));
    ReplayOne(c, MapMessage(b, s1));
  }

  // Five lines: uuid u is used once under call a and once under call b, and call b is made by a message
  // that itself waits for call a, ahead of the message that answers u.
  ghost predicate Reuse(first: Message, spawner: Message, heir: Message, second: Message, opener: Message) {
    Quiet(first, "u", "a") && Spawns(spawner, "b") && spawner.parentToolUse == Some("a") && Answers(heir, "u") &&
    Quiet(second, "u", "b") && Spawns(opener, "a") &&
    opener.parentToolUse.None? && opener.parentUuid.None? && !opener.sidechain
  }

  lemma WaitsUnder(m: Message, call: string, other: string, s: State)
    requires Resolve(m, s) == (Some(Raw(call)), s) && s.subIds == map[] && s.mapped == [] && call != other
    ensures var t := MapMessage(m, s);
            && t.mapped == [] && t.subIds == map[] && t.uuidSub == Remember(s, m, Some(Raw(call))).uuidSub
            && Queued(t.buffers, Raw(call)) == Queued(s.buffers, Raw(call)) + [m]
            && Queued(t.buffers, Raw(other)) == Queued(s.buffers, Raw(other))
  {
    Buffered(m, Raw(call), s);
  }

  lemma TwoWait(first: Message, spawner: Message)
    requires Quiet(first, "u", "a") && Spawns(spawner, "b") && spawner.parentToolUse == Some("a")
    ensures var s := MapMessage(spawner, MapMessage(first, INITIAL));
            && s.mapped == [] && s.subIds == map[] && s.uuidSub == map["u" := Raw("a")]
            && Queued(s.buffers, Raw("a")) == [first, spawner] && Queued(s.buffers, Raw("b")) == []
  {
    WaitsUnder(first, "a", "b", INITIAL);
    WaitsUnder(spawner, "a", "b", MapMessage(first, INITIAL));
    assert ([] + [first]) + [spawner] == [first, spawner];
  }

  lemma TwoMoreWait(heir: Message, second: Message, s: State)
    requires Answers(heir, "u") && Quiet(second, "u", "b")
    requires s.mapped == [] && s.subIds == map[] && s.uuidSub == map["u" := Raw("a")]
    requires Queued(s.buffers, Raw("b")) == []
    ensures var t := MapMessage(second, MapMessage(heir, s));
            && t.mapped == [] && Queued(t.buffers, Raw("a")) == Queued(s.buffers, Raw("a")) + [heir]
            && Queued(t.buffers, Raw("b")) == [second]
  {
    WaitsUnder(heir, "a", "b", s);
    WaitsUnder(second, "b", "a", MapMessage(heir, s));
  }

  lemma SpawnerReleases(spawner: Message, second: Message, s: State)
    requires Spawns(spawner, "b") && spawner.parentToolUse == Some("a") && Quiet(second, "u", "b")
    requires Queued(s.buffers, Raw("b")) == [second] && Raw("a") in s.subIds
    ensures var t := MapMessage(spawner, s);
            && t.mapped == s.mapped + [Mapped(spawner, Some(Raw("a"))), Mapped(second, Some(Raw("b")))]
            && t.uuidSub == s.uuidSub["u" := Raw("b")] && Raw("b") in t.subIds
  {
    var d := SpawnReleases(spawner, "b", s);
    ReplayOne(second, d);
    QuietMapped(second, Raw("b"), d);
  }

  lemma HeirReleases(spawner: Message, heir: Message, second: Message, s: State)
    requires Spawns(spawner, "b") && spawner.parentToolUse == Some("a") && Answers(heir, "u") && Quiet(second, "u", "b")
    requires Queued(s.buffers, Raw("b")) == [second] && Raw("a") in s.subIds
    ensures MapMessage(heir, MapMessage(spawner, s)).mapped ==
              s.mapped + [Mapped(spawner, Some(Raw("a"))), Mapped(second, Some(Raw("b"))), Mapped(heir, Some(Raw("b")))]
  {
    SpawnerReleases(spawner, second, s);
    QuietMapped(heir, Raw("b"), MapMessage(spawner, s));
  }

  // The heir follows the uuid to call b, where the second use has just been mapped.
  lemma BatchReleases(first: Message, spawner: Message, heir: Message, second: Message, d: State)
    requires Quiet(first, "u", "a") && Spawns(spawner, "b") && spawner.parentToolUse == Some("a")
    requires Answers(heir, "u") && Quiet(second, "u", "b")
    requires Queued(d.buffers, Raw("b")) == [second] && Raw("a") in d.subIds
    ensures Replay([first, spawner, heir], d).mapped ==
              d.mapped + [Mapped(first, Some(Raw("a"))), Mapped(spawner, Some(Raw("a"))),
                          Mapped(second, Some(Raw("b"))), Mapped(heir, Some(Raw("b")))]
  {
    ReplayThree(first, spawner, heir, d);
    QuietMapped(first, Raw("a"), d);
    HeirReleases(spawner, heir, second, MapMessage(first, d));
  }

  lemma OpenerReleases(opener: Message, call: string, other: string, s: State) returns (d: State)
    requires Spawns(opener, call) && Resolve(opener, s) == (None, s) && s.mapped == [] && call != other
    ensures MapMessage(opener, s) == Replay(Queued(s.buffers, Raw(call)), d)
    ensures d.mapped == [Mapped(opener, None)] && Raw(call) in d.subIds
    ensures Queued(d.buffers, Raw(other)) == Queued(s.buffers, Raw(other))
  {
    d := SpawnReleases(opener, call, s);
  }

  lemma LastTwo(p: ProviderId, x: Mapped, y: Mapped, z: Mapped, m: Message, n: Message)
    requires x.parent != Some(p) && y.parent != Some(p) && z.parent != Some(p)
    ensures Chosen(Found(p), [x] + [y, z, Mapped(m, Some(p)), Mapped(n, Some(p))]) == [m, n]
  {
    ChosenConcat(Found(p), [x], [y, z, Mapped(m, Some(p)), Mapped(n, Some(p))]);
    ChosenConcat(Found(p), [y, z], [Mapped(m, Some(p)), Mapped(n, Some(p))]);
    assert [y, z] + [Mapped(m, Some(p)), Mapped(n, Some(p))] == [y, z, Mapped(m, Some(p)), Mapped(n, Some(p))];
    assert [y, z][1..] == [z] && Chosen(Found(p), [z]) == [] && Chosen(Found(p), [x]) == [];
    assert [Mapped(m, Some(p)), Mapped(n, Some(p))][1..] == [Mapped(n, Some(p))];
    assert Chosen(Found(p), [Mapped(n, Some(p))]) == [n] && [m] + [n] == [m, n];
  }

  lemma HeirComesLast(first: Message, spawner: Message, heir: Message, second: Message, opener: Message, s: State)
    requires Reuse(first, spawner, heir, second, opener) && s.mapped == []
    requires Queued(s.buffers, Raw("a")) == [first, spawner, heir] && Queued(s.buffers, Raw("b")) == [second]
    ensures Chosen(Found(Raw("b")), MapMessage(opener, s).mapped) == [second, heir]
  {
    var d := OpenerReleases(opener, "a", "b", s);
    BatchReleases(first, spawner, heir, second, d);
    var a := Some(Raw("a"));
    LastTwo(Raw("b"), Mapped(opener, None), Mapped(first, a), Mapped(spawner, a), second, heir);
  }

  lemma HeirOvertaken(first: Message, spawner: Message, heir: Message, second: Message, opener: Message, s: State)
    requires Reuse(first, spawner, heir, second, opener) && s.mapped == [] && s.subIds == map[]
    requires s.uuidSub == map["u" := Raw("a")]
    requires Queued(s.buffers, Raw("a")) == [first, spawner] && Queued(s.buffers, Raw("b")) == []
    ensures var t := MapMessage(opener, MapMessage(second, MapMessage(heir, s)));
            Chosen(Found(Raw("b")), t.mapped) == [second, heir]
  {
    TwoMoreWait(heir, second, s);
    assert [first, spawner] + [heir] == [first, spawner, heir];
    HeirComesLast(first, spawner, heir, second, opener, MapMessage(second, MapMessage(heir, s)));
  }

  // The heir is read before the second use, and mapped under the same call after it.
  lemma ReusedUuidReorders(first: Message, spawner: Message, heir: Message, second: Message, opener: Message)
    requires Reuse(first, spawner, heir, second, opener)
    ensures var s := MapMessage(second, MapMessage(heir, MapMessage(spawner, MapMessage(first, INITIAL))));
            Chosen(Found(Raw("b")), MapMessage(opener, s).mapped) == [second, heir]
  {
    TwoWait(first, spawner);
    HeirOvertaken(first, spawner, heir, second, opener, MapMessage(spawner, MapMessage(first, INITIAL)));
  }
}
