// The wire protocol every session event is wrapped in (packages/wire/src/session.ts), and the
// monitor automata that say what a well-formed envelope trace is.
module Wire {
  import opened Wrappers

  // Adapter-minted ids (cuid2 in the program): a fresh-name supply of naturals.
  type Id = nat
  // Parsed JSON the mappers pass through without looking inside.
  type Json = string

  datatype Status = Completed | Cancelled | Failed
  datatype Role = User | Agent
  datatype Risk = ReadRisk | WriteRisk | ExecRisk | NetworkRisk
  datatype PlanStep = PlanStep(text: string, status: string)

  datatype Event =
    | TurnStart
    | TurnEnd(status: Status)
    | SubStart
    | SubStop
    | Text(md: string, thinking: bool)
    | ToolStart(call: Id, name: string, title: Option<string>, args: Json, risk: Option<Risk>)
    | ToolEnd(call: Id, ok: bool, output: Option<Json>)
    | Usage(inputTokens: nat, outputTokens: nat)
    | File(ref: string, name: string, size: nat)
    | Service(note: string)
    | Plan(steps: seq<PlanStep>)

  datatype Envelope = Envelope(role: Role, ev: Event, turn: Option<Id>, sub: Option<Id>)

  function AgentIn(ev: Event, turn: Id, sub: Option<Id>): Envelope {
    Envelope(Agent, ev, Some(turn), sub)
  }

  // --- well-formed traces ---

  // What a renderer must remember: the open turn, and in it the subagents that ever started and
  // those still running.
  datatype Monitor = Monitor(open: Option<Id>, started: set<Id>, active: set<Id>)

  const IDLE := Monitor(None, {}, {})

  // Text and tool starts need their subagent's bracket to have opened first. Plans and tool ends
  // are only tied to the turn: the ACP mapper emits those without opening the bracket.
  predicate NeedsOpenScope(ev: Event) {
    ev.Text? || ev.ToolStart?
  }

  predicate Accepts(m: Monitor, e: Envelope) {
    match e.ev
    case TurnStart => m.open.None? && e.turn.Some? && e.sub.None?
    case TurnEnd(_) => m.open.Some? && e.turn == m.open && e.sub.None? && m.active == {}
    case SubStart => m.open.Some? && e.turn == m.open && e.sub.Some? && e.sub.value !in m.started
    case SubStop => m.open.Some? && e.turn == m.open && e.sub.Some? && e.sub.value in m.active
    case _ =>
      (e.turn.Some? ==> e.turn == m.open) &&
      (e.sub.Some? ==> e.turn.Some?) &&
      (NeedsOpenScope(e.ev) && e.sub.Some? ==> e.sub.value in m.started)
  }

  function Advance(m: Monitor, e: Envelope): Monitor
    requires Accepts(m, e)
  {
    match e.ev
    case TurnStart => Monitor(e.turn, {}, {})
    case TurnEnd(_) => IDLE
    case SubStart => m.(started := m.started + {e.sub.value}, active := m.active + {e.sub.value})
    case SubStop => m.(active := m.active - {e.sub.value})
    case _ => m
  }

  // The monitor after reading a whole trace, or None when it rejects.
  function Reads(m: Monitor, es: seq<Envelope>): Option<Monitor>
    decreases |es|
  {
    if es == [] then Some(m)
    else if !Accepts(m, es[0]) then None
    else Reads(Advance(m, es[0]), es[1..])
  }

  lemma {:induction false} ReadsConcat(m: Monitor, a: seq<Envelope>, b: seq<Envelope>)
    ensures Reads(m, a + b) == (if Reads(m, a).Some? then Reads(Reads(m, a).value, b) else None)
    decreases |a|
  {
    if a == [] {
      assert a + b == b;
    } else {
      assert (a + b)[1..] == a[1..] + b;
      if Accepts(m, a[0]) {
        ReadsConcat(Advance(m, a[0]), a[1..], b);
      }
    }
  }

  // The weaker automaton that only looks at turn brackets: they never nest, and an end carries
  // the id of the start it closes.
  function Brackets(open: Option<Id>, es: seq<Envelope>): Option<Option<Id>>
    decreases |es|
  {
    if es == [] then Some(open)
    else if es[0].ev.TurnStart? then
      if open.None? && es[0].turn.Some? then Brackets(es[0].turn, es[1..]) else None
    else if es[0].ev.TurnEnd? then
      if open.Some? && es[0].turn == open then Brackets(None, es[1..]) else None
    else Brackets(open, es[1..])
  }

  lemma {:induction false} BracketsConcat(open: Option<Id>, a: seq<Envelope>, b: seq<Envelope>)
    ensures Brackets(open, a + b) == (if Brackets(open, a).Some? then Brackets(Brackets(open, a).value, b) else None)
    decreases |a|
  {
    if a == [] {
      assert a + b == b;
    } else {
      assert (a + b)[1..] == a[1..] + b;
      BracketsConcat(if a[0].ev.TurnStart? then a[0].turn else if a[0].ev.TurnEnd? then None else open, a[1..], b);
    }
  }

  // Every well-formed trace has well-bracketed turns.
  lemma {:induction false} ReadsImpliesBrackets(m: Monitor, es: seq<Envelope>)
    requires Reads(m, es).Some?
    ensures Brackets(m.open, es) == Some(Reads(m, es).value.open)
    decreases |es|
  {
    if es != [] {
      ReadsImpliesBrackets(Advance(m, es[0]), es[1..]);
    }
  }

  lemma ReadsOne(m: Monitor, e: Envelope)
    ensures Reads(m, [e]) == (if Accepts(m, e) then Some(Advance(m, e)) else None)
  {
  }

  // How often subagent x's bracket opens and closes in a trace.
  function SubStarts(x: Id, es: seq<Envelope>): nat {
    if es == [] then 0
    else (if es[0].ev.SubStart? && es[0].sub == Some(x) then 1 else 0) + SubStarts(x, es[1..])
  }

  function SubStops(x: Id, es: seq<Envelope>): nat {
    if es == [] then 0
    else (if es[0].ev.SubStop? && es[0].sub == Some(x) then 1 else 0) + SubStops(x, es[1..])
  }

  // In a well-formed trace every subagent start is matched by exactly one stop, except for the
  // subagents still running in the open turn.
  lemma {:induction false} SubagentsPair(x: Id, m: Monitor, es: seq<Envelope>)
    requires m.active <= m.started && (m.open.None? ==> m.active == {}) && Reads(m, es).Some?
    ensures Reads(m, es).value.active <= Reads(m, es).value.started
    ensures (if x in m.active then 1 else 0) + SubStarts(x, es)
         == SubStops(x, es) + (if x in Reads(m, es).value.active then 1 else 0)
    decreases |es|
  {
    if es != [] {
      SubagentsPair(x, Advance(m, es[0]), es[1..]);
    }
  }
}
