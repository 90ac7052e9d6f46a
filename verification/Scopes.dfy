// What both transcript mappers keep about the envelopes they write: the open turn, the subagents
// that started in it, those still running, and the envelopes handed out so far.
module Scopes {
  import opened Wrappers
  import opened Wire

  datatype Writer = Writer(turn: Option<Id>, started: set<Id>, active: seq<Id>, log: seq<Envelope>)

  const BLANK := Writer(None, {}, [], [])

  function Put(w: Writer, e: Envelope): Writer {
    w.(log := w.log + [e])
  }

  function OpenTurn(w: Writer, id: Id): Writer {
    Put(w.(turn := Some(id)), AgentIn(TurnStart, id, None))
  }

  function StartSub(w: Writer, turn: Id, sub: Option<Id>): Writer {
    if sub.None? || sub.value in w.started then w
    else Put(w.(started := w.started + {sub.value}, active := w.active + [sub.value]), AgentIn(SubStart, turn, sub))
  }

  predicate Distinct(xs: seq<Id>) {
    xs == [] || (xs[0] !in xs[1..] && Distinct(xs[1..]))
  }

  function Without(xs: seq<Id>, x: Id): (r: seq<Id>)
    ensures forall y :: y in r <==> y in xs && y != x
    ensures Distinct(xs) ==> Distinct(r)
  {
    if xs == [] then [] else if xs[0] == x then Without(xs[1..], x) else [xs[0]] + Without(xs[1..], x)
  }

  function StopSub(w: Writer, turn: Id, sub: Option<Id>): Writer {
    if sub.None? || sub.value !in w.active then w
    else Put(w.(active := Without(w.active, sub.value)), AgentIn(SubStop, turn, sub))
  }

  function StopAll(w: Writer, turn: Id): (r: Writer)
    ensures r.turn == w.turn && r.started == w.started && r.active == []
    decreases |w.active|
  {
    if w.active == [] then w
    else StopAll(Put(w.(active := w.active[1..]), AgentIn(SubStop, turn, Some(w.active[0]))), turn)
  }

  // Every running subagent stops, the turn ends, and the scopes are forgotten.
  function EndTurn(w: Writer, status: Status): Writer
    requires w.turn.Some?
  {
    Writer(None, {}, [], Put(StopAll(w, w.turn.value), AgentIn(TurnEnd(status), w.turn.value, None)).log)
  }

  // --- turn brackets, whatever the scopes do ---

  ghost predicate Bracketed(w: Writer) {
    Brackets(None, w.log) == Some(w.turn)
  }

  lemma PutBracketed(w: Writer, e: Envelope)
    requires Bracketed(w) && !e.ev.TurnStart? && !e.ev.TurnEnd?
    ensures Bracketed(Put(w, e))
  {
    BracketsConcat(None, w.log, [e]);
    assert [e][1..] == [];
  }

  lemma OpenTurnBracketed(w: Writer, id: Id)
    requires Bracketed(w) && w.turn.None?
    ensures Bracketed(OpenTurn(w, id))
  {
    var e := AgentIn(TurnStart, id, None);
    BracketsConcat(None, w.log, [e]);
    assert [e][1..] == [];
  }

  lemma StartSubBracketed(w: Writer, turn: Id, sub: Option<Id>)
    requires Bracketed(w)
    ensures Bracketed(StartSub(w, turn, sub))
  {
    if sub.Some? && sub.value !in w.started {
      PutBracketed(w.(started := w.started + {sub.value}, active := w.active + [sub.value]),
          AgentIn(SubStart, turn, sub));
    }
  }

  lemma StopSubBracketed(w: Writer, turn: Id, sub: Option<Id>)
    requires Bracketed(w)
    ensures Bracketed(StopSub(w, turn, sub))
  {
    if sub.Some? && sub.value in w.active {
      PutBracketed(w.(active := Without(w.active, sub.value)), AgentIn(SubStop, turn, sub));
    }
  }

  lemma {:induction false} StopAllBracketed(w: Writer, turn: Id)
    requires Bracketed(w)
    ensures Bracketed(StopAll(w, turn))
    decreases |w.active|
  {
    if w.active != [] {
      var w1 := w.(active := w.active[1..]);
      var e := AgentIn(SubStop, turn, Some(w.active[0]));
      PutBracketed(w1, e);
      StopAllBracketed(Put(w1, e), turn);
    }
  }

  lemma EndTurnBracketed(w: Writer, status: Status)
    requires Bracketed(w) && w.turn.Some?
    ensures Bracketed(EndTurn(w, status))
  {
    StopAllBracketed(w, w.turn.value);
    var e := AgentIn(TurnEnd(status), w.turn.value, None);
    BracketsConcat(None, StopAll(w, w.turn.value).log, [e]);
    assert [e][1..] == [];
  }

  // --- well-formed traces ---

  ghost function MonitorOf(w: Writer): Monitor {
    Monitor(w.turn, w.started, set x | x in w.active)
  }

  // The log is well formed and the writer's brackets are exactly the monitor's.
  ghost predicate Traced(w: Writer) {
    Reads(IDLE, w.log) == Some(MonitorOf(w)) &&
    Distinct(w.active) && (forall x :: x in w.active ==> x in w.started) &&
    (w.turn.None? ==> w.started == {} && w.active == [])
  }

  // Inside the branch of a message: the turn is open, and so is the scope it writes in.
  ghost predicate InScope(w: Writer, turn: Id, sub: Option<Id>) {
    Traced(w) && w.turn == Some(turn) && (sub.Some? ==> sub.value in w.started)
  }

  lemma BlankTraced()
    ensures Traced(BLANK) && Bracketed(BLANK)
  {
    assert MonitorOf(BLANK) == IDLE;
  }

  lemma PutTraced(w: Writer, e: Envelope)
    requires Traced(w) && Accepts(MonitorOf(w), e) && Advance(MonitorOf(w), e) == MonitorOf(w)
    ensures Traced(Put(w, e))
  {
    ReadsConcat(IDLE, w.log, [e]);
    ReadsOne(MonitorOf(w), e);
  }

  // Any event that is not a bracket may be written in an open scope.
  lemma PutInScope(w: Writer, ev: Event, turn: Id, sub: Option<Id>)
    requires InScope(w, turn, sub) && !ev.TurnStart? && !ev.TurnEnd? && !ev.SubStart? && !ev.SubStop?
    ensures InScope(Put(w, AgentIn(ev, turn, sub)), turn, sub)
  {
    PutTraced(w, AgentIn(ev, turn, sub));
  }

  lemma OpenTurnTraced(w: Writer, id: Id)
    requires Traced(w) && w.turn.None?
    ensures Traced(OpenTurn(w, id))
  {
    var e := AgentIn(TurnStart, id, None);
    ReadsConcat(IDLE, w.log, [e]);
    ReadsOne(MonitorOf(w), e);
    assert MonitorOf(OpenTurn(w, id)) == Advance(MonitorOf(w), e);
  }

  lemma StartSubTraced(w: Writer, turn: Id, sub: Option<Id>)
    requires Traced(w) && w.turn == Some(turn)
    ensures InScope(StartSub(w, turn, sub), turn, sub)
    ensures w.started <= StartSub(w, turn, sub).started
  {
    if sub.Some? && sub.value !in w.started {
      var e := AgentIn(SubStart, turn, sub);
      ReadsConcat(IDLE, w.log, [e]);
      ReadsOne(MonitorOf(w), e);
      DistinctAppend(w.active, sub.value);
      assert MonitorOf(StartSub(w, turn, sub)) == Advance(MonitorOf(w), e);
    }
  }

  lemma {:induction false} DistinctAppend(xs: seq<Id>, x: Id)
    requires Distinct(xs) && x !in xs
    ensures Distinct(xs + [x])
  {
    if xs != [] {
      DistinctAppend(xs[1..], x);
      assert (xs + [x])[1..] == xs[1..] + [x];
    }
  }

  lemma StopSubTraced(w: Writer, turn: Id, sub: Option<Id>)
    requires Traced(w) && w.turn == Some(turn)
    ensures Traced(StopSub(w, turn, sub))
  {
    if sub.Some? && sub.value in w.active {
      var e := AgentIn(SubStop, turn, sub);
      ReadsConcat(IDLE, w.log, [e]);
      ReadsOne(MonitorOf(w), e);
      assert MonitorOf(StopSub(w, turn, sub)) == Advance(MonitorOf(w), e);
    }
  }

  lemma {:induction false} StopAllTraced(w: Writer, turn: Id)
    requires Traced(w) && w.turn == Some(turn)
    ensures Traced(StopAll(w, turn))
    decreases |w.active|
  {
    if w.active != [] {
      var e := AgentIn(SubStop, turn, Some(w.active[0]));
      var w1 := Put(w.(active := w.active[1..]), e);
      ReadsConcat(IDLE, w.log, [e]);
      ReadsOne(MonitorOf(w), e);
      assert MonitorOf(w1) == Advance(MonitorOf(w), e);
      StopAllTraced(w1, turn);
    }
  }

  lemma EndTurnTraced(w: Writer, status: Status)
    requires Traced(w) && w.turn.Some?
    ensures Traced(EndTurn(w, status))
  {
    StopAllTraced(w, w.turn.value);
    var t := StopAll(w, w.turn.value);
    var e := AgentIn(TurnEnd(status), w.turn.value, None);
    ReadsConcat(IDLE, t.log, [e]);
    ReadsOne(MonitorOf(t), e);
    assert MonitorOf(EndTurn(w, status)) == IDLE;
  }

  // In a well-formed log every subagent that started in a closed turn was stopped exactly once.
  lemma TracedPairs(w: Writer, x: Id)
    requires Traced(w)
    ensures SubStarts(x, w.log) == SubStops(x, w.log) + (if x in w.active then 1 else 0)
  {
    SubagentsPair(x, IDLE, w.log);
  }
}
