// The driver around the ACP mapper (packages/cli/src/acp/acpRemote.ts): prompts queue up, one drain
// sends them in order, and adapter errors or a stop may close a turn under a prompt still in flight.
// Code between awaits is one event.
module AcpDriver {
  import opened Wrappers
  import opened Wire
  import opened Scopes
  import opened AcpMapper
  import opened AcpTraces
  import opened AcpStream
  import opened AcpChunks

  datatype QueuedTurn = QueuedTurn(text: string, id: Option<string>)
  datatype Phase = Resting | AwaitingReady | Prompting | Leaving
  datatype Startup = Pending | Up | Down

  // `draining` in the program is `phase != Resting`: the flag is cleared one event after the drain
  // has left its loop (Leaving). `sent` and `prompted` are histories.
  datatype Driver = Driver(m: State, queue: seq<QueuedTurn>, phase: Phase, startup: Startup,
                           stopped: bool, finished: bool, fatal: bool,
                           sent: seq<QueuedTurn>, prompted: seq<QueuedTurn>)

  const LAUNCHED := Driver(INITIAL, [], Resting, Pending, false, false, false, [], [])

  datatype Happening =
    | Send(turn: QueuedTurn)
    | StartupSettles(ok: bool)
    | DrainWakes
    | PromptResolves(stopReason: string)
    | PromptRejects
    | AdapterUpdate(u: Update)
    | AdapterFails
    | DrainClears
    | StopCalled
    | StopCompletes

  predicate Enabled(d: Driver, h: Happening) {
    match h
    case StartupSettles(_) => d.startup.Pending?
    case DrainWakes => d.phase.AwaitingReady? && !d.startup.Pending?
    case PromptResolves(_) => d.phase.Prompting?
    case PromptRejects => d.phase.Prompting?
    case DrainClears => d.phase.Leaving?
    case StopCompletes => d.stopped && !d.finished && d.phase.Resting?
    case _ => true
  }

  function Note(m: State, e: Envelope): State {
    m.(w := Put(m.w, e))
  }

  const LOST_AGENT := Envelope(Agent, Service("Remote session lost its agent process"), None, None)
  const NEVER_STARTED := Envelope(Agent, Service("Remote session failed to start"), None, None)

  function UserText(turn: QueuedTurn): Envelope {
    Envelope(User, Text(turn.text, false), None, None)
  }

  function Live(d: Driver): bool {
    !d.stopped && !d.fatal
  }

  // The head of the drain's loop, up to its next await.
  function NextTurn(d: Driver): Driver {
    if d.queue != [] && Live(d) then
      d.(m := StartTurn(d.m), queue := d.queue[1..], phase := Prompting, prompted := d.prompted + [d.queue[0]])
    else d.(phase := Leaving)
  }

  function Close(d: Driver, status: Status): Driver {
    d.(m := CloseTurn(d.m, status))
  }

  function React(d: Driver, h: Happening): Driver
    requires Enabled(d, h)
  {
    match h
    case Send(turn) =>
      if d.stopped then d
      else d.(m := Note(d.m, UserText(turn)), queue := d.queue + [turn], sent := d.sent + [turn],
              phase := if d.phase.Resting? then AwaitingReady else d.phase)
    case StartupSettles(ok) =>
      if ok then d.(startup := Up)
      else if d.fatal then d.(startup := Down)
      else d.(startup := Down, fatal := true, m := Note(d.m, NEVER_STARTED))
    case DrainWakes => if d.startup.Down? then d.(queue := [], phase := Leaving) else NextTurn(d)
    case PromptResolves(stopReason) => NextTurn(Close(d, TurnStatus(stopReason)))
    case PromptRejects => NextTurn(Close(d, if d.stopped then Cancelled else Failed))
    case AdapterUpdate(u) => d.(m := MapUpdate(u, d.m))
    case AdapterFails => if d.stopped then d else d.(m := Note(CloseTurn(d.m, Failed), LOST_AGENT), fatal := true)
    case DrainClears => d.(phase := Resting)
    case StopCalled => if d.stopped then d else d.(stopped := true, queue := [])
    case StopCompletes => Close(d, Cancelled).(finished := true)
  }

  predicate Happens(d: Driver, hs: seq<Happening>)
    decreases |hs|
  {
    hs == [] || (Enabled(d, hs[0]) && Happens(React(d, hs[0]), hs[1..]))
  }

  function Drive(d: Driver, hs: seq<Happening>): Driver
    requires Happens(d, hs)
    decreases |hs|
  {
    if hs == [] then d else Drive(React(d, hs[0]), hs[1..])
  }

  // --- what holds on every run ---

  function StartsOf(e: Envelope): seq<Item> {
    if e.ev.TurnStart? then [Whole(e)] else []
  }

  // A turn is open only under a prompt in flight; prompts go out in the order they were sent, one
  // turn each.
  ghost predicate Orderly(d: Driver) {
    Tidy(d.m) && (d.m.w.turn.Some? ==> d.phase.Prompting?) &&
    (d.phase.Prompting? ==> d.prompted != []) && (d.finished ==> d.stopped && d.phase.Resting?) &&
    (d.stopped ==> d.queue == []) && (d.startup.Down? ==> d.fatal) &&
    d.prompted <= d.sent && (Live(d) ==> d.sent == d.prompted + d.queue) &&
    |Owned(d.m, StartsOf)| == |d.prompted|
  }

  lemma StartsReader()
    ensures Reader(StartsOf)
  {
  }

  lemma NoteOrderly(d: Driver, e: Envelope)
    requires Orderly(d) && e.turn.None? && e.sub.None? && (e.ev.Text? || e.ev.Service?)
    ensures Orderly(d.(m := Note(d.m, e)))
  {
    PutTraced(d.m.w, e);
    ViewPut(d.m.w, e, StartsOf);
  }

  lemma CloseOrderly(d: Driver, status: Status)
    requires Orderly(d)
    ensures Orderly(Close(d, status)) && Close(d, status).m.w.turn.None?
  {
    CloseTurnTidy(d.m, status);
    StartsReader();
    CloseTurnOwned(d.m, status, StartsOf);
  }

  lemma NextTurnOrderly(d: Driver)
    requires Orderly(d) && d.m.w.turn.None? && !d.finished
    ensures Orderly(NextTurn(d))
  {
    if d.queue != [] && Live(d) {
      StartTurnTidy(d.m);
      ViewPut(d.m.w.(turn := Some(d.m.nextId)), AgentIn(TurnStart, d.m.nextId, None), StartsOf);
      assert d.prompted + d.queue == (d.prompted + [d.queue[0]]) + d.queue[1..];
    }
  }

  lemma UpdateOrderly(d: Driver, u: Update)
    requires Orderly(d)
    ensures Orderly(d.(m := MapUpdate(u, d.m)))
  {
    MapUpdateTidy(u, d.m);
    MapUpdateKeepsTurn(u, d.m);
    StartsReader();
    MapUpdateOwned(u, d.m, StartsOf);
  }

  lemma SendOrderly(d: Driver, turn: QueuedTurn)
    requires Orderly(d)
    ensures Orderly(React(d, Send(turn)))
  {
    if !d.stopped {
      NoteOrderly(d, UserText(turn));
      assert d.prompted + (d.queue + [turn]) == (d.prompted + d.queue) + [turn];
    }
  }

  lemma ReactOrderly(d: Driver, h: Happening)
    requires Orderly(d) && Enabled(d, h)
    ensures Orderly(React(d, h))
  {
    match h {
      case Send(turn) => SendOrderly(d, turn);
      case StartupSettles(ok) => if !ok && !d.fatal { NoteOrderly(d, NEVER_STARTED); }
      case DrainWakes => if !d.startup.Down? { NextTurnOrderly(d); }
      case PromptResolves(r) => CloseOrderly(d, TurnStatus(r)); NextTurnOrderly(Close(d, TurnStatus(r)));
      case PromptRejects =>
        var status := if d.stopped then Cancelled else Failed;
        CloseOrderly(d, status);
        NextTurnOrderly(Close(d, status));
      case AdapterUpdate(u) => UpdateOrderly(d, u);
      case AdapterFails => if !d.stopped { CloseOrderly(d, Failed); NoteOrderly(Close(d, Failed), LOST_AGENT); }
      case DrainClears =>
      case StopCalled =>
      case StopCompletes => CloseOrderly(d, Cancelled);
    }
  }

  lemma {:induction false} DriveOrderly(d: Driver, hs: seq<Happening>)
    requires Orderly(d) && Happens(d, hs)
    ensures Orderly(Drive(d, hs))
    decreases |hs|
  {
    if hs != [] {
      ReactOrderly(d, hs[0]);
      DriveOrderly(React(d, hs[0]), hs[1..]);
    }
  }

  lemma LaunchedOrderly()
    ensures Orderly(LAUNCHED)
  {
    InitialTidy();
  }

  // Main result: on every run of the driver the trace is well formed, its turns open and close strictly
  // alternately under equal ids, a prompt opens exactly one turn, prompts go out in the order they were
  // sent, and a turn is open only under a prompt.
  lemma DriverTraceIsWellFormed(hs: seq<Happening>)
    requires Happens(LAUNCHED, hs)
    ensures var d := Drive(LAUNCHED, hs);
            Reads(IDLE, d.m.w.log) == Some(MonitorOf(d.m.w)) && Brackets(None, d.m.w.log) == Some(d.m.w.turn) &&
            |View(d.m.w.log, StartsOf)| == |d.prompted| &&
            d.prompted <= d.sent && (Live(d) ==> d.sent == d.prompted + d.queue) &&
            (d.m.w.turn.Some? ==> d.phase.Prompting?)
  {
    LaunchedOrderly();
    DriveOrderly(LAUNCHED, hs);
    ReadsImpliesBrackets(IDLE, Drive(LAUNCHED, hs).m.w.log);
  }

  // Main result: once a stop has completed nothing is left open, and every subagent that started was
  // stopped exactly once.
  lemma StopLeavesNothingOpen(hs: seq<Happening>, x: Id)
    requires Happens(LAUNCHED, hs) && Drive(LAUNCHED, hs).finished
    ensures var d := Drive(LAUNCHED, hs);
            Reads(IDLE, d.m.w.log) == Some(IDLE) && d.m.text.None? && d.m.starts == [] &&
            SubStarts(x, d.m.w.log) == SubStops(x, d.m.w.log)
  {
    LaunchedOrderly();
    DriveOrderly(LAUNCHED, hs);
    var d := Drive(LAUNCHED, hs);
    assert MonitorOf(d.m.w) == IDLE;
    TracedPairs(d.m.w, x);
  }

  // --- how turns end ---

  function EndsOf(e: Envelope): seq<Item> {
    if e.ev.TurnEnd? then [Whole(e)] else []
  }

  // The status the next happening ends an open turn with, if it does.
  function EndStatus(stopCalled: bool, h: Happening): Option<Status> {
    match h
    case PromptResolves(r) =>
      Some(if r == "end_turn" then Completed else if r == "cancelled" then Cancelled else Failed)
    case PromptRejects => Some(if stopCalled then Cancelled else Failed)
    case AdapterFails => if stopCalled then None else Some(Failed)
    case _ => None
  }

  lemma {:induction false} StoppedMeans(d: Driver, hs: seq<Happening>)
    requires Happens(d, hs)
    ensures Drive(d, hs).stopped <==> d.stopped || StopCalled in hs
    decreases |hs|
  {
    if hs != [] {
      StoppedMeans(React(d, hs[0]), hs[1..]);
      assert StopCalled in hs <==> hs[0] == StopCalled || StopCalled in hs[1..];
    }
  }

  lemma EndsReader()
    ensures Reader(EndsOf)
  {
  }

  lemma NoteEnds(m: State, e: Envelope)
    requires !e.ev.TurnEnd?
    ensures View(Note(m, e).w.log, EndsOf) == View(m.w.log, EndsOf)
  {
    ViewPut(m.w, e, EndsOf);
  }

  lemma NextTurnEnds(d: Driver)
    ensures View(NextTurn(d).m.w.log, EndsOf) == View(d.m.w.log, EndsOf)
  {
    ViewPut(d.m.w.(turn := Some(d.m.nextId)), AgentIn(TurnStart, d.m.nextId, None), EndsOf);
  }

  function Ended(m: State, status: Option<Status>): seq<Item> {
    if m.w.turn.Some? && status.Some?
    then [Whole(AgentIn(TurnEnd(status.value), m.w.turn.value, None))]
    else []
  }

  lemma TextIsNoEnd(m: State)
    ensures Owned(m, EndsOf) == View(m.w.log, EndsOf)
  {
  }

  lemma CloseEnds(m: State, status: Status)
    ensures View(CloseTurn(m, status).w.log, EndsOf) == View(m.w.log, EndsOf) + Ended(m, Some(status))
  {
    EndsReader();
    CloseTurnOwned(m, status, EndsOf);
    TextIsNoEnd(m);
    TextIsNoEnd(CloseTurn(m, status));
  }

  lemma PromptEnds(d: Driver, status: Status)
    ensures View(NextTurn(Close(d, status)).m.w.log, EndsOf) == View(d.m.w.log, EndsOf) + Ended(d.m, Some(status))
  {
    CloseEnds(d.m, status);
    NextTurnEnds(Close(d, status));
  }

  lemma UpdateEnds(m: State, u: Update)
    ensures View(MapUpdate(u, m).w.log, EndsOf) == View(m.w.log, EndsOf)
  {
    EndsReader();
    MapUpdateOwned(u, m, EndsOf);
    TextIsNoEnd(m);
    TextIsNoEnd(MapUpdate(u, m));
  }

  lemma ReactEnds(d: Driver, h: Happening)
    requires Enabled(d, h) && (h.StopCompletes? || h.DrainWakes? ==> d.m.w.turn.None?)
    ensures View(React(d, h).m.w.log, EndsOf) == View(d.m.w.log, EndsOf) + Ended(d.m, EndStatus(d.stopped, h))
  {
    match h {
      case Send(turn) => NoteEnds(d.m, UserText(turn));
      case StartupSettles(_) => NoteEnds(d.m, NEVER_STARTED);
      case DrainWakes => NextTurnEnds(d);
      case PromptResolves(r) => PromptEnds(d, TurnStatus(r));
      case PromptRejects => PromptEnds(d, if d.stopped then Cancelled else Failed);
      case AdapterUpdate(u) => UpdateEnds(d.m, u);
      case AdapterFails =>
        CloseEnds(d.m, Failed);
        NoteEnds(CloseTurn(d.m, Failed), LOST_AGENT);
      case _ =>
    }
  }

  // Main result: at any point of any run the next happening ends the open turn, or does not, with the status
  // the way its prompt ended calls for.
  lemma TurnEndsTell(hs: seq<Happening>, h: Happening)
    requires Happens(LAUNCHED, hs) && Enabled(Drive(LAUNCHED, hs), h)
    ensures var d := Drive(LAUNCHED, hs);
            View(React(d, h).m.w.log, EndsOf) == View(d.m.w.log, EndsOf) + Ended(d.m, EndStatus(StopCalled in hs, h))
  {
    LaunchedOrderly();
    DriveOrderly(LAUNCHED, hs);
    StoppedMeans(LAUNCHED, hs);
    ReactEnds(Drive(LAUNCHED, hs), h);
  }

  // --- wakeups ---

  // Prompts are waiting in a live session, and no drain will look at them.
  predicate Stranded(d: Driver) {
    d.queue != [] && Live(d) && d.phase.Resting?
  }

  predicate LateSend(d: Driver, h: Happening) {
    h.Send? && d.phase.Leaving? && Live(d)
  }

  predicate NoLateSend(d: Driver, hs: seq<Happening>)
    requires Happens(d, hs)
    decreases |hs|
  {
    hs == [] || (!LateSend(d, hs[0]) && NoLateSend(React(d, hs[0]), hs[1..]))
  }

  // A live drain leaves its loop only when the queue is empty.
  predicate Awake(d: Driver) {
    (d.phase.Resting? || d.phase.Leaving?) && Live(d) ==> d.queue == []
  }

  // One event loses the wakeup exactly when it is a send between the drain leaving its loop and the
  // flag being cleared.
  lemma ReactAwake(d: Driver, h: Happening)
    requires Orderly(d) && Awake(d) && Enabled(d, h)
    ensures Awake(React(d, h)) <==> !LateSend(d, h)
  {
    if LateSend(d, h) {
      assert React(d, h).queue == d.queue + [h.turn];
    }
  }

  lemma {:induction false} DriveAwake(d: Driver, hs: seq<Happening>)
    requires Orderly(d) && Awake(d) && Happens(d, hs) && NoLateSend(d, hs)
    ensures Awake(Drive(d, hs))
    decreases |hs|
  {
    if hs != [] {
      ReactOrderly(d, hs[0]);
      ReactAwake(d, hs[0]);
      DriveAwake(React(d, hs[0]), hs[1..]);
    }
  }

  // Main result: prompts are never stranded unless one is sent in that gap...
  lemma NeverStrandedWithoutLateSend(hs: seq<Happening>)
    requires Happens(LAUNCHED, hs) && NoLateSend(LAUNCHED, hs)
    ensures !Stranded(Drive(LAUNCHED, hs))
  {
    LaunchedOrderly();
    DriveAwake(LAUNCHED, hs);
  }

  // That gap is reached, here by the answer to a session's first prompt...
  lemma GapIsReached(turn: QueuedTurn, stopReason: string)
    ensures var hs := [Send(turn), StartupSettles(true), DrainWakes, PromptResolves(stopReason)];
            Happens(LAUNCHED, hs) && Drive(LAUNCHED, hs).phase.Leaving? && Live(Drive(LAUNCHED, hs))
  {
    var d1 := React(LAUNCHED, Send(turn));
    var d2 := React(d1, StartupSettles(true));
    assert d2.queue == [turn];
    var d3 := React(d2, DrainWakes);
    assert d3.phase.Prompting? && d3.queue == [];
    var hs := [Send(turn), StartupSettles(true), DrainWakes, PromptResolves(stopReason)];
    assert hs[1..] == [StartupSettles(true), DrainWakes, PromptResolves(stopReason)];
    assert hs[1..][1..] == [DrainWakes, PromptResolves(stopReason)];
    assert hs[1..][1..][1..] == [PromptResolves(stopReason)] && hs[1..][1..][1..][1..] == [];
    var d4 := React(d3, PromptResolves(stopReason));
    assert Happens(d3, [PromptResolves(stopReason)]) && Drive(d3, [PromptResolves(stopReason)]) == Drive(d4, []) == d4;
    assert Happens(d2, hs[1..][1..]) && Drive(d2, hs[1..][1..]) == d4;
  }

  // ... and a live session where that happens is stranded as soon as the flag is cleared.
  lemma LateSendStrands(d: Driver, turn: QueuedTurn)
    requires d.phase.Leaving? && Live(d)
    ensures Stranded(Drive(d, [Send(turn), DrainClears]))
  {
    var sent := React(d, Send(turn));
    assert [Send(turn), DrainClears][1..] == [DrainClears] && [DrainClears][1..] == [];
    assert Drive(d, [Send(turn), DrainClears]) == Drive(sent, [DrainClears]) == React(sent, DrainClears);
  }
}
