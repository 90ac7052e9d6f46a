// The ACP permission handler (packages/cli/src/acp/acpPermissionHandler.ts): a request is answered from
// the web, aborted by the agent or reset, whichever comes first.
module AcpPermissions {
  import opened Requests
  import opened Wrappers
  import opened PermissionBridge

  datatype OptionKind = AllowOnce | AllowAlways | RejectOnce | RejectAlways
  datatype Choice = Choice(optionId: string, kind: OptionKind)
  datatype Response = Selected(optionId: string) | Cancelled

  type Waiting = Ticket<seq<Choice>>

  datatype Sent =
    | Asked(id: ReqId)
    | Told(id: ReqId, decision: Decision)
    | Answered(id: ReqId, response: Response)
    | Switched(mode: Mode)

  // `listeners` are the armed abort listeners; `out` is what went to the wire and to the agent.
  datatype Handler = Handler(
    pending: seq<Waiting>, requests: map<ReqId, string>, completed: map<ReqId, PermissionBridge.Completed>,
    listeners: set<ReqId>, nextId: ReqId, out: seq<Sent>)

  const IDLE := Handler([], map[], map[], {}, 0, [])

  // --- choosing an option ---

  function FirstOf(options: seq<Choice>, kind: OptionKind): Option<Choice> {
    if options == [] then None else if options[0].kind == kind then Some(options[0]) else FirstOf(options[1..], kind)
  }

  function FindOption(options: seq<Choice>, preferred: OptionKind, other: OptionKind): Option<Choice> {
    if FirstOf(options, preferred).Some? then FirstOf(options, preferred) else FirstOf(options, other)
  }

  function Chosen(options: seq<Choice>, decision: Decision): Option<Choice> {
    match decision
    case Allow(scope, _) =>
      if scope == "session" then FindOption(options, AllowAlways, AllowOnce)
      else FindOption(options, AllowOnce, AllowAlways)
    case Deny(_) => FindOption(options, RejectOnce, RejectAlways)
    case Switch(_) => FindOption(options, AllowOnce, AllowAlways)
  }

  function MapDecision(options: seq<Choice>, decision: Decision): Response {
    var o := Chosen(options, decision);
    if o.None? then Cancelled else Selected(o.value.optionId)
  }

  function ById(options: seq<Choice>, optionId: string): Option<Choice> {
    if options == [] then None
    else if options[0].optionId == optionId then Some(options[0])
    else ById(options[1..], optionId)
  }

  // Looked up again by its id: the first option offered under it decides.
  function IsReject(options: seq<Choice>, response: Response): bool {
    response.Selected? &&
    var o := ById(options, response.optionId);
    o.Some? && (o.value.kind.RejectOnce? || o.value.kind.RejectAlways?)
  }

  // --- requests ---

  function Turnaway(h: Handler): Handler {
    h.(nextId := h.nextId + 1, out := h.out + [Answered(h.nextId, Cancelled)])
  }

  // A request whose signal is already aborted is answered at once and never shown.
  function Request(h: Handler, tool: string, options: seq<Choice>, aborted: bool): Handler {
    if aborted then Turnaway(h)
    else h.(pending := h.pending + [Ticket(h.nextId, options)], requests := h.requests[h.nextId := tool],
            listeners := h.listeners + {h.nextId}, nextId := h.nextId + 1, out := h.out + [Asked(h.nextId)])
  }

  function FinishWith(h: Handler, id: ReqId, decision: Decision, status: Status): Handler {
    (if id in h.requests
     then h.(requests := h.requests - {id},
             completed := h.completed[id := PermissionBridge.Completed(h.requests[id], status, decision)])
     else h).(out := h.out + [Told(id, decision)])
  }

  // Off the pending map, onto the wire, and back to the agent, whose abort listener goes.
  function SettleWith(h: Handler, id: ReqId, decision: Decision, status: Status, response: Response): Handler {
    var h1 := FinishWith(h.(pending := Remove(h.pending, id)), id, decision, status);
    h1.(listeners := h1.listeners - {id}, out := h1.out + [Answered(id, response)])
  }

  function Answer(h: Handler, id: ReqId, decision: Decision): (Handler, Result) {
    var w := Find(h.pending, id);
    if w.None? then (h, AlreadyAnswered(if id in h.completed then Some(h.completed[id].decision) else None))
    else
      var response := MapDecision(w.value.what, decision);
      var denied := response.Cancelled? || IsReject(w.value.what, response);
      var h1 := if decision.Switch? then h.(out := h.out + [Switched(decision.mode)]) else h;
      (SettleWith(h1, id, decision, if denied then Denied else Approved, response), Ok)
  }

  function Abort(h: Handler, id: ReqId): Handler {
    if Find(h.pending, id).None? then h
    else SettleWith(h, id, Deny(Some("Permission request cancelled")), Canceled, Response.Cancelled)
  }

  function ResetAll(h: Handler, reason: string): Handler
    decreases |h.pending|
  {
    if h.pending == [] then h
    else ResetAll(SettleWith(h, h.pending[0].id, Deny(Some(reason)), Canceled, Response.Cancelled), reason)
  }

  // --- what the agent is told ---

  predicate Allows(kind: OptionKind) {
    kind.AllowOnce? || kind.AllowAlways?
  }

  lemma {:induction false} FirstOfIs(options: seq<Choice>, kind: OptionKind)
    ensures var o := FirstOf(options, kind); o.Some? ==> o.value in options && o.value.kind == kind
    ensures FirstOf(options, kind).None? <==> forall o :: o in options ==> o.kind != kind
  {
    if options != [] {
      FirstOfIs(options[1..], kind);
      assert options == [options[0]] + options[1..];
    }
  }

  // Main result: the agent is only ever sent an option it offered; an allow or a mode switch is answered
  // by an allowing one and a deny by a rejecting one, and by a cancellation exactly when the agent
  // offered none of that sort.
  lemma AnswerMeansDecision(options: seq<Choice>, decision: Decision)
    ensures var o := Chosen(options, decision);
            (o.Some? ==> o.value in options && (Allows(o.value.kind) <==> !decision.Deny?) &&
                         MapDecision(options, decision) == Selected(o.value.optionId)) &&
            (MapDecision(options, decision).Cancelled? <==>
              forall c :: c in options ==> (Allows(c.kind) <==> decision.Deny?))
  {
    FirstOfIs(options, AllowOnce);
    FirstOfIs(options, AllowAlways);
    FirstOfIs(options, RejectOnce);
    FirstOfIs(options, RejectAlways);
  }

  predicate FirstUnder(options: seq<Choice>, i: nat, optionId: string) {
    i < |options| && options[i].optionId == optionId && forall j :: 0 <= j < i ==> options[j].optionId != optionId
  }

  lemma {:induction false} ByIdFirst(options: seq<Choice>, optionId: string, i: nat)
    requires FirstUnder(options, i, optionId)
    ensures ById(options, optionId) == Some(options[i])
  {
    if i > 0 {
      assert options[0].optionId != optionId;
      assert forall j :: 0 <= j < i - 1 ==> options[1..][j].optionId == options[j + 1].optionId;
      ByIdFirst(options[1..], optionId, i - 1);
    }
  }

  lemma {:induction false} SomeFirst(options: seq<Choice>, o: Choice) returns (i: nat)
    requires o in options
    ensures FirstUnder(options, i, o.optionId)
  {
    if options[0].optionId == o.optionId {
      i := 0;
    } else {
      assert options == [options[0]] + options[1..];
      var k := SomeFirst(options[1..], o);
      i := k + 1;
      forall j | 0 <= j < i ensures options[j].optionId != o.optionId {
        assert j > 0 ==> options[j] == options[1..][j - 1];
      }
    }
  }

  // The agent offered another option of the opposite sort under the same id before this one.
  ghost predicate Shadowed(options: seq<Choice>, o: Choice) {
    exists i: nat :: FirstUnder(options, i, o.optionId) && Allows(options[i].kind) != Allows(o.kind)
  }

  // Main result: the recorded status is approved exactly when the agent was sent an allowing option, if
  // and only if no option of the opposite sort was offered first under the id that was sent.
  lemma StatusMatchesAnswer(options: seq<Choice>, decision: Decision)
    ensures var response := MapDecision(options, decision);
            var o := Chosen(options, decision);
            ((response.Cancelled? || IsReject(options, response)) <==> !(o.Some? && Allows(o.value.kind)))
              <==> !(o.Some? && Shadowed(options, o.value))
  {
    AnswerMeansDecision(options, decision);
    var o := Chosen(options, decision);
    if o.Some? {
      var i := SomeFirst(options, o.value);
      ByIdFirst(options, o.value.optionId, i);
    }
  }

  // One id for two options: the agent is allowed to go on, and the request is recorded as denied.
  lemma SharedIdMisrecords()
    ensures var options := [Choice("x", RejectOnce), Choice("x", AllowOnce)];
            Chosen(options, Allow("once", NoUpdate)) == Some(options[1]) && Shadowed(options, options[1]) &&
            IsReject(options, MapDecision(options, Allow("once", NoUpdate)))
  {
  }

  // --- every run ---

  datatype Happening =
    | Asks(tool: string, options: seq<Choice>, aborted: bool)
    | WebSays(id: ReqId, decision: Decision)
    | AgentAborts(id: ReqId)
    | ResetsWith(reason: string)

  function React(h: Handler, e: Happening): Handler {
    match e
    case Asks(tool, options, aborted) => Request(h, tool, options, aborted)
    case WebSays(id, decision) => Answer(h, id, decision).0
    case AgentAborts(id) => Abort(h, id)
    case ResetsWith(reason) => ResetAll(h, reason)
  }

  function ReactAll(h: Handler, es: seq<Happening>): Handler
    decreases |es|
  {
    if es == [] then h else ReactAll(React(h, es[0]), es[1..])
  }

  datatype Channel = ToWeb | FromWeb | ToAgent

  predicate On(o: Sent, c: Channel, id: ReqId) {
    match o
    case Asked(i) => c.ToWeb? && i == id
    case Told(i, _) => c.FromWeb? && i == id
    case Answered(i, _) => c.ToAgent? && i == id
    case Switched(_) => false
  }

  function Times(out: seq<Sent>, c: Channel, id: ReqId): nat {
    if out == [] then 0 else Times(out[..|out| - 1], c, id) + if On(out[|out| - 1], c, id) then 1 else 0
  }

  lemma TimesLast(out: seq<Sent>, o: Sent)
    ensures forall c, id: ReqId :: Times(out + [o], c, id) == Times(out, c, id) + if On(o, c, id) then 1 else 0
  {
  }

  // Pending requests are the open ones, each with its abort listener armed, apart from the completed
  // ones.
  ghost predicate Open(h: Handler) {
    Unique(h.pending) && h.requests.Keys == IdSet(h.pending) && h.listeners == h.requests.Keys &&
    h.requests.Keys !! h.completed.Keys && (forall id: ReqId :: id in h.requests || id in h.completed ==> id < h.nextId)
  }

  // Every id handed out is open or has been answered to the agent, exactly once.
  ghost predicate AnsweredOnce(h: Handler) {
    forall id: ReqId :: Times(h.out, ToAgent, id) == if id < h.nextId && id !in h.requests then 1 else 0
  }

  // A request is shown to the web once, and its outcome is told once, when it completes.
  ghost predicate ShownOnce(h: Handler) {
    (forall id: ReqId :: Times(h.out, FromWeb, id) == if id in h.completed then 1 else 0) &&
    (forall id: ReqId :: Times(h.out, ToWeb, id) == if id in h.requests || id in h.completed then 1 else 0)
  }

  ghost predicate Recorded(h: Handler) {
    forall id: ReqId :: id in h.completed ==> Told(id, h.completed[id].decision) in h.out
  }

  ghost predicate Consistent(h: Handler) {
    Open(h) && AnsweredOnce(h) && ShownOnce(h) && Recorded(h)
  }

  lemma RequestOpen(h: Handler, tool: string, options: seq<Choice>)
    requires Open(h)
    ensures Open(Request(h, tool, options, false))
  {
    AddStore(h.pending, Ticket(h.nextId, options));
  }

  lemma RequestCounted(h: Handler, tool: string, options: seq<Choice>)
    requires Consistent(h)
    ensures var t := Request(h, tool, options, false); AnsweredOnce(t) && ShownOnce(t) && Recorded(t)
  {
  }

  lemma TurnawayOpen(h: Handler)
    requires Open(h)
    ensures Open(Turnaway(h))
  {
  }

  lemma TurnawayCounted(h: Handler)
    requires Consistent(h)
    ensures var t := Turnaway(h); AnsweredOnce(t) && ShownOnce(t) && Recorded(t)
  {
  }

  lemma SettleOpen(h: Handler, id: ReqId, decision: Decision, status: Status, response: Response)
    requires Open(h) && id in h.requests
    ensures Open(SettleWith(h, id, decision, status, response))
  {
    RemoveStore(h.pending, id);
  }

  lemma SettleConsistent(h: Handler, id: ReqId, decision: Decision, status: Status, response: Response)
    requires Consistent(h) && id in h.requests
    ensures Consistent(SettleWith(h, id, decision, status, response))
  {
    SettleOpen(h, id, decision, status, response);
    TimesLast(h.out, Told(id, decision));
    TimesLast(h.out + [Told(id, decision)], Answered(id, response));
  }

  lemma SwitchConsistent(h: Handler, mode: Mode)
    requires Consistent(h)
    ensures Consistent(h.(out := h.out + [Switched(mode)]))
  {
  }

  lemma AnswerConsistent(h: Handler, id: ReqId, decision: Decision)
    requires Consistent(h)
    ensures Consistent(Answer(h, id, decision).0)
  {
    RemoveStore(h.pending, id);
    var w := Find(h.pending, id);
    if w.Some? {
      var response := MapDecision(w.value.what, decision);
      var denied := response.Cancelled? || IsReject(w.value.what, response);
      var h1 := if decision.Switch? then h.(out := h.out + [Switched(decision.mode)]) else h;
      if decision.Switch? {
        SwitchConsistent(h, decision.mode);
      }
      SettleConsistent(h1, id, decision, if denied then Denied else Approved, response);
    }
  }

  lemma AbortConsistent(h: Handler, id: ReqId)
    requires Consistent(h)
    ensures Consistent(Abort(h, id)) && id !in Abort(h, id).requests
  {
    RemoveStore(h.pending, id);
    if id in h.requests {
      SettleConsistent(h, id, Deny(Some("Permission request cancelled")), Canceled, Response.Cancelled);
    }
  }

  // Main result: a reset leaves nothing pending: every request has been answered to the agent once.
  lemma {:induction false} ResetAnswersAll(h: Handler, reason: string)
    requires Consistent(h)
    ensures var r := ResetAll(h, reason);
            Consistent(r) && r.pending == [] && r.requests == map[] && r.listeners == {} &&
            forall id: ReqId :: id < r.nextId ==> Times(r.out, ToAgent, id) == 1
    decreases |h.pending|
  {
    if h.pending != [] {
      var id := h.pending[0].id;
      assert id in IdSet(h.pending);
      SettleConsistent(h, id, Deny(Some(reason)), Canceled, Response.Cancelled);
      ResetAnswersAll(SettleWith(h, id, Deny(Some(reason)), Canceled, Response.Cancelled), reason);
    } else {
      assert IdSet(h.pending) == {};
    }
  }

  lemma {:induction false} RunConsistent(h: Handler, es: seq<Happening>)
    requires Consistent(h)
    ensures Consistent(ReactAll(h, es))
    decreases |es|
  {
    if es != [] {
      match es[0] {
        case Asks(tool, options, aborted) =>
          if aborted {
            TurnawayOpen(h);
            TurnawayCounted(h);
          } else {
            RequestOpen(h, tool, options);
            RequestCounted(h, tool, options);
          }
        case WebSays(id, decision) => AnswerConsistent(h, id, decision);
        case AgentAborts(id) => AbortConsistent(h, id);
        case ResetsWith(reason) => ResetAnswersAll(h, reason);
      }
      RunConsistent(React(h, es[0]), es[1..]);
    }
  }

  // Main result: on every run of answers, aborts and resets racing.
  lemma EveryRequestAnsweredOnce(es: seq<Happening>)
    ensures Consistent(ReactAll(IDLE, es))
  {
    assert IdSet(IDLE.pending) == {};
    RunConsistent(IDLE, es);
  }

  // A later answer changes nothing and learns the decision the wire was told.
  lemma LateAnswer(h: Handler, id: ReqId, decision: Decision)
    requires Consistent(h) && id in h.completed
    ensures Answer(h, id, decision) == (h, AlreadyAnswered(Some(h.completed[id].decision)))
    ensures Told(id, h.completed[id].decision) in h.out && Times(h.out, FromWeb, id) == 1
  {
    RemoveStore(h.pending, id);
  }

  // --- the handler as the program runs it ---

  class PermissionHandler {
    var pending: seq<Waiting>
    var requests: map<ReqId, string>
    var completedRequests: map<ReqId, PermissionBridge.Completed>
    var listeners: set<ReqId>
    var nextId: ReqId
    var out: seq<Sent>

    function St(): Handler
      reads this
    {
      Handler(pending, requests, completedRequests, listeners, nextId, out)
    }

    constructor ()
      ensures St() == IDLE
    {
      pending, requests, completedRequests, listeners, nextId, out := [], map[], map[], {}, 0, [];
    }

    method HandleRequest(tool: string, options: seq<Choice>, aborted: bool)
      modifies this
      ensures St() == Request(old(St()), tool, options, aborted)
    {
      var reqId := nextId;
      nextId := nextId + 1;
      if aborted {
        out := out + [Answered(reqId, Response.Cancelled)];
        return;
      }
      listeners := listeners + {reqId};
      pending := pending + [Ticket(reqId, options)];
      requests := requests[reqId := tool];
      out := out + [Asked(reqId)];
    }

    method FinishRequest(reqId: ReqId, decision: Decision, status: Status)
      modifies this`requests, this`completedRequests, this`out
      ensures St() == FinishWith(old(St()), reqId, decision, status)
    {
      if reqId in requests {
        completedRequests := completedRequests[reqId := PermissionBridge.Completed(requests[reqId], status, decision)];
        requests := requests - {reqId};
      }
      out := out + [Told(reqId, decision)];
    }

    method Settle(reqId: ReqId, decision: Decision, status: Status, response: Response)
      modifies this
      ensures St() == SettleWith(old(St()), reqId, decision, status, response)
    {
      pending := Remove(pending, reqId);
      FinishRequest(reqId, decision, status);
      listeners := listeners - {reqId};
      out := out + [Answered(reqId, response)];
    }

    method Resolve(reqId: ReqId, decision: Decision) returns (result: Result)
      modifies this
      ensures (St(), result) == Answer(old(St()), reqId, decision)
    {
      var waiting := Find(pending, reqId);
      if waiting.None? {
        return AlreadyAnswered(if reqId in completedRequests then Some(completedRequests[reqId].decision) else None);
      }
      if decision.Switch? {
        out := out + [Switched(decision.mode)];
      }
      var response := MapDecision(waiting.value.what, decision);
      var denied := response.Cancelled? || IsReject(waiting.value.what, response);
      Settle(reqId, decision, if denied then Denied else Approved, response);
      return Ok;
    }

    method OnAbort(reqId: ReqId)
      modifies this
      ensures St() == Abort(old(St()), reqId)
    {
      if Find(pending, reqId).Some? {
        Settle(reqId, Deny(Some("Permission request cancelled")), Canceled, Response.Cancelled);
      }
    }

    method Reset(reason: string)
      modifies this
      ensures St() == ResetAll(old(St()), reason)
    {
      while pending != []
        invariant ResetAll(St(), reason) == ResetAll(old(St()), reason)
        decreases |pending|
      {
        Settle(pending[0].id, Deny(Some(reason)), Canceled, Response.Cancelled);
      }
    }
  }
}
