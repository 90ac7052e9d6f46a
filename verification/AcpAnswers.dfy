// What the ACP permission handler tells the agent and records, in terms of what the agent offered and of
// the event that settled the request.
module AcpAnswers {
  import opened Requests
  import opened Wrappers
  import opened PermissionBridge
  import opened AcpPermissions

  // --- what the events say ---

  datatype Offer = Offer(tool: string, options: seq<Choice>)

  // The requests made so far; a request's place in this list is its id.
  function Offers(es: seq<Happening>): seq<Offer> {
    if es == [] then []
    else
      var e := es[|es| - 1];
      Offers(es[..|es| - 1]) + if e.Asks? then [Offer(e.tool, e.options)] else []
  }

  // The kind of option a decision is answered with if the agent offered it.
  function Preferred(d: Decision): OptionKind {
    match d
    case Allow(scope, _) => if scope == "session" then AllowAlways else AllowOnce
    case Deny(_) => RejectOnce
    case Switch(_) => AllowOnce
  }

  predicate Fits(kind: OptionKind, d: Decision) {
    Allows(kind) <==> !d.Deny?
  }

  // Option i answers d: it is of the right sort, of the preferred kind if there is one, and the first of
  // its kind.
  predicate AnswersWith(options: seq<Choice>, i: nat, d: Decision) {
    i < |options| && Fits(options[i].kind, d) &&
    (options[i].kind == Preferred(d) || forall j :: 0 <= j < |options| ==> options[j].kind != Preferred(d)) &&
    forall j :: 0 <= j < i ==> options[j].kind != options[i].kind
  }

  ghost predicate AnswersDecision(options: seq<Choice>, d: Decision, r: Response) {
    match r
    case Selected(optionId) => exists i: nat :: AnswersWith(options, i, d) && options[i].optionId == optionId
    case Cancelled => forall i :: 0 <= i < |options| ==> !Fits(options[i].kind, d)
  }

  // What the agent is sent counts as a refusal: nothing, or an id first offered for a rejecting option.
  ghost predicate Refuses(options: seq<Choice>, r: Response) {
    r.Cancelled? || exists i: nat :: FirstUnder(options, i, r.optionId) && !Allows(options[i].kind)
  }

  // How event e settles request id: the record c, and the response r to the agent.
  ghost predicate SettledBy(offers: seq<Offer>, e: Happening, id: ReqId, c: PermissionBridge.Completed, r: Response) {
    id < |offers| && c.tool == offers[id].tool &&
    match e
    case Asks(_, _, _) => false
    case WebSays(i, d) =>
      i == id && c.decision == d && AnswersDecision(offers[id].options, d, r) &&
      c.status == (if Refuses(offers[id].options, r) then Denied else Approved)
    case AgentAborts(i) => i == id && c.status.Canceled? && c.decision.Deny? && r.Cancelled?
    case ResetsWith(reason) => c.status.Canceled? && c.decision == Deny(Some(reason)) && r.Cancelled?
  }

  // --- what a step may do ---

  ghost predicate NewlySettled(h: Handler, offers: seq<Offer>, e: Happening, t: Handler, id: ReqId, r: Response) {
    id in h.requests && id !in h.completed && id in t.completed && SettledBy(offers, e, id, t.completed[id], r)
  }

  ghost predicate Explains(h: Handler, offers: seq<Offer>, e: Happening, t: Handler, o: Sent) {
    match o
    case Asked(id) => e.Asks? && !e.aborted && id == |offers|
    case Told(id, d) => exists r :: NewlySettled(h, offers, e, t, id, r) && t.completed[id].decision == d
    case Answered(id, r) =>
      NewlySettled(h, offers, e, t, id, r) || (e.Asks? && e.aborted && id == |offers| && r.Cancelled?)
    case Switched(mode) => e.WebSays? && e.id in h.requests && e.decision == Switch(mode)
  }

  // Everything a step sends is explained by its event, and so is every request it settles.
  ghost predicate Follows(h: Handler, offers: seq<Offer>, e: Happening, t: Handler) {
    h.out <= t.out && t.requests.Keys <= h.requests.Keys + (if e.Asks? then {|offers|} else {}) &&
    (forall i :: |h.out| <= i < |t.out| ==> Explains(h, offers, e, t, t.out[i])) &&
    (forall id :: id in h.completed ==> id in t.completed && t.completed[id] == h.completed[id]) &&
    (forall id :: id in t.completed && id !in h.completed ==> exists r :: NewlySettled(h, offers, e, t, id, r))
  }

  // The handler holds what was asked.
  ghost predicate Knows(h: Handler, offers: seq<Offer>) {
    h.nextId == |offers| &&
    (forall w :: w in h.pending ==> w.id < |offers| && w.what == offers[w.id].options) &&
    (forall id :: id in h.requests ==> id < |offers| && h.requests[id] == offers[id].tool)
  }

  // --- a decision is answered by a fitting option ---

  lemma {:induction false} FirstOfAt(options: seq<Choice>, kind: OptionKind) returns (i: nat)
    ensures FirstOf(options, kind).Some? ==>
              i < |options| && FirstOf(options, kind).value == options[i] && options[i].kind == kind &&
              forall j :: 0 <= j < i ==> options[j].kind != kind
    ensures FirstOf(options, kind).None? ==> forall j :: 0 <= j < |options| ==> options[j].kind != kind
  {
    i := 0;
    if options != [] && options[0].kind != kind {
      var k := FirstOfAt(options[1..], kind);
      i := k + 1;
      assert forall j :: 1 <= j < |options| ==> options[j] == options[1..][j - 1];
    }
  }

  lemma ChosenAnswers(options: seq<Choice>, d: Decision)
    ensures AnswersDecision(options, d, MapDecision(options, d))
  {
    var i := FirstOfAt(options, AllowOnce);
    var j := FirstOfAt(options, AllowAlways);
    var k := FirstOfAt(options, RejectOnce);
    var l := FirstOfAt(options, RejectAlways);
    if Chosen(options, d).Some? {
      assert AnswersWith(options, i, d) || AnswersWith(options, j, d) || AnswersWith(options, k, d) ||
             AnswersWith(options, l, d);
    }
  }

  lemma RefusedIs(options: seq<Choice>, d: Decision)
    ensures var r := MapDecision(options, d); Refuses(options, r) <==> r.Cancelled? || IsReject(options, r)
  {
    AnswerMeansDecision(options, d);
    var o := Chosen(options, d);
    if o.Some? {
      var i := SomeFirst(options, o.value);
      ByIdFirst(options, o.value.optionId, i);
      assert forall j: nat :: FirstUnder(options, j, o.value.optionId) ==> j == i;
    }
  }

  // --- each event follows the rules ---

  lemma SettleFollows(h: Handler, offers: seq<Offer>, e: Happening, pre: seq<Sent>, id: ReqId, d: Decision,
                      status: Status, r: Response)
    requires Open(h) && Knows(h, offers) && id in h.requests && !e.Asks?
    requires SettledBy(offers, e, id, PermissionBridge.Completed(h.requests[id], status, d), r)
    requires pre == [] || (e.WebSays? && e.id == id && e.decision.Switch? && pre == [Switched(e.decision.mode)])
    ensures var t := SettleWith(h.(out := h.out + pre), id, d, status, r); Follows(h, offers, e, t) && Knows(t, offers)
  {
    RemoveStore(h.pending, id);
    var t := SettleWith(h.(out := h.out + pre), id, d, status, r);
    assert t.out == h.out + (pre + [Told(id, d), Answered(id, r)]);
    assert NewlySettled(h, offers, e, t, id, r);
  }

  lemma NothingFollows(h: Handler, offers: seq<Offer>, e: Happening)
    requires !e.Asks?
    ensures Follows(h, offers, e, h)
  {
  }

  lemma RequestFollows(h: Handler, offers: seq<Offer>, tool: string, options: seq<Choice>, aborted: bool)
    requires Open(h) && Knows(h, offers)
    ensures var t := Request(h, tool, options, aborted);
            Follows(h, offers, Asks(tool, options, aborted), t) && Knows(t, offers + [Offer(tool, options)])
  {
  }

  lemma AnswerUnfolds(h: Handler, id: ReqId, d: Decision) returns (status: Status, r: Response)
    requires Find(h.pending, id).Some?
    ensures var options := Find(h.pending, id).value.what;
            && r == MapDecision(options, d)
            && status == (if r.Cancelled? || IsReject(options, r) then Denied else Approved)
    ensures Answer(h, id, d).0
         == SettleWith(h.(out := h.out + if d.Switch? then [Switched(d.mode)] else []), id, d, status, r)
  {
    var options := Find(h.pending, id).value.what;
    r := MapDecision(options, d);
    status := if r.Cancelled? || IsReject(options, r) then Denied else Approved;
    assert h.(out := h.out + []) == h;
  }

  lemma DecisionRules(offers: seq<Offer>, id: ReqId, c: PermissionBridge.Completed)
    requires id < |offers| && c.tool == offers[id].tool
    requires var r := MapDecision(offers[id].options, c.decision);
             c.status == if r.Cancelled? || IsReject(offers[id].options, r) then Denied else Approved
    ensures SettledBy(offers, WebSays(id, c.decision), id, c, MapDecision(offers[id].options, c.decision))
  {
    ChosenAnswers(offers[id].options, c.decision);
    RefusedIs(offers[id].options, c.decision);
  }

  lemma AnswerFollows(h: Handler, offers: seq<Offer>, id: ReqId, d: Decision)
    requires Open(h) && Knows(h, offers)
    ensures var t := Answer(h, id, d).0; Follows(h, offers, WebSays(id, d), t) && Knows(t, offers)
  {
    RemoveStore(h.pending, id);
    var w := Find(h.pending, id);
    if w.Some? {
      var status, r := AnswerUnfolds(h, id, d);
      DecisionRules(offers, id, PermissionBridge.Completed(h.requests[id], status, d));
      SettleFollows(h, offers, WebSays(id, d), if d.Switch? then [Switched(d.mode)] else [], id, d, status, r);
    } else {
      NothingFollows(h, offers, WebSays(id, d));
    }
  }

  lemma AbortFollows(h: Handler, offers: seq<Offer>, id: ReqId)
    requires Open(h) && Knows(h, offers)
    ensures Follows(h, offers, AgentAborts(id), Abort(h, id)) && Knows(Abort(h, id), offers)
  {
    RemoveStore(h.pending, id);
    if id in h.requests {
      var d := Deny(Some("Permission request cancelled"));
      SettleFollows(h, offers, AgentAborts(id), [], id, d, Canceled, Response.Cancelled);
      assert h.(out := h.out + []) == h;
    } else {
      NothingFollows(h, offers, AgentAborts(id));
    }
  }

  lemma FollowsTrans(h: Handler, offers: seq<Offer>, e: Happening, t: Handler, u: Handler)
    requires !e.Asks? && Follows(h, offers, e, t) && Follows(t, offers, e, u)
    requires h.requests.Keys !! h.completed.Keys
    ensures Follows(h, offers, e, u)
  {
    forall i | |h.out| <= i < |u.out|
      ensures Explains(h, offers, e, u, u.out[i])
    {
      if i < |t.out| {
        assert Explains(h, offers, e, t, t.out[i]);
        StillExplained(h, offers, e, t, u, t.out[i]);
      } else {
        assert Explains(t, offers, e, u, u.out[i]);
        ExplainedBefore(h, offers, e, t, u, u.out[i]);
      }
    }
    forall id | id in u.completed && id !in h.completed
      ensures exists r :: NewlySettled(h, offers, e, u, id, r)
    {
      if id in t.completed {
        var r :| NewlySettled(h, offers, e, t, id, r);
        assert NewlySettled(h, offers, e, u, id, r);
      } else {
        var r :| NewlySettled(t, offers, e, u, id, r);
        assert NewlySettled(h, offers, e, u, id, r);
      }
    }
  }

  lemma StillExplained(h: Handler, offers: seq<Offer>, e: Happening, t: Handler, u: Handler, o: Sent)
    requires Explains(h, offers, e, t, o) && Follows(t, offers, e, u)
    ensures Explains(h, offers, e, u, o)
  {
    if o.Told? {
      var r :| NewlySettled(h, offers, e, t, o.id, r);
      assert NewlySettled(h, offers, e, u, o.id, r);
    }
  }

  lemma ExplainedBefore(h: Handler, offers: seq<Offer>, e: Happening, t: Handler, u: Handler, o: Sent)
    requires !e.Asks? && Explains(t, offers, e, u, o) && Follows(h, offers, e, t)
    requires h.requests.Keys !! h.completed.Keys
    ensures Explains(h, offers, e, u, o)
  {
    if o.Told? {
      var r :| NewlySettled(t, offers, e, u, o.id, r);
      assert NewlySettled(h, offers, e, u, o.id, r);
    }
  }

  lemma {:induction false} ResetFollows(h: Handler, offers: seq<Offer>, reason: string)
    requires Open(h) && Knows(h, offers)
    ensures var t := ResetAll(h, reason); Follows(h, offers, ResetsWith(reason), t) && Knows(t, offers)
    decreases |h.pending|
  {
    var e := ResetsWith(reason);
    if h.pending == [] {
      NothingFollows(h, offers, e);
    } else {
      var id := h.pending[0].id;
      assert id in IdSet(h.pending);
      var h1 := SettleWith(h, id, Deny(Some(reason)), Canceled, Response.Cancelled);
      SettleFollows(h, offers, e, [], id, Deny(Some(reason)), Canceled, Response.Cancelled);
      assert h.(out := h.out + []) == h;
      SettleOpen(h, id, Deny(Some(reason)), Canceled, Response.Cancelled);
      ResetFollows(h1, offers, reason);
      FollowsTrans(h, offers, e, h1, ResetAll(h, reason));
    }
  }

  lemma StepFollows(h: Handler, offers: seq<Offer>, e: Happening)
    requires Open(h) && Knows(h, offers)
    ensures Follows(h, offers, e, React(h, e))
    ensures Knows(React(h, e), offers + if e.Asks? then [Offer(e.tool, e.options)] else [])
  {
    assert offers + [] == offers;
    match e {
      case Asks(tool, options, aborted) => RequestFollows(h, offers, tool, options, aborted);
      case WebSays(id, d) => AnswerFollows(h, offers, id, d);
      case AgentAborts(id) => AbortFollows(h, offers, id);
      case ResetsWith(reason) => ResetFollows(h, offers, reason);
    }
  }

  // --- every run ---

  lemma {:induction false} ReactLast(h: Handler, es: seq<Happening>, e: Happening)
    ensures ReactAll(h, es + [e]) == React(ReactAll(h, es), e)
    decreases |es|
  {
    if es == [] {
      assert ([] + [e])[1..] == [];
    } else {
      assert (es + [e])[1..] == es[1..] + [e];
      ReactLast(React(h, es[0]), es[1..], e);
    }
  }

  lemma {:induction false} RunKnows(es: seq<Happening>)
    ensures Knows(ReactAll(IDLE, es), Offers(es))
    decreases |es|
  {
    if es != [] {
      var before, e := es[..|es| - 1], es[|es| - 1];
      assert es == before + [e];
      RunKnows(before);
      EveryRequestAnsweredOnce(before);
      ReactLast(IDLE, before, e);
      StepFollows(ReactAll(IDLE, before), Offers(before), e);
    }
  }

  // Main result: at any point of any run, what the next event sends and records is what that event and
  // the agent's own offers call for. A web decision is answered by an option the agent offered for that
  // request: an allowing one unless it denies, of the preferred kind if there is one, and by a
  // cancellation exactly when no option of that sort was offered; the record is denied exactly when that
  // refuses. An abort and a reset answer with a cancellation, and record a cancelled deny.
  lemma EveryAnswerFits(es: seq<Happening>, e: Happening)
    ensures Follows(ReactAll(IDLE, es), Offers(es), e, ReactAll(IDLE, es + [e]))
  {
    RunKnows(es);
    EveryRequestAnsweredOnce(es);
    ReactLast(IDLE, es, e);
    StepFollows(ReactAll(IDLE, es), Offers(es), e);
  }

  // Main result: a decision on a request still pending always settles it, and a mode it switches to is
  // passed on.
  lemma DecisionSettles(es: seq<Happening>, id: ReqId, d: Decision)
    requires id in ReactAll(IDLE, es).requests
    ensures var h, t := ReactAll(IDLE, es), ReactAll(IDLE, es + [WebSays(id, d)]);
            id in t.completed && t.completed[id].decision == d &&
            exists r :: t.out == h.out + (if d.Switch? then [Switched(d.mode)] else []) + [Told(id, d), Answered(id, r)]
  {
    EveryRequestAnsweredOnce(es);
    ReactLast(IDLE, es, WebSays(id, d));
    var h := ReactAll(IDLE, es);
    RemoveStore(h.pending, id);
    var status, r := AnswerUnfolds(h, id, d);
    var t := SettleWith(h.(out := h.out + if d.Switch? then [Switched(d.mode)] else []), id, d, status, r);
    assert t.out == h.out + (if d.Switch? then [Switched(d.mode)] else []) + [Told(id, d), Answered(id, r)];
  }
}
