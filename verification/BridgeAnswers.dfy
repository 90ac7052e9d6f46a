// What the permission bridge tells the hooks, the web and the terminal, in terms of the hooks that asked
// and of the event that settled the request.
module BridgeAnswers {
  import opened Requests
  import opened Wrappers
  import opened PermissionBridge
  import opened BridgeRuns

  // --- what the events say ---

  // A hook call that opened a request: a structured question, or a permission prompt.
  datatype Ask = Ask(tool: string, questions: Option<seq<string>>, web: bool)

  function AskOf(e: Event): Option<Ask> {
    match e
    case HookPreToolUse(tool, questions, web) =>
      if IsAskUserQuestion(tool) then Some(Ask(tool, Some(questions), web)) else None
    case HookPermission(tool, web) => if IsAskUserQuestion(tool) then None else Some(Ask(tool, None, web))
    case _ => None
  }

  function Opens(e: Event): seq<Ask> {
    if AskOf(e).Some? then [AskOf(e).value] else []
  }

  // The requests opened so far; a request's place in this list is its id.
  function Asks(es: seq<Event>): seq<Ask> {
    if es == [] then [] else Asks(es[..|es| - 1]) + Opens(es[|es| - 1])
  }

  // The status a web answer earns: a question's hook is denied whatever the answer.
  function EarnedStatus(a: Ask, d: Decision): Status {
    if a.questions.Some? || d.Deny? then Denied else Approved
  }

  // How event e completes request id. Only a web answer can complete a blocked hook with anything but a
  // deny, and only the terminal's own outcome completes a prompt left to the terminal, short of a reset.
  ghost predicate SettledBy(asks: seq<Ask>, e: Event, cfg: Config, id: ReqId, c: Completed) {
    id < |asks| && c.tool == asks[id].tool &&
    match e
    case WebAnswers(i, d, _) => i == id && asks[id].web && c.decision == d && c.status == EarnedStatus(asks[id], d)
    case TerminalOutcome(tool, approved) =>
      !asks[id].web && asks[id].tool == tool && c.status == (if approved then Approved else Denied) &&
      (if approved then c.decision == Allow("once", NoUpdate) else c.decision.Deny?)
    case TimerFires(i) =>
      i == id && asks[id].web && c.status.Denied? &&
      c.decision == Deny(Some(if asks[id].questions.Some? then FALLBACK_REASON else cfg.timeoutMessage))
    case Resets(reason) =>
      c.status.Canceled? &&
      c.decision == Deny(Some(if asks[id].questions.None? && asks[id].web then reason else Guarded(reason)))
    case _ => false
  }

  // What a blocked hook is told when its request was decided.
  ghost predicate SettlesHook(a: Ask, d: Decision, allowed: bool, reason: string) {
    a.web &&
    if a.questions.Some? then !allowed && reason == QuestionReason(a.questions.value, d)
    else (allowed <==> !d.Deny?) && reason == PermReason(d)
  }

  // --- what a step may do ---

  ghost predicate NewlySettled(b: Bridge, asks: seq<Ask>, e: Event, cfg: Config, t: Bridge, id: ReqId) {
    id in b.requests && id !in b.completed && id in t.completed && SettledBy(asks, e, cfg, id, t.completed[id])
  }

  ghost predicate Explains(b: Bridge, asks: seq<Ask>, e: Event, cfg: Config, t: Bridge, o: Output) {
    match o
    case PermRequest(id, tool, answerable) =>
      AskOf(e).Some? && id == |asks| && tool == AskOf(e).value.tool &&
      (answerable <==> AskOf(e).value.web ||
                       if AskOf(e).value.questions.Some? then cfg.drivesQuestions else cfg.drivesDialogs)
    case PermResolve(id, d) => NewlySettled(b, asks, e, cfg, t, id) && t.completed[id].decision == d
    case Settle(id, allowed, reason) =>
      NewlySettled(b, asks, e, cfg, t, id) && SettlesHook(asks[id], t.completed[id].decision, allowed, reason)
    case Drive(id, d) =>
      e == WebAnswers(id, d, true) && id in b.requests && id < |asks| && !asks[id].web &&
      if asks[id].questions.Some? then cfg.drivesQuestions else cfg.drivesDialogs
    case ModeChange(mode) =>
      e.WebAnswers? && e.decision == Switch(mode) && e.id in b.requests && e.id < |asks| && asks[e.id].web &&
      asks[e.id].questions.None?
    case PromptLikely => (e.HookPreToolUse? || e.HookPermission?) && !e.web
  }

  // Everything a step sends is explained by its event, and so is every request it completes.
  ghost predicate Follows(b: Bridge, asks: seq<Ask>, e: Event, cfg: Config, t: Bridge) {
    b.out <= t.out && t.requests.Keys <= b.requests.Keys + (if AskOf(e).Some? then {|asks|} else {}) &&
    (forall i :: |b.out| <= i < |t.out| ==> Explains(b, asks, e, cfg, t, t.out[i])) &&
    (forall id :: id in b.completed ==> id in t.completed && t.completed[id] == b.completed[id]) &&
    (forall id :: id in t.completed && id !in b.completed ==> NewlySettled(b, asks, e, cfg, t, id))
  }

  // The stores hold what was asked: questions and permissions of web turns block, the rest is local.
  ghost predicate Holds(asks: seq<Ask>, store: seq<Entry>, blocked: bool, question: bool) {
    forall e :: e in store ==>
      e.id < |asks| && e.what.tool == asks[e.id].tool && e.what.questions == asks[e.id].questions &&
      asks[e.id].web == blocked && (blocked ==> e.what.questions.Some? == question) &&
      (e.what.questions.None? ==> e.what.drivable)
  }

  ghost predicate Knows(b: Bridge, asks: seq<Ask>) {
    b.nextId == |asks| && Holds(asks, b.pending, true, true) && Holds(asks, b.permPending, true, false) &&
    Holds(asks, b.local, false, false) &&
    (forall id :: id in b.requests ==> id < |asks| && b.requests[id] == asks[id].tool)
  }

  // --- requests open ---

  lemma MoreAsks(asks: seq<Ask>, a: Ask, store: seq<Entry>, blocked: bool, question: bool)
    requires Holds(asks, store, blocked, question)
    ensures Holds(asks + [a], store, blocked, question)
  {
  }

  lemma AskFollows(b: Bridge, asks: seq<Ask>, e: Event, cfg: Config, x: Entry, answerable: bool)
    requires Kept(b) && Knows(b, asks) && AskOf(e).Some? && x.id == b.nextId
    requires var a := AskOf(e).value;
             && x.what.tool == a.tool && x.what.questions == a.questions && (a.questions.None? ==> x.what.drivable)
             && answerable == (a.web || if a.questions.Some? then cfg.drivesQuestions else cfg.drivesDialogs)
    ensures var b1 := Opened(b, x.what.tool, answerable);
            && (AskOf(e).value.web && AskOf(e).value.questions.Some? ==> Follows(b, asks, e, cfg, BlockQuestion(b1, x)))
            && (AskOf(e).value.web && AskOf(e).value.questions.None? ==>
                  Follows(b, asks, e, cfg, BlockPermission(b1, x)))
            && (!AskOf(e).value.web ==> Follows(b, asks, e, cfg, WaitLocally(b1, x)))
  {
    var b1 := Opened(b, x.what.tool, answerable);
    assert b1.out == b.out + [PermRequest(b.nextId, x.what.tool, answerable)];
  }

  lemma AskKnows(b: Bridge, asks: seq<Ask>, a: Ask, x: Entry, answerable: bool)
    requires Knows(b, asks) && x.id == b.nextId
    requires x.what.tool == a.tool && x.what.questions == a.questions && (a.questions.None? ==> x.what.drivable)
    ensures var b1 := Opened(b, x.what.tool, answerable);
            && (a.web && a.questions.Some? ==> Knows(BlockQuestion(b1, x), asks + [a]))
            && (a.web && a.questions.None? ==> Knows(BlockPermission(b1, x), asks + [a]))
            && (!a.web ==> Knows(WaitLocally(b1, x), asks + [a]))
  {
    MoreAsks(asks, a, b.pending, true, true);
    MoreAsks(asks, a, b.permPending, true, false);
    MoreAsks(asks, a, b.local, false, false);
  }

  lemma HookFollows(b: Bridge, asks: seq<Ask>, e: Event, cfg: Config)
    requires Kept(b) && Knows(b, asks) && (e.HookPreToolUse? || e.HookPermission?)
    ensures Follows(b, asks, e, cfg, Step(b, e, cfg)) && Knows(Step(b, e, cfg), asks + Opens(e))
  {
    if AskOf(e).Some? {
      var a := AskOf(e).value;
      var x := Ticket(b.nextId, Prompt(a.tool, a.questions, a.questions.None?));
      var answerable := a.web || if a.questions.Some? then cfg.drivesQuestions else cfg.drivesDialogs;
      AskFollows(b, asks, e, cfg, x, answerable);
      AskKnows(b, asks, a, x, answerable);
    } else {
      assert asks + [] == asks;
    }
  }

  // --- requests complete ---

  lemma RestHolds(asks: seq<Ask>, store: seq<Entry>, id: ReqId, blocked: bool, question: bool)
    requires Holds(asks, store, blocked, question) && Unique(store)
    ensures Holds(asks, Remove(store, id), blocked, question)
  {
    RemoveStore(store, id);
  }

  // One completion: the outputs `outs` are its resolution and, for a blocked hook, the settlement.
  lemma CompletionFollows(b: Bridge, asks: seq<Ask>, e: Event, cfg: Config, outs: seq<Output>, t: Bridge, id: ReqId,
                          c: Completed)
    requires Kept(b) && id in b.requests && t.out == b.out + outs && SettledBy(asks, e, cfg, id, c)
    requires t.requests == b.requests - {id} && t.completed == b.completed[id := c]
    requires forall i :: 0 <= i < |outs| ==> Explains(b, asks, e, cfg, t, outs[i])
    ensures Follows(b, asks, e, cfg, t)
  {
  }

  lemma HookCompletionFollows(b: Bridge, asks: seq<Ask>, e: Event, cfg: Config, pre: seq<Output>, t: Bridge, id: ReqId,
                              c: Completed, allowed: bool, reason: string)
    requires Kept(b) && id in b.requests && SettledBy(asks, e, cfg, id, c)
    requires t.out == b.out + (pre + [PermResolve(id, c.decision), Settle(id, allowed, reason)])
    requires t.requests == b.requests - {id} && t.completed == b.completed[id := c]
    requires SettlesHook(asks[id], c.decision, allowed, reason)
    requires pre == [] || (e.WebAnswers? && e.id == id && e.decision.Switch? && pre == [ModeChange(e.decision.mode)] &&
                           asks[id].questions.None?)
    ensures Follows(b, asks, e, cfg, t)
  {
    var outs := pre + [PermResolve(id, c.decision), Settle(id, allowed, reason)];
    assert NewlySettled(b, asks, e, cfg, t, id);
    CompletionFollows(b, asks, e, cfg, outs, t, id, c);
  }

  lemma SettleQuestionFollows(b: Bridge, asks: seq<Ask>, e: Event, cfg: Config, x: Entry, d: Decision,
                              status: Status, reason: string)
    requires Kept(b) && Knows(b, asks) && x in b.pending
    requires SettledBy(asks, e, cfg, x.id, Completed(x.what.tool, status, d))
    requires reason == QuestionReason(x.what.questions.value, d)
    ensures var t := SettleQuestion(b, x, d, status, reason); Follows(b, asks, e, cfg, t) && Knows(t, asks)
  {
    assert x.id in IdSet(b.pending);
    RestHolds(asks, b.pending, x.id, true, true);
    var t, c := SettleQuestion(b, x, d, status, reason), Completed(x.what.tool, status, d);
    assert t.out == b.out + ([] + [PermResolve(x.id, d), Settle(x.id, false, reason)]);
    HookCompletionFollows(b, asks, e, cfg, [], t, x.id, c, false, reason);
  }

  lemma SettlePermissionKnows(b: Bridge, asks: seq<Ask>, x: Entry, d: Decision, status: Status)
    requires Unique(b.permPending) && Knows(b, asks)
    ensures Knows(SettlePermission(b, x, d, status), asks)
  {
    RestHolds(asks, b.permPending, x.id, true, false);
  }

  lemma PermissionEffect(b: Bridge, pre: seq<Output>, x: Entry, d: Decision, status: Status)
    requires x.id in b.requests
    ensures var t := SettlePermission(b.(out := b.out + pre), x, d, status);
            && t.out == b.out + (pre + [PermResolve(x.id, d), Settle(x.id, !d.Deny?, PermReason(d))])
            && t.requests == b.requests - {x.id}
            && t.completed == b.completed[x.id := Completed(b.requests[x.id], status, d)]
  {
  }

  lemma SettlePermissionFollows(b: Bridge, asks: seq<Ask>, e: Event, cfg: Config, pre: seq<Output>, x: Entry,
                                d: Decision, status: Status)
    requires Kept(b) && Knows(b, asks) && x in b.permPending
    requires SettledBy(asks, e, cfg, x.id, Completed(x.what.tool, status, d))
    requires pre == [] || (e.WebAnswers? && e.id == x.id && e.decision.Switch? && pre == [ModeChange(e.decision.mode)])
    ensures Follows(b, asks, e, cfg, SettlePermission(b.(out := b.out + pre), x, d, status))
  {
    assert x.id in IdSet(b.permPending);
    var t, c := SettlePermission(b.(out := b.out + pre), x, d, status), Completed(x.what.tool, status, d);
    PermissionEffect(b, pre, x, d, status);
    HookCompletionFollows(b, asks, e, cfg, pre, t, x.id, c, !d.Deny?, PermReason(d));
  }

  lemma SettleLocalFollows(b: Bridge, asks: seq<Ask>, e: Event, cfg: Config, x: Entry, d: Decision, status: Status)
    requires Kept(b) && Knows(b, asks) && x in b.local
    requires SettledBy(asks, e, cfg, x.id, Completed(x.what.tool, status, d))
    ensures var t := SettleLocal(b, x, d, status); Follows(b, asks, e, cfg, t) && Knows(t, asks)
  {
    assert x.id in IdSet(b.local);
    RestHolds(asks, b.local, x.id, false, false);
    var t := SettleLocal(b, x, d, status);
    assert t.out == b.out + [PermResolve(x.id, d)];
    CompletionFollows(b, asks, e, cfg, [PermResolve(x.id, d)], t, x.id, Completed(x.what.tool, status, d));
  }

  lemma NothingFollows(b: Bridge, asks: seq<Ask>, e: Event, cfg: Config)
    ensures Follows(b, asks, e, cfg, b)
  {
  }

  // --- each event ---

  lemma LocalAnswerFollows(b: Bridge, asks: seq<Ask>, x: Entry, d: Decision, wrote: bool, cfg: Config)
    requires Kept(b) && Knows(b, asks) && x in b.local
    ensures var t := ResolveLocal(b, x, d, wrote, cfg).0;
            Follows(b, asks, WebAnswers(x.id, d, wrote), cfg, t) && Knows(t, asks)
  {
    assert x.id in IdSet(b.local);
    var e := WebAnswers(x.id, d, wrote);
    var t := ResolveLocal(b, x, d, wrote, cfg).0;
    assert t.out == b.out || t.out == b.out + [Drive(x.id, d)];
  }

  lemma PermissionAnswerFollows(b: Bridge, asks: seq<Ask>, x: Entry, d: Decision, wrote: bool, cfg: Config)
    requires Kept(b) && Knows(b, asks) && x in b.permPending
    ensures var b1 := if d.Switch? then Emit(b, ModeChange(d.mode)) else b;
            var t := SettlePermission(b1, x, d, if d.Deny? then Denied else Approved);
            Follows(b, asks, WebAnswers(x.id, d, wrote), cfg, t) && Knows(t, asks)
  {
    assert x.id in IdSet(b.permPending);
    var pre := if d.Switch? then [ModeChange(d.mode)] else [];
    var status := if d.Deny? then Denied else Approved;
    SettlePermissionFollows(b, asks, WebAnswers(x.id, d, wrote), cfg, pre, x, d, status);
    SettlePermissionKnows(b.(out := b.out + pre), asks, x, d, status);
    assert b.(out := b.out + []) == b;
  }

  lemma WebAnswerFollows(b: Bridge, asks: seq<Ask>, id: ReqId, d: Decision, wrote: bool, cfg: Config)
    requires Kept(b) && Knows(b, asks)
    ensures var t := Resolve(b, id, d, wrote, cfg).0;
            Follows(b, asks, WebAnswers(id, d, wrote), cfg, t) && Knows(t, asks)
  {
    RemoveStore(b.local, id);
    RemoveStore(b.pending, id);
    RemoveStore(b.permPending, id);
    var e := WebAnswers(id, d, wrote);
    var local, question, perm := Find(b.local, id), Find(b.pending, id), Find(b.permPending, id);
    if local.Some? {
      LocalAnswerFollows(b, asks, local.value, d, wrote, cfg);
    } else if question.Some? {
      var x := question.value;
      assert id in IdSet(b.pending);
      SettleQuestionFollows(b, asks, e, cfg, x, d, Denied, QuestionReason(x.what.questions.value, d));
    } else if perm.Some? {
      PermissionAnswerFollows(b, asks, perm.value, d, wrote, cfg);
    } else {
      NothingFollows(b, asks, e, cfg);
    }
  }

  lemma TerminalFollows(b: Bridge, asks: seq<Ask>, tool: string, approved: bool, cfg: Config)
    requires Kept(b) && Knows(b, asks)
    ensures var t := LocalOutcome(b, tool, approved);
            Follows(b, asks, TerminalOutcome(tool, approved), cfg, t) && Knows(t, asks)
  {
    var k := OldestStore(b.local, tool);
    var e := TerminalOutcome(tool, approved);
    if k < |b.local| {
      assert b.local[k].id in IdSet(b.local);
      var d := if approved then Allow("once", NoUpdate) else Deny(Some("Resolved at the terminal."));
      SettleLocalFollows(b, asks, e, cfg, b.local[k], d, if approved then Approved else Denied);
    } else {
      NothingFollows(b, asks, e, cfg);
    }
  }

  lemma PermissionTimeOutFollows(b: Bridge, asks: seq<Ask>, x: Entry, cfg: Config)
    requires Kept(b) && Knows(b, asks) && x in b.permPending
    ensures var t := SettlePermission(b, x, Deny(Some(cfg.timeoutMessage)), Denied);
            Follows(b, asks, TimerFires(x.id), cfg, t) && Knows(t, asks)
  {
    assert x.id in IdSet(b.permPending);
    SettlePermissionFollows(b, asks, TimerFires(x.id), cfg, [], x, Deny(Some(cfg.timeoutMessage)), Denied);
    SettlePermissionKnows(b, asks, x, Deny(Some(cfg.timeoutMessage)), Denied);
    assert b.(out := b.out + []) == b;
  }

  lemma TimeOutFollows(b: Bridge, asks: seq<Ask>, id: ReqId, cfg: Config)
    requires Kept(b) && Knows(b, asks)
    ensures var t := TimeOut(b, id, cfg); Follows(b, asks, TimerFires(id), cfg, t) && Knows(t, asks)
  {
    RemoveStore(b.pending, id);
    RemoveStore(b.permPending, id);
    var e := TimerFires(id);
    var question, perm := Find(b.pending, id), Find(b.permPending, id);
    if question.Some? {
      assert id in IdSet(b.pending);
      SettleQuestionFollows(b, asks, e, cfg, question.value, Deny(Some(FALLBACK_REASON)), Denied, FALLBACK_REASON);
    } else if perm.Some? {
      PermissionTimeOutFollows(b, asks, perm.value, cfg);
    } else {
      NothingFollows(b, asks, e, cfg);
    }
  }

  lemma FollowsTrans(b: Bridge, asks: seq<Ask>, e: Event, cfg: Config, t: Bridge, u: Bridge)
    requires AskOf(e).None? && Follows(b, asks, e, cfg, t) && Follows(t, asks, e, cfg, u)
    requires b.requests.Keys !! b.completed.Keys
    ensures Follows(b, asks, e, cfg, u)
  {
    forall i | |b.out| <= i < |u.out|
      ensures Explains(b, asks, e, cfg, u, u.out[i])
    {
      if i < |t.out| {
        assert Explains(b, asks, e, cfg, t, t.out[i]);
      } else {
        assert Explains(t, asks, e, cfg, u, u.out[i]);
      }
    }
    forall id | id in u.completed && id !in b.completed
      ensures NewlySettled(b, asks, e, cfg, u, id)
    {
      if id in t.completed {
        assert NewlySettled(b, asks, e, cfg, t, id);
      }
    }
  }

  lemma {:induction false} CancelQuestionsFollows(b: Bridge, asks: seq<Ask>, reason: string, cfg: Config)
    requires Kept(b) && Knows(b, asks)
    ensures var t := CancelQuestions(b, reason); Follows(b, asks, Resets(reason), cfg, t) && Knows(t, asks)
    decreases |b.pending|
  {
    var e := Resets(reason);
    if b.pending == [] {
      NothingFollows(b, asks, e, cfg);
    } else {
      var d := Deny(Some(Guarded(reason)));
      assert b.pending[0].id in IdSet(b.pending);
      var b1 := SettleQuestion(b, b.pending[0], d, Canceled, Guarded(reason));
      SettleQuestionFollows(b, asks, e, cfg, b.pending[0], d, Canceled, Guarded(reason));
      SettleQuestionKept(b, b.pending[0], d, Canceled, Guarded(reason));
      CancelQuestionsFollows(b1, asks, reason, cfg);
      FollowsTrans(b, asks, e, cfg, b1, CancelQuestions(b1, reason));
    }
  }

  lemma {:induction false} CancelPermissionsFollows(b: Bridge, asks: seq<Ask>, reason: string, cfg: Config)
    requires Kept(b) && Knows(b, asks)
    ensures var t := CancelPermissions(b, reason); Follows(b, asks, Resets(reason), cfg, t) && Knows(t, asks)
    decreases |b.permPending|
  {
    var e := Resets(reason);
    if b.permPending == [] {
      NothingFollows(b, asks, e, cfg);
    } else {
      var d := Deny(Some(reason));
      assert b.permPending[0].id in IdSet(b.permPending);
      var b1 := SettlePermission(b, b.permPending[0], d, Canceled);
      assert b.(out := b.out + []) == b;
      SettlePermissionFollows(b, asks, e, cfg, [], b.permPending[0], d, Canceled);
      SettlePermissionKnows(b, asks, b.permPending[0], d, Canceled);
      SettlePermissionKept(b, b.permPending[0], d, Canceled);
      CancelPermissionsFollows(b1, asks, reason, cfg);
      FollowsTrans(b, asks, e, cfg, b1, CancelPermissions(b1, reason));
    }
  }

  lemma {:induction false} CancelLocalsFollows(b: Bridge, asks: seq<Ask>, reason: string, cfg: Config)
    requires Kept(b) && Knows(b, asks)
    ensures var t := CancelLocals(b, reason); Follows(b, asks, Resets(reason), cfg, t) && Knows(t, asks)
    decreases |b.local|
  {
    var e := Resets(reason);
    if b.local == [] {
      NothingFollows(b, asks, e, cfg);
    } else {
      var d := Deny(Some(Guarded(reason)));
      assert b.local[0].id in IdSet(b.local);
      var b1 := SettleLocal(b, b.local[0], d, Canceled);
      SettleLocalFollows(b, asks, e, cfg, b.local[0], d, Canceled);
      SettleLocalKept(b, b.local[0], d, Canceled);
      CancelLocalsFollows(b1, asks, reason, cfg);
      FollowsTrans(b, asks, e, cfg, b1, CancelLocals(b1, reason));
    }
  }

  lemma CancelHooksFollows(b: Bridge, asks: seq<Ask>, reason: string, cfg: Config)
    requires Kept(b) && Knows(b, asks)
    ensures var t := CancelPermissions(CancelQuestions(b, reason), reason);
            Follows(b, asks, Resets(reason), cfg, t) && Knows(t, asks) && Kept(t)
  {
    CancelQuestionsFollows(b, asks, reason, cfg);
    CancelQuestionsKept(b, reason);
    var b1 := CancelQuestions(b, reason);
    CancelPermissionsFollows(b1, asks, reason, cfg);
    CancelPermissionsKept(b1, reason);
    FollowsTrans(b, asks, Resets(reason), cfg, b1, CancelPermissions(b1, reason));
  }

  // Which prompts have been typed into is nobody else's business.
  lemma DrivenAside(b: Bridge, asks: seq<Ask>, e: Event, cfg: Config, t: Bridge)
    requires Follows(b, asks, e, cfg, t) && Knows(t, asks)
    ensures Follows(b, asks, e, cfg, t.(driven := {})) && Knows(t.(driven := {}), asks)
  {
    var u := t.(driven := {});
    forall i | |b.out| <= i < |u.out|
      ensures Explains(b, asks, e, cfg, u, u.out[i])
    {
      assert Explains(b, asks, e, cfg, t, t.out[i]);
    }
    forall id | id in u.completed && id !in b.completed
      ensures NewlySettled(b, asks, e, cfg, u, id)
    {
      assert NewlySettled(b, asks, e, cfg, t, id);
    }
  }

  lemma ResetFollows(b: Bridge, asks: seq<Ask>, reason: string, cfg: Config)
    requires Kept(b) && Knows(b, asks)
    ensures Follows(b, asks, Resets(reason), cfg, Reset(b, reason)) && Knows(Reset(b, reason), asks)
  {
    CancelHooksFollows(b, asks, reason, cfg);
    var b1 := CancelPermissions(CancelQuestions(b, reason), reason);
    CancelLocalsFollows(b1, asks, reason, cfg);
    FollowsTrans(b, asks, Resets(reason), cfg, b1, CancelLocals(b1, reason));
    DrivenAside(b, asks, Resets(reason), cfg, CancelLocals(b1, reason));
  }

  lemma StepFollows(b: Bridge, asks: seq<Ask>, e: Event, cfg: Config)
    requires Kept(b) && Knows(b, asks)
    ensures Follows(b, asks, e, cfg, Step(b, e, cfg)) && Knows(Step(b, e, cfg), asks + Opens(e))
  {
    assert asks + [] == asks;
    match e {
      case HookPreToolUse(_, _, _) => HookFollows(b, asks, e, cfg);
      case HookPermission(_, _) => HookFollows(b, asks, e, cfg);
      case WebAnswers(id, d, wrote) => WebAnswerFollows(b, asks, id, d, wrote, cfg);
      case TerminalOutcome(tool, approved) => TerminalFollows(b, asks, tool, approved, cfg);
      case TimerFires(id) => TimeOutFollows(b, asks, id, cfg);
      case Resets(reason) => ResetFollows(b, asks, reason, cfg);
    }
  }

  // --- every run ---

  lemma {:induction false} RunLast(b: Bridge, es: seq<Event>, e: Event, cfg: Config)
    ensures Run(b, es + [e], cfg) == Step(Run(b, es, cfg), e, cfg)
    decreases |es|
  {
    if es == [] {
      assert ([] + [e])[1..] == [];
    } else {
      assert (es + [e])[1..] == es[1..] + [e];
      RunLast(Step(b, es[0], cfg), es[1..], e, cfg);
    }
  }

  lemma {:induction false} RunKnows(es: seq<Event>, cfg: Config)
    ensures Knows(Run(FRESH, es, cfg), Asks(es))
    decreases |es|
  {
    if es != [] {
      var before, e := es[..|es| - 1], es[|es| - 1];
      assert es == before + [e];
      RunKnows(before, cfg);
      RequestsConserved(before, cfg);
      RunLast(FRESH, before, e, cfg);
      StepFollows(Run(FRESH, before, cfg), Asks(before), e, cfg);
    }
  }

  // Main result: at any point of any run, what the next event sends and records is what that event and
  // the hooks' own calls call for. Timeouts and resets record a deny, and settle a blocked hook with one;
  // a web answer records its own decision, and allows a permission hook exactly when it does not deny; a
  // question's hook is always denied, with the answer as reason; what was left to the terminal completes
  // as the terminal says.
  lemma EverySettlementFits(es: seq<Event>, e: Event, cfg: Config)
    ensures Follows(Run(FRESH, es, cfg), Asks(es), e, cfg, Run(FRESH, es + [e], cfg))
  {
    RunKnows(es, cfg);
    RequestsConserved(es, cfg);
    RunLast(FRESH, es, e, cfg);
    StepFollows(Run(FRESH, es, cfg), Asks(es), e, cfg);
  }

  // The web allowed request id, a blocked permission prompt, at some point.
  ghost predicate AllowedByWeb(es: seq<Event>, id: ReqId) {
    id < |Asks(es)| && Asks(es)[id].web && Asks(es)[id].questions.None? &&
    exists k, d, wrote :: 0 <= k < |es| && es[k] == WebAnswers(id, d, wrote) && !d.Deny?
  }

  // Main result: on every run, a hook is only ever told to go ahead when the web answered that very
  // request with something other than a deny.
  lemma {:induction false} AllowedOnlyByAnswer(es: seq<Event>, cfg: Config, id: ReqId, reason: string)
    requires Settle(id, true, reason) in Run(FRESH, es, cfg).out
    ensures AllowedByWeb(es, id)
    decreases |es|
  {
    if es != [] {
      var before, e := es[..|es| - 1], es[|es| - 1];
      assert es == before + [e];
      EverySettlementFits(before, e, cfg);
      var b, t := Run(FRESH, before, cfg), Run(FRESH, es, cfg);
      if Settle(id, true, reason) in b.out {
        AllowedOnlyByAnswer(before, cfg, id, reason);
        var k, d, wrote :| 0 <= k < |before| && before[k] == WebAnswers(id, d, wrote) && !d.Deny?;
        assert es[k] == WebAnswers(id, d, wrote);
      } else {
        var i :| 0 <= i < |t.out| && t.out[i] == Settle(id, true, reason);
        assert Explains(b, Asks(before), e, cfg, t, t.out[i]);
        assert es[|es| - 1] == e;
      }
    }
  }

  // Request id is open, and blocks a hook or waits at the terminal for a tool's prompt.
  predicate Blocks(b: Bridge, asks: seq<Ask>, id: ReqId) {
    id in b.requests && id < |asks| && asks[id].web
  }

  predicate WaitsAtTerminal(b: Bridge, asks: seq<Ask>, id: ReqId, tool: string) {
    id in b.requests && id < |asks| && !asks[id].web && asks[id].tool == tool
  }

  lemma StoredAt(ts: seq<Entry>, id: ReqId) returns (e: Entry)
    requires id in IdSet(ts)
    ensures e in ts && e.id == id
  {
    var i :| 0 <= i < |ts| && ts[i].id == id;
    e := ts[i];
  }

  lemma TimeOutSettles(b: Bridge, asks: seq<Ask>, id: ReqId, cfg: Config)
    requires Kept(b) && Knows(b, asks) && Blocks(b, asks, id)
    ensures id in TimeOut(b, id, cfg).completed
  {
    if id in IdSet(b.local) {
      var e := StoredAt(b.local, id);
    }
    RemoveStore(b.pending, id);
    RemoveStore(b.permPending, id);
  }

  // Main result: a timeout always settles the hook it was armed for.
  lemma TimerSettles(es: seq<Event>, cfg: Config, id: ReqId)
    requires Blocks(Run(FRESH, es, cfg), Asks(es), id)
    ensures id in Run(FRESH, es + [TimerFires(id)], cfg).completed
  {
    RunKnows(es, cfg);
    RequestsConserved(es, cfg);
    RunLast(FRESH, es, TimerFires(id), cfg);
    TimeOutSettles(Run(FRESH, es, cfg), Asks(es), id, cfg);
  }

  // --- the terminal's outcomes go to the oldest prompt of their tool ---

  predicate Ascending(ts: seq<Entry>) {
    forall i, j :: 0 <= i < j < |ts| ==> ts[i].id < ts[j].id
  }

  lemma PrependAscending(t: Entry, rest: seq<Entry>, ts: seq<Entry>)
    requires Ascending(ts) && ts != [] && ts[0] == t && Ascending(rest) && forall x :: x in rest ==> x in ts[1..]
    ensures Ascending([t] + rest) && forall x :: x in [t] + rest ==> x in ts
  {
    forall i | 0 <= i < |rest|
      ensures t.id < rest[i].id
    {
      assert rest[i] in ts[1..];
    }
  }

  lemma {:induction false} RemoveAscending(ts: seq<Entry>, id: ReqId)
    requires Ascending(ts)
    ensures Ascending(Remove(ts, id)) && forall t :: t in Remove(ts, id) ==> t in ts
  {
    if ts != [] && ts[0].id != id {
      RemoveAscending(ts[1..], id);
      PrependAscending(ts[0], Remove(ts[1..], id), ts);
    }
  }

  lemma WaitAscending(b: Bridge, e: Entry, answerable: bool)
    requires Stores(b) && Minted(b) && Ascending(b.local) && e.id == b.nextId
    ensures Ascending(WaitLocally(Opened(b, e.what.tool, answerable), e).local)
  {
    assert forall i :: 0 <= i < |b.local| ==> b.local[i].id in IdSet(b.local);
  }

  lemma HookAscending(b: Bridge, e: Event, cfg: Config)
    requires Kept(b) && Ascending(b.local) && (e.HookPreToolUse? || e.HookPermission?)
    ensures Ascending(Step(b, e, cfg).local)
  {
    if e.HookPreToolUse? {
      WaitAscending(b, Ticket(b.nextId, Prompt(e.tool, Some(e.questions), false)), e.web || cfg.drivesQuestions);
    } else {
      WaitAscending(b, Ticket(b.nextId, Prompt(e.tool, None, true)), e.web || cfg.drivesDialogs);
    }
  }

  lemma StepAscending(b: Bridge, e: Event, cfg: Config)
    requires Kept(b) && Ascending(b.local)
    ensures Ascending(Step(b, e, cfg).local)
  {
    match e {
      case HookPreToolUse(_, _, _) => HookAscending(b, e, cfg);
      case HookPermission(_, _) => HookAscending(b, e, cfg);
      case TerminalOutcome(tool, _) =>
        if Oldest(b.local, tool).Some? {
          RemoveAscending(b.local, Oldest(b.local, tool).value.id);
        }
      case Resets(reason) => ResetLeavesNothingOpen(b, reason);
      case _ =>
    }
  }

  lemma {:induction false} RunAscending(es: seq<Event>, cfg: Config)
    ensures Ascending(Run(FRESH, es, cfg).local)
    decreases |es|
  {
    if es != [] {
      var before, e := es[..|es| - 1], es[|es| - 1];
      assert es == before + [e];
      RunAscending(before, cfg);
      RequestsConserved(before, cfg);
      RunLast(FRESH, before, e, cfg);
      StepAscending(Run(FRESH, before, cfg), e, cfg);
    }
  }

  lemma OutcomeSettles(b: Bridge, asks: seq<Ask>, id: ReqId, tool: string, approved: bool)
    requires Kept(b) && Knows(b, asks) && Ascending(b.local) && WaitsAtTerminal(b, asks, id, tool)
    requires forall x :: WaitsAtTerminal(b, asks, x, tool) ==> id <= x
    ensures id in LocalOutcome(b, tool, approved).completed
  {
    if id in IdSet(b.pending) {
      var e := StoredAt(b.pending, id);
    }
    if id in IdSet(b.permPending) {
      var e := StoredAt(b.permPending, id);
    }
    var e := StoredAt(b.local, id);
    var i :| 0 <= i < |b.local| && b.local[i] == e;
    var k := OldestStore(b.local, tool);
    assert k <= i;
    assert b.local[k] in b.local && b.local[k].id in IdSet(b.local);
    assert WaitsAtTerminal(b, asks, b.local[k].id, tool);
  }

  // Main result: an outcome at the terminal completes the oldest of the prompts left to it for that tool.
  lemma OutcomeSettlesOldest(es: seq<Event>, cfg: Config, id: ReqId, tool: string, approved: bool)
    requires var b := Run(FRESH, es, cfg);
             WaitsAtTerminal(b, Asks(es), id, tool) &&
             forall x :: WaitsAtTerminal(b, Asks(es), x, tool) ==> id <= x
    ensures id in Run(FRESH, es + [TerminalOutcome(tool, approved)], cfg).completed
  {
    RunKnows(es, cfg);
    RunAscending(es, cfg);
    RequestsConserved(es, cfg);
    RunLast(FRESH, es, TerminalOutcome(tool, approved), cfg);
    OutcomeSettles(Run(FRESH, es, cfg), Asks(es), id, tool, approved);
  }
}
