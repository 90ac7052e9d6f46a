// On every run of the permission bridge each request is open in exactly one place or completed, is
// resolved on the wire exactly once, and settles its blocked hook exactly once.
module BridgeRuns {
  import opened Requests
  import opened Wrappers
  import opened PermissionBridge

  // --- counting what went out ---

  datatype Kind = Requested | Resolved | Settled | Driven

  predicate Counts(o: Output, k: Kind, id: ReqId) {
    match o
    case PermRequest(i, _, _) => k.Requested? && i == id
    case PermResolve(i, _) => k.Resolved? && i == id
    case Settle(i, _, _) => k.Settled? && i == id
    case Drive(i, _) => k.Driven? && i == id
    case _ => false
  }

  function N(out: seq<Output>, k: Kind, id: ReqId): nat {
    if out == [] then 0 else N(out[..|out| - 1], k, id) + if Counts(out[|out| - 1], k, id) then 1 else 0
  }

  lemma EmitN(b: Bridge, o: Output)
    ensures forall k, id: ReqId :: N(Emit(b, o).out, k, id) == N(b.out, k, id) + if Counts(o, k, id) then 1 else 0
  {
  }

  // --- the invariant ---

  // Open requests are the disjoint union of the three stores, apart from the completed ones; exactly
  // the blocked ones have a timer armed.
  ghost predicate Stores(b: Bridge) {
    var A, P, L := IdSet(b.pending), IdSet(b.permPending), IdSet(b.local);
    Unique(b.pending) && Unique(b.permPending) && Unique(b.local) &&
    A !! P && A !! L && P !! L && b.requests.Keys == A + P + L && b.requests.Keys !! b.completed.Keys &&
    b.timers == A + P && b.driven <= L && A + P <= b.blocked && L !! b.blocked &&
    (forall e :: e in b.pending ==> e.what.questions.Some?)
  }

  // Every id handed out is open or completed.
  ghost predicate Minted(b: Bridge) {
    (forall id: ReqId :: id in b.requests || id in b.completed <==> id < b.nextId) &&
    (forall id: ReqId :: id in b.blocked ==> id < b.nextId)
  }

  // One perm-request per id; one perm-resolve when it completes, carrying the decision on record; one
  // settlement for a blocked hook then; at most one drive, of a local request.
  ghost predicate Tallied(b: Bridge) {
    (forall id: ReqId :: N(b.out, Requested, id) == if id < b.nextId then 1 else 0) &&
    (forall id: ReqId :: N(b.out, Resolved, id) == if id in b.completed then 1 else 0) &&
    (forall id: ReqId :: N(b.out, Settled, id) == if id in b.blocked && id in b.completed then 1 else 0) &&
    (forall id: ReqId :: N(b.out, Driven, id) <= if id < b.nextId && id !in b.blocked then 1 else 0) &&
    (forall id: ReqId :: id in b.requests && id !in b.driven ==> N(b.out, Driven, id) == 0)
  }

  // The decision on record is the one the wire was told.
  ghost predicate Recorded(b: Bridge) {
    forall id: ReqId :: id in b.completed ==> PermResolve(id, b.completed[id].decision) in b.out
  }

  ghost predicate Kept(b: Bridge) {
    Stores(b) && Minted(b) && Tallied(b) && Recorded(b)
  }

  // --- the stores ---

  // The oldest entry for a tool: everything before it is for another tool.
  lemma {:induction false} OldestStore(es: seq<Entry>, tool: string) returns (k: nat)
    ensures k <= |es| && (Oldest(es, tool).Some? <==> k < |es|)
    ensures k < |es| ==> Oldest(es, tool) == Some(es[k]) && es[k].what.tool == tool
    ensures forall j :: 0 <= j < k ==> es[j].what.tool != tool
  {
    k := 0;
    if es != [] && es[0].what.tool != tool {
      var k1 := OldestStore(es[1..], tool);
      k := k1 + 1;
      assert forall j :: 1 <= j < k ==> es[j] == es[1..][j - 1];
    }
  }

  // --- requests open ---

  // An output that belongs to no request.
  lemma AsideKept(b: Bridge, o: Output)
    requires Kept(b) && (o.ModeChange? || o.PromptLikely?)
    ensures Kept(Emit(b, o))
  {
    EmitN(b, o);
  }

  lemma OpenedTallied(b: Bridge, tool: string, answerable: bool)
    requires Minted(b) && Tallied(b) && Recorded(b)
    ensures var b1 := Opened(b, tool, answerable); Minted(b1) && Tallied(b1) && Recorded(b1)
  {
    var b1 := b.(requests := b.requests[b.nextId := tool], nextId := b.nextId + 1);
    EmitN(b1, PermRequest(b.nextId, tool, answerable));
  }

  lemma BlockTallied(b: Bridge, tool: string, answerable: bool)
    requires Minted(b) && Tallied(b) && Recorded(b)
    ensures var b1 := Opened(b, tool, answerable); var b2 := b1.(blocked := b1.blocked + {b.nextId});
            Minted(b2) && Tallied(b2) && Recorded(b2)
  {
    OpenedTallied(b, tool, answerable);
    assert N(b.out, Driven, b.nextId) == 0;
    var b1 := b.(requests := b.requests[b.nextId := tool], nextId := b.nextId + 1);
    EmitN(b1, PermRequest(b.nextId, tool, answerable));
  }

  lemma WaitLocallyKept(b: Bridge, e: Entry, answerable: bool)
    requires Kept(b) && e.id == b.nextId
    ensures Kept(WaitLocally(Opened(b, e.what.tool, answerable), e))
  {
    OpenedTallied(b, e.what.tool, answerable);
    var b1 := Opened(b, e.what.tool, answerable);
    AddStore(b.local, e);
    AsideKept(b1.(local := b1.local + [e]), PromptLikely);
  }

  lemma BlockQuestionKept(b: Bridge, e: Entry, answerable: bool)
    requires Kept(b) && e.id == b.nextId && e.what.questions.Some?
    ensures Kept(BlockQuestion(Opened(b, e.what.tool, answerable), e))
  {
    BlockTallied(b, e.what.tool, answerable);
    AddStore(b.pending, e);
  }

  lemma BlockPermissionKept(b: Bridge, e: Entry, answerable: bool)
    requires Kept(b) && e.id == b.nextId
    ensures Kept(BlockPermission(Opened(b, e.what.tool, answerable), e))
  {
    BlockTallied(b, e.what.tool, answerable);
    AddStore(b.permPending, e);
  }

  lemma AskQuestionKept(b: Bridge, tool: string, questions: seq<string>, web: bool, cfg: Config)
    requires Kept(b)
    ensures Kept(AskQuestion(b, tool, questions, web, cfg))
  {
    var e := Ticket(b.nextId, Prompt(tool, Some(questions), false));
    BlockQuestionKept(b, e, web || cfg.drivesQuestions);
    WaitLocallyKept(b, e, web || cfg.drivesQuestions);
  }

  lemma AskPermissionKept(b: Bridge, tool: string, web: bool, cfg: Config)
    requires Kept(b)
    ensures Kept(AskPermission(b, tool, web, cfg))
  {
    var e := Ticket(b.nextId, Prompt(tool, None, true));
    BlockPermissionKept(b, e, web || cfg.drivesDialogs);
    WaitLocallyKept(b, e, web || cfg.drivesDialogs);
  }

  lemma PreToolUseKept(b: Bridge, tool: string, questions: seq<string>, web: bool, cfg: Config)
    requires Kept(b)
    ensures Kept(PreToolUse(b, tool, questions, web, cfg))
  {
    AskQuestionKept(b, tool, questions, web, cfg);
    AsideKept(b, PromptLikely);
  }

  // --- requests complete ---

  lemma FinishN(b: Bridge, id: ReqId, decision: Decision, status: Status)
    ensures forall k, i: ReqId ::
              N(Finish(b, id, decision, status).out, k, i) == N(b.out, k, i) + if k.Resolved? && i == id then 1 else 0
  {
  }

  // A local request completes: resolved on the wire, and no hook to settle.
  lemma FinishLocalTallied(b: Bridge, id: ReqId, decision: Decision, status: Status)
    requires Minted(b) && Tallied(b) && Recorded(b) && id in b.requests && id !in b.completed && id !in b.blocked
    ensures var r := Finish(b.(driven := b.driven - {id}), id, decision, status); Minted(r) && Tallied(r) && Recorded(r)
  {
    FinishN(b.(driven := b.driven - {id}), id, decision, status);
  }

  // A blocked request completes: resolved on the wire, and its hook settled.
  lemma FinishBlockedTallied(b: Bridge, id: ReqId, decision: Decision, status: Status, allowed: bool, reason: string)
    requires Minted(b) && Tallied(b) && Recorded(b) && id in b.requests && id !in b.completed && id in b.blocked
    ensures var r := Emit(Finish(b, id, decision, status), Settle(id, allowed, reason));
            Minted(r) && Tallied(r) && Recorded(r)
  {
    FinishN(b, id, decision, status);
    EmitN(Finish(b, id, decision, status), Settle(id, allowed, reason));
  }

  lemma SettleQuestionStores(b: Bridge, e: Entry, decision: Decision, status: Status, reason: string)
    requires Stores(b) && e in b.pending
    ensures Stores(SettleQuestion(b, e, decision, status, reason))
  {
    RemoveStore(b.pending, e.id);
    assert e.id in IdSet(b.pending);
  }

  lemma SettleQuestionKept(b: Bridge, e: Entry, decision: Decision, status: Status, reason: string)
    requires Kept(b) && e in b.pending
    ensures Kept(SettleQuestion(b, e, decision, status, reason))
  {
    assert e.id in IdSet(b.pending);
    SettleQuestionStores(b, e, decision, status, reason);
    var b1 := b.(pending := Remove(b.pending, e.id), timers := b.timers - {e.id});
    FinishBlockedTallied(b1, e.id, decision, status, false, reason);
  }

  lemma SettlePermissionStores(b: Bridge, e: Entry, decision: Decision, status: Status)
    requires Stores(b) && e in b.permPending
    ensures Stores(SettlePermission(b, e, decision, status))
  {
    RemoveStore(b.permPending, e.id);
    assert e.id in IdSet(b.permPending);
  }

  lemma SettlePermissionKept(b: Bridge, e: Entry, decision: Decision, status: Status)
    requires Kept(b) && e in b.permPending
    ensures Kept(SettlePermission(b, e, decision, status))
  {
    assert e.id in IdSet(b.permPending);
    SettlePermissionStores(b, e, decision, status);
    var b1 := b.(permPending := Remove(b.permPending, e.id), timers := b.timers - {e.id});
    FinishBlockedTallied(b1, e.id, decision, status, !decision.Deny?, PermReason(decision));
  }

  lemma SettleLocalStores(b: Bridge, e: Entry, decision: Decision, status: Status)
    requires Stores(b) && e in b.local
    ensures Stores(SettleLocal(b, e, decision, status))
  {
    RemoveStore(b.local, e.id);
    assert e.id in IdSet(b.local);
  }

  lemma SettleLocalKept(b: Bridge, e: Entry, decision: Decision, status: Status)
    requires Kept(b) && e in b.local
    ensures Kept(SettleLocal(b, e, decision, status))
  {
    assert e.id in IdSet(b.local);
    SettleLocalStores(b, e, decision, status);
    FinishLocalTallied(b.(local := Remove(b.local, e.id)), e.id, decision, status);
  }

  lemma ResolveLocalKept(b: Bridge, e: Entry, decision: Decision, wrote: bool, cfg: Config)
    requires Kept(b) && e in b.local
    ensures Kept(ResolveLocal(b, e, decision, wrote, cfg).0)
  {
    assert e.id in IdSet(b.local);
    EmitN(b.(driven := b.driven + {e.id}), Drive(e.id, decision));
  }

  lemma ResolveKept(b: Bridge, id: ReqId, decision: Decision, wrote: bool, cfg: Config)
    requires Kept(b)
    ensures Kept(Resolve(b, id, decision, wrote, cfg).0)
  {
    RemoveStore(b.local, id);
    RemoveStore(b.pending, id);
    RemoveStore(b.permPending, id);
    var local, question, perm := Find(b.local, id), Find(b.pending, id), Find(b.permPending, id);
    if local.Some? {
      ResolveLocalKept(b, local.value, decision, wrote, cfg);
    } else if question.Some? {
      var reason := QuestionReason(question.value.what.questions.value, decision);
      SettleQuestionKept(b, question.value, decision, Denied, reason);
    } else if perm.Some? {
      var b1 := if decision.Switch? then Emit(b, ModeChange(decision.mode)) else b;
      if decision.Switch? {
        AsideKept(b, ModeChange(decision.mode));
      }
      SettlePermissionKept(b1, perm.value, decision, if decision.Deny? then Denied else Approved);
    }
  }

  lemma LocalOutcomeKept(b: Bridge, tool: string, approved: bool)
    requires Kept(b)
    ensures Kept(LocalOutcome(b, tool, approved))
  {
    var k := OldestStore(b.local, tool);
    if Oldest(b.local, tool).Some? {
      SettleLocalKept(b, Oldest(b.local, tool).value,
                      if approved then Allow("once", NoUpdate) else Deny(Some("Resolved at the terminal.")),
                      if approved then Approved else Denied);
    }
  }

  lemma TimeOutKept(b: Bridge, id: ReqId, cfg: Config)
    requires Kept(b)
    ensures Kept(TimeOut(b, id, cfg))
  {
    RemoveStore(b.pending, id);
    RemoveStore(b.permPending, id);
    var question, perm := Find(b.pending, id), Find(b.permPending, id);
    if question.Some? {
      SettleQuestionKept(b, question.value, Deny(Some(FALLBACK_REASON)), Denied, FALLBACK_REASON);
    } else if perm.Some? {
      SettlePermissionKept(b, perm.value, Deny(Some(cfg.timeoutMessage)), Denied);
    }
  }

  lemma {:induction false} CancelQuestionsKept(b: Bridge, reason: string)
    requires Kept(b)
    ensures Kept(CancelQuestions(b, reason)) && CancelQuestions(b, reason).pending == []
    decreases |b.pending|
  {
    if b.pending != [] {
      SettleQuestionKept(b, b.pending[0], Deny(Some(Guarded(reason))), Canceled, Guarded(reason));
      var b1 := SettleQuestion(b, b.pending[0], Deny(Some(Guarded(reason))), Canceled, Guarded(reason));
      CancelQuestionsKept(b1, reason);
    }
  }

  lemma {:induction false} CancelPermissionsKept(b: Bridge, reason: string)
    requires Kept(b)
    ensures var r := CancelPermissions(b, reason); Kept(r) && r.permPending == [] && r.pending == b.pending
    decreases |b.permPending|
  {
    if b.permPending != [] {
      SettlePermissionKept(b, b.permPending[0], Deny(Some(reason)), Canceled);
      CancelPermissionsKept(SettlePermission(b, b.permPending[0], Deny(Some(reason)), Canceled), reason);
    }
  }

  lemma {:induction false} CancelLocalsKept(b: Bridge, reason: string)
    requires Kept(b)
    ensures var r := CancelLocals(b, reason);
            Kept(r) && r.local == [] && r.pending == b.pending && r.permPending == b.permPending
    decreases |b.local|
  {
    if b.local != [] {
      SettleLocalKept(b, b.local[0], Deny(Some(Guarded(reason))), Canceled);
      CancelLocalsKept(SettleLocal(b, b.local[0], Deny(Some(Guarded(reason))), Canceled), reason);
    }
  }

  // Main result: a reset leaves no request open, no hook blocked and no timer armed.
  lemma ResetLeavesNothingOpen(b: Bridge, reason: string)
    requires Kept(b)
    ensures var r := Reset(b, reason);
            Kept(r) && r.pending == [] && r.permPending == [] && r.local == [] &&
            r.requests == map[] && r.timers == {} && r.driven == {}
    ensures forall id: ReqId :: id < Reset(b, reason).nextId ==>
              N(Reset(b, reason).out, Resolved, id) == 1 &&
              (id in Reset(b, reason).blocked ==> N(Reset(b, reason).out, Settled, id) == 1)
  {
    CancelQuestionsKept(b, reason);
    var b1 := CancelQuestions(b, reason);
    CancelPermissionsKept(b1, reason);
    var b2 := CancelPermissions(b1, reason);
    CancelLocalsKept(b2, reason);
    var r := CancelLocals(b2, reason);
    assert IdSet(r.local) == {};
    assert r.requests.Keys == {};
  }

  lemma StepKept(b: Bridge, e: Event, cfg: Config)
    requires Kept(b)
    ensures Kept(Step(b, e, cfg))
  {
    match e {
      case HookPreToolUse(tool, questions, web) => PreToolUseKept(b, tool, questions, web, cfg);
      case HookPermission(tool, web) => AskPermissionKept(b, tool, web, cfg);
      case WebAnswers(id, decision, wrote) => ResolveKept(b, id, decision, wrote, cfg);
      case TerminalOutcome(tool, approved) => LocalOutcomeKept(b, tool, approved);
      case TimerFires(id) => TimeOutKept(b, id, cfg);
      case Resets(reason) => ResetLeavesNothingOpen(b, reason);
    }
  }

  lemma FreshKept()
    ensures Kept(FRESH)
  {
  }

  lemma {:induction false} RunKept(b: Bridge, es: seq<Event>, cfg: Config)
    requires Kept(b)
    ensures Kept(Run(b, es, cfg))
    decreases |es|
  {
    if es != [] {
      StepKept(b, es[0], cfg);
      RunKept(Step(b, es[0], cfg), es[1..], cfg);
    }
  }

  // Main result: on every run, however answers, terminal outcomes, timeouts and resets race.
  lemma RequestsConserved(es: seq<Event>, cfg: Config)
    ensures Kept(Run(FRESH, es, cfg))
  {
    FreshKept();
    RunKept(FRESH, es, cfg);
  }

  // --- first answer wins ---

  // Main result: the first web answer to a blocked permission hook wins: it is recorded, told to the
  // wire and settles the hook, allowing the call unless the answer denies it.
  lemma FirstPermissionAnswerWins(b: Bridge, id: ReqId, decision: Decision, wrote: bool, cfg: Config)
    requires Kept(b) && id in IdSet(b.permPending)
    ensures var (r, result) := Resolve(b, id, decision, wrote, cfg);
            result == Ok && id !in r.requests && id !in r.timers &&
            id in r.completed && r.completed[id].decision == decision &&
            r.out == b.out + (if decision.Switch? then [ModeChange(decision.mode)] else [])
                           + [PermResolve(id, decision), Settle(id, !decision.Deny?, PermReason(decision))]
  {
    RemoveStore(b.local, id);
    RemoveStore(b.pending, id);
    RemoveStore(b.permPending, id);
    var b1 := if decision.Switch? then Emit(b, ModeChange(decision.mode)) else b;
    SettlePermissionOut(b1, Find(b.permPending, id).value, decision, if decision.Deny? then Denied else Approved);
  }

  lemma SettlePermissionOut(b: Bridge, e: Entry, decision: Decision, status: Status)
    requires e.id in b.requests
    ensures var r := SettlePermission(b, e, decision, status);
            r.out == b.out + [PermResolve(e.id, decision), Settle(e.id, !decision.Deny?, PermReason(decision))] &&
            e.id !in r.requests && e.id !in r.timers && e.id in r.completed && r.completed[e.id].decision == decision
  {
  }

  // Main result: so does the first web answer to a blocked question, whose hook is always denied: the
  // widget never renders, and the model reads the answer in the reason.
  lemma FirstQuestionAnswerWins(b: Bridge, id: ReqId, decision: Decision, wrote: bool, cfg: Config)
    requires Kept(b) && id in IdSet(b.pending)
    ensures var (r, result) := Resolve(b, id, decision, wrote, cfg);
            var asked := Find(b.pending, id);
            result == Ok && id !in r.requests && id !in r.timers &&
            id in r.completed && r.completed[id].decision == decision &&
            asked.Some? && asked.value.what.questions.Some? &&
            r.out == b.out + [PermResolve(id, decision),
                              Settle(id, false, QuestionReason(asked.value.what.questions.value, decision))]
  {
    RemoveStore(b.local, id);
    RemoveStore(b.pending, id);
    var e := Find(b.pending, id).value;
    SettleQuestionOut(b, e, decision, Denied, QuestionReason(e.what.questions.value, decision));
  }

  lemma SettleQuestionOut(b: Bridge, e: Entry, decision: Decision, status: Status, reason: string)
    requires e.id in b.requests
    ensures var r := SettleQuestion(b, e, decision, status, reason);
            r.out == b.out + [PermResolve(e.id, decision), Settle(e.id, false, reason)] &&
            e.id !in r.requests && e.id !in r.timers && e.id in r.completed && r.completed[e.id].decision == decision
  {
  }

  // Main result: a later answer to a completed request changes nothing and learns the decision that
  // won, the one the wire was told.
  lemma LosingAnswerLearnsWinner(b: Bridge, id: ReqId, decision: Decision, wrote: bool, cfg: Config)
    requires Kept(b) && id in b.completed
    ensures Resolve(b, id, decision, wrote, cfg) == (b, AlreadyAnswered(Some(b.completed[id].decision)))
    ensures PermResolve(id, b.completed[id].decision) in b.out
  {
    RemoveStore(b.local, id);
    RemoveStore(b.pending, id);
    RemoveStore(b.permPending, id);
  }

  // Main result: a web answer to a terminal prompt never completes it; it is typed in at most once.
  lemma LocalAnswers(b: Bridge, id: ReqId, decision: Decision, wrote: bool, cfg: Config)
    requires Kept(b) && id in b.requests && id !in b.blocked
    ensures var (r, result) := Resolve(b, id, decision, wrote, cfg);
            r.requests == b.requests && r.completed == b.completed &&
            (result == Ok <==> N(r.out, Driven, id) == N(b.out, Driven, id) + 1) && N(r.out, Driven, id) <= 1 &&
            (id in b.driven ==> result == AlreadyAnswered(None))
  {
    RemoveStore(b.local, id);
    ResolveKept(b, id, decision, wrote, cfg);
    EmitN(b.(driven := b.driven + {id}), Drive(id, decision));
  }
}
