// The permission bridge (packages/cli/src/claude/pretoolPermissionBridge.ts): hook calls become
// requests that the web or the terminal answers, first answer wins, against timeouts and reset.
module PermissionBridge {
  import opened Requests
  import opened Wrappers

  type Mode = string

  datatype Update = NoUpdate | Edited | Answers(answers: map<string, string>)
  datatype Decision = Allow(scope: string, updated: Update) | Deny(message: Option<string>) | Switch(mode: Mode)
  datatype Status = Approved | Denied | Canceled

  // One open request. A question carries its questions; a local permission prompt may be driven.
  datatype Prompt = Prompt(tool: string, questions: Option<seq<string>>, drivable: bool)
  type Entry = Ticket<Prompt>

  datatype Completed = Completed(tool: string, status: Status, decision: Decision)

  datatype Output =
    | PermRequest(id: ReqId, tool: string, answerable: bool)
    | PermResolve(id: ReqId, decision: Decision)
    | Settle(id: ReqId, allowed: bool, reason: string)
    | Drive(id: ReqId, decision: Decision)
    | ModeChange(mode: Mode)
    | PromptLikely

  // `pending` holds blocked question hooks, `permPending` blocked permission hooks, and `local` the
  // prompts a terminal dialog owns; maps in the program keep insertion order, as these do. `timers`
  // are the armed answer timeouts; `blocked` is the history of ids that ever blocked a hook.
  datatype Bridge = Bridge(
    pending: seq<Entry>, permPending: seq<Entry>, local: seq<Entry>, driven: set<ReqId>,
    requests: map<ReqId, string>, completed: map<ReqId, Completed>, timers: set<ReqId>,
    nextId: ReqId, out: seq<Output>, blocked: set<ReqId>)

  const FRESH := Bridge([], [], [], {}, map[], map[], {}, 0, [], {})

  // Which driver callbacks the session has wired, and the text of an expired permission request.
  datatype Config = Config(drivesDialogs: bool, drivesQuestions: bool, timeoutMessage: string)

  datatype Result = Ok | AlreadyAnswered(decision: Option<Decision>) | LocalTurn

  function IsAskUserQuestion(tool: string): bool {
    tool == "AskUserQuestion" || tool == "ask_user_question"
  }

  function Oldest(es: seq<Entry>, tool: string): Option<Entry> {
    if es == [] then None else if es[0].what.tool == tool then Some(es[0]) else Oldest(es[1..], tool)
  }

  // --- texts ---

  function Guarded(message: string): string {
    message + " Do not attempt this action another way."
  }

  const FALLBACK_REASON :=
    "The remote user did not answer the structured question form. Ask the same question(s) again in PLAIN TEXT " +
    "in your reply (no AskUserQuestion tool), then end your turn and wait for the user's typed answer."

  function AnswerLines(questions: seq<string>, answers: map<string, string>): string {
    if questions == [] then ""
    else
      var answer := if questions[0] in answers then answers[questions[0]] else "(no answer)";
      "- " + questions[0] + "\n  \U{2192} " + answer + "\n" + AnswerLines(questions[1..], answers)
  }

  function ComposeReason(questions: seq<string>, answers: map<string, string>): string {
    "The user answered via the Kvy web UI:\n" + AnswerLines(questions, answers) +
    "Proceed using these answers. Do not call AskUserQuestion again for these questions."
  }

  // A blocked question is always denied: the deny reason is how the model reads the answer.
  function QuestionReason(questions: seq<string>, decision: Decision): string {
    match decision
    case Allow(_, Answers(answers)) => ComposeReason(questions, answers)
    case Deny(Some(message)) => message
    case _ => FALLBACK_REASON
  }

  function PermReason(decision: Decision): string {
    match decision
    case Deny(message) => Guarded(if message.Some? then message.value else "Denied from the Kvy web UI.")
    case Switch(mode) => "Switched permission mode to \"" + mode + "\" and allowed from the Kvy web UI."
    case Allow(_, _) => "Allowed from the Kvy web UI."
  }

  // --- requests come and go ---

  function Emit(b: Bridge, o: Output): Bridge {
    b.(out := b.out + [o])
  }

  function Opened(b: Bridge, tool: string, answerable: bool): Bridge {
    Emit(b.(requests := b.requests[b.nextId := tool], nextId := b.nextId + 1), PermRequest(b.nextId, tool, answerable))
  }

  function Finish(b: Bridge, id: ReqId, decision: Decision, status: Status): Bridge {
    Emit(if id in b.requests
         then b.(requests := b.requests - {id},
             completed := b.completed[id := Completed(b.requests[id], status, decision)])
         else b,
         PermResolve(id, decision))
  }

  // The hook blocks until it is settled, under an armed timeout.
  function BlockQuestion(b: Bridge, e: Entry): Bridge {
    b.(pending := b.pending + [e], timers := b.timers + {e.id}, blocked := b.blocked + {e.id})
  }

  function BlockPermission(b: Bridge, e: Entry): Bridge {
    b.(permPending := b.permPending + [e], timers := b.timers + {e.id}, blocked := b.blocked + {e.id})
  }

  // The terminal's own dialog owns it; the hook has already returned.
  function WaitLocally(b: Bridge, e: Entry): Bridge {
    Emit(b.(local := b.local + [e]), PromptLikely)
  }

  function AskQuestion(b: Bridge, tool: string, questions: seq<string>, web: bool, cfg: Config): Bridge {
    var e := Ticket(b.nextId, Prompt(tool, Some(questions), false));
    var b1 := Opened(b, tool, web || cfg.drivesQuestions);
    if web then BlockQuestion(b1, e) else WaitLocally(b1, e)
  }

  function PreToolUse(b: Bridge, tool: string, questions: seq<string>, web: bool, cfg: Config): Bridge {
    if IsAskUserQuestion(tool) then AskQuestion(b, tool, questions, web, cfg)
    else if web then b else Emit(b, PromptLikely)
  }

  function AskPermission(b: Bridge, tool: string, web: bool, cfg: Config): Bridge {
    var e := Ticket(b.nextId, Prompt(tool, None, true));
    var b1 := Opened(b, tool, web || cfg.drivesDialogs);
    if web then BlockPermission(b1, e) else WaitLocally(b1, e)
  }

  // A question's own request was opened by its PreToolUse hook.
  function PermissionRequest(b: Bridge, tool: string, web: bool, cfg: Config): Bridge {
    if IsAskUserQuestion(tool) then b else AskPermission(b, tool, web, cfg)
  }

  // --- answers ---

  function SettleQuestion(b: Bridge, e: Entry, decision: Decision, status: Status, reason: string): Bridge {
    Emit(Finish(b.(pending := Remove(b.pending, e.id), timers := b.timers - {e.id}), e.id, decision, status),
         Settle(e.id, false, reason))
  }

  function SettlePermission(b: Bridge, e: Entry, decision: Decision, status: Status): Bridge {
    Emit(Finish(b.(permPending := Remove(b.permPending, e.id), timers := b.timers - {e.id}), e.id, decision, status),
         Settle(e.id, !decision.Deny?, PermReason(decision)))
  }

  function SettleLocal(b: Bridge, e: Entry, decision: Decision, status: Status): Bridge {
    Finish(b.(local := Remove(b.local, e.id), driven := b.driven - {e.id}), e.id, decision, status)
  }

  // Whether a web decision can be typed into the terminal dialog; `wrote` is the driver's own answer.
  predicate Drives(e: Entry, wrote: bool, cfg: Config) {
    if e.what.questions.Some? then cfg.drivesQuestions && wrote else e.what.drivable && cfg.drivesDialogs && wrote
  }

  function ResolveLocal(b: Bridge, e: Entry, decision: Decision, wrote: bool, cfg: Config): (Bridge, Result) {
    if e.id in b.driven then (b, AlreadyAnswered(None))
    else if Drives(e, wrote, cfg) then (Emit(b.(driven := b.driven + {e.id}), Drive(e.id, decision)), Ok)
    else (b, LocalTurn)
  }

  function Resolve(b: Bridge, id: ReqId, decision: Decision, wrote: bool, cfg: Config): (Bridge, Result) {
    var local, question, perm := Find(b.local, id), Find(b.pending, id), Find(b.permPending, id);
    if local.Some? then ResolveLocal(b, local.value, decision, wrote, cfg)
    else if question.Some? then
      var e := question.value;
      (SettleQuestion(b, e, decision, Denied,
          QuestionReason(if e.what.questions.Some? then e.what.questions.value else [], decision)), Ok)
    else if perm.Some? then
      var b1 := if decision.Switch? then Emit(b, ModeChange(decision.mode)) else b;
      (SettlePermission(b1, perm.value, decision, if decision.Deny? then Denied else Approved), Ok)
    else (b, AlreadyAnswered(if id in b.completed then Some(b.completed[id].decision) else None))
  }

  function LocalOutcome(b: Bridge, tool: string, approved: bool): Bridge {
    var e := Oldest(b.local, tool);
    if e.None? then b
    else SettleLocal(b, e.value, if approved then Allow("once", NoUpdate) else Deny(Some("Resolved at the terminal.")),
                     if approved then Approved else Denied)
  }

  function TimeOut(b: Bridge, id: ReqId, cfg: Config): Bridge {
    var question, perm := Find(b.pending, id), Find(b.permPending, id);
    if question.Some? then SettleQuestion(b, question.value, Deny(Some(FALLBACK_REASON)), Denied, FALLBACK_REASON)
    else if perm.Some? then SettlePermission(b, perm.value, Deny(Some(cfg.timeoutMessage)), Denied)
    else b
  }

  // --- reset: questions, then permissions, then local prompts ---

  function CancelQuestions(b: Bridge, reason: string): Bridge
    decreases |b.pending|
  {
    if b.pending == [] then b
    else
      var b1 := SettleQuestion(b, b.pending[0], Deny(Some(Guarded(reason))), Canceled, Guarded(reason));
      CancelQuestions(b1, reason)
  }

  function CancelPermissions(b: Bridge, reason: string): Bridge
    decreases |b.permPending|
  {
    if b.permPending == [] then b
    else
      var b1 := SettlePermission(b, b.permPending[0], Deny(Some(reason)), Canceled);
      CancelPermissions(b1, reason)
  }

  function CancelLocals(b: Bridge, reason: string): Bridge
    decreases |b.local|
  {
    if b.local == [] then b
    else
      var b1 := SettleLocal(b, b.local[0], Deny(Some(Guarded(reason))), Canceled);
      CancelLocals(b1, reason)
  }

  function Reset(b: Bridge, reason: string): Bridge {
    CancelLocals(CancelPermissions(CancelQuestions(b, reason), reason), reason).(driven := {})
  }

  // --- one event ---

  datatype Event =
    | HookPreToolUse(tool: string, questions: seq<string>, web: bool)
    | HookPermission(tool: string, web: bool)
    | WebAnswers(id: ReqId, decision: Decision, wrote: bool)
    | TerminalOutcome(tool: string, approved: bool)
    | TimerFires(id: ReqId)
    | Resets(reason: string)

  function Step(b: Bridge, e: Event, cfg: Config): Bridge {
    match e
    case HookPreToolUse(tool, questions, web) => PreToolUse(b, tool, questions, web, cfg)
    case HookPermission(tool, web) => PermissionRequest(b, tool, web, cfg)
    case WebAnswers(id, decision, wrote) => Resolve(b, id, decision, wrote, cfg).0
    case TerminalOutcome(tool, approved) => LocalOutcome(b, tool, approved)
    case TimerFires(id) => TimeOut(b, id, cfg)
    case Resets(reason) => Reset(b, reason)
  }

  function Run(b: Bridge, es: seq<Event>, cfg: Config): Bridge
    decreases |es|
  {
    if es == [] then b else Run(Step(b, es[0], cfg), es[1..], cfg)
  }
}
