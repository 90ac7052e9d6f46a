// The permission bridge as the program runs it: maps, a local list, and timer callbacks, updated in
// place. Every method is tied to its specification in PermissionBridge.
module BridgeObject {
  import opened Wrappers
  import B = PermissionBridge
  import R = Requests

  class Bridge {
    const cfg: B.Config
    var pending: seq<B.Entry>
    var permRequestPending: seq<B.Entry>
    var localOutcomePending: seq<B.Entry>
    var drivenLocalReqIds: set<R.ReqId>
    var requests: map<R.ReqId, string>
    var completedRequests: map<R.ReqId, B.Completed>
    var timers: set<R.ReqId>
    var nextId: R.ReqId
    var out: seq<B.Output>
    ghost var blocked: set<R.ReqId>

    ghost function St(): B.Bridge
      reads this
    {
      B.Bridge(pending, permRequestPending, localOutcomePending, drivenLocalReqIds, requests, completedRequests,
               timers, nextId, out, blocked)
    }

    constructor (config: B.Config)
      ensures cfg == config && St() == B.FRESH
    {
      cfg := config;
      pending, permRequestPending, localOutcomePending, drivenLocalReqIds := [], [], [], {};
      requests, completedRequests, timers, nextId, out, blocked := map[], map[], {}, 0, [], {};
    }

    method Emit(o: B.Output)
      modifies this`out
      ensures out == old(out) + [o]
    {
      out := out + [o];
    }

    // The request becomes visible on the web, whoever is driving the turn.
    method Open(tool: string, answerable: bool) returns (reqId: R.ReqId)
      modifies this
      ensures St() == B.Opened(old(St()), tool, answerable) && reqId == old(nextId)
    {
      reqId := nextId;
      nextId := nextId + 1;
      requests := requests[reqId := tool];
      Emit(B.PermRequest(reqId, tool, answerable));
    }

    method HandlePreToolUse(tool: string, questions: seq<string>, web: bool)
      modifies this
      ensures St() == B.PreToolUse(old(St()), tool, questions, web, cfg)
    {
      if B.IsAskUserQuestion(tool) {
        HandleAskUserQuestion(tool, questions, web);
      } else if !web {
        Emit(B.PromptLikely);
      }
    }

    method HandleAskUserQuestion(tool: string, questions: seq<string>, web: bool)
      modifies this
      ensures St() == B.AskQuestion(old(St()), tool, questions, web, cfg)
    {
      var reqId := Open(tool, web || cfg.drivesQuestions);
      var entry := R.Ticket(reqId, B.Prompt(tool, Some(questions), false));
      if !web {
        localOutcomePending := localOutcomePending + [entry];
        Emit(B.PromptLikely);
        return;
      }
      pending := pending + [entry];
      timers := timers + {reqId};
      blocked := blocked + {reqId};
    }

    method HandlePermissionRequest(tool: string, web: bool)
      modifies this
      ensures St() == B.PermissionRequest(old(St()), tool, web, cfg)
    {
      if B.IsAskUserQuestion(tool) {
        return;
      }
      HandlePermission(tool, web);
    }

    method HandlePermission(tool: string, web: bool)
      modifies this
      ensures St() == B.AskPermission(old(St()), tool, web, cfg)
    {
      var reqId := Open(tool, web || cfg.drivesDialogs);
      var entry := R.Ticket(reqId, B.Prompt(tool, None, true));
      if !web {
        localOutcomePending := localOutcomePending + [entry];
        Emit(B.PromptLikely);
        return;
      }
      permRequestPending := permRequestPending + [entry];
      timers := timers + {reqId};
      blocked := blocked + {reqId};
    }

    method FinishRequest(reqId: R.ReqId, decision: B.Decision, status: B.Status)
      modifies this`requests, this`completedRequests, this`out
      ensures St() == B.Finish(old(St()), reqId, decision, status)
    {
      if reqId in requests {
        completedRequests := completedRequests[reqId := B.Completed(requests[reqId], status, decision)];
        requests := requests - {reqId};
      }
      Emit(B.PermResolve(reqId, decision));
    }

    method SettleQuestion(entry: B.Entry, decision: B.Decision, status: B.Status, reason: string)
      modifies this
      ensures St() == B.SettleQuestion(old(St()), entry, decision, status, reason)
    {
      pending := R.Remove(pending, entry.id);
      timers := timers - {entry.id};
      FinishRequest(entry.id, decision, status);
      Emit(B.Settle(entry.id, false, reason));
    }

    method SettlePermission(entry: B.Entry, decision: B.Decision, status: B.Status)
      modifies this
      ensures St() == B.SettlePermission(old(St()), entry, decision, status)
    {
      permRequestPending := R.Remove(permRequestPending, entry.id);
      timers := timers - {entry.id};
      FinishRequest(entry.id, decision, status);
      Emit(B.Settle(entry.id, !decision.Deny?, B.PermReason(decision)));
    }

    method SettleLocal(entry: B.Entry, decision: B.Decision, status: B.Status)
      modifies this
      ensures St() == B.SettleLocal(old(St()), entry, decision, status)
    {
      localOutcomePending := R.Remove(localOutcomePending, entry.id);
      drivenLocalReqIds := drivenLocalReqIds - {entry.id};
      FinishRequest(entry.id, decision, status);
    }

    // `wrote` is what the driver callback returns when it is asked to type the decision.
    method ResolveLocal(entry: B.Entry, decision: B.Decision, wrote: bool) returns (result: B.Result)
      modifies this
      ensures (St(), result) == B.ResolveLocal(old(St()), entry, decision, wrote, cfg)
    {
      if entry.id in drivenLocalReqIds {
        return B.AlreadyAnswered(None);
      }
      var drove := if entry.what.questions.Some? then cfg.drivesQuestions && wrote
                   else entry.what.drivable && cfg.drivesDialogs && wrote;
      if drove {
        drivenLocalReqIds := drivenLocalReqIds + {entry.id};
        Emit(B.Drive(entry.id, decision));
        return B.Ok;
      }
      return B.LocalTurn;
    }

    method Resolve(reqId: R.ReqId, decision: B.Decision, wrote: bool) returns (result: B.Result)
      modifies this
      ensures (St(), result) == B.Resolve(old(St()), reqId, decision, wrote, cfg)
    {
      var local := R.Find(localOutcomePending, reqId);
      if local.Some? {
        result := ResolveLocal(local.value, decision, wrote);
        return;
      }
      var question := R.Find(pending, reqId);
      if question.Some? {
        var questions := if question.value.what.questions.Some? then question.value.what.questions.value else [];
        SettleQuestion(question.value, decision, B.Denied, B.QuestionReason(questions, decision));
        return B.Ok;
      }
      var perm := R.Find(permRequestPending, reqId);
      if perm.Some? {
        if decision.Switch? {
          Emit(B.ModeChange(decision.mode));
        }
        SettlePermission(perm.value, decision, if decision.Deny? then B.Denied else B.Approved);
        return B.Ok;
      }
      return B.AlreadyAnswered(if reqId in completedRequests then Some(completedRequests[reqId].decision) else None);
    }

    method ResolveLocalOutcome(tool: string, approved: bool)
      modifies this
      ensures St() == B.LocalOutcome(old(St()), tool, approved)
    {
      var entry := B.Oldest(localOutcomePending, tool);
      if entry.None? {
        return;
      }
      var decision := if approved then B.Allow("once", B.NoUpdate) else B.Deny(Some("Resolved at the terminal."));
      SettleLocal(entry.value, decision, if approved then B.Approved else B.Denied);
    }

    method OnTimeout(reqId: R.ReqId)
      modifies this
      ensures St() == B.TimeOut(old(St()), reqId, cfg)
    {
      var question := R.Find(pending, reqId);
      if question.Some? {
        SettleQuestion(question.value, B.Deny(Some(B.FALLBACK_REASON)), B.Denied, B.FALLBACK_REASON);
        return;
      }
      var perm := R.Find(permRequestPending, reqId);
      if perm.Some? {
        SettlePermission(perm.value, B.Deny(Some(cfg.timeoutMessage)), B.Denied);
      }
    }

    method CancelQuestions(reason: string)
      modifies this
      ensures St() == B.CancelQuestions(old(St()), reason)
    {
      while pending != []
        invariant B.CancelQuestions(St(), reason) == B.CancelQuestions(old(St()), reason)
        decreases |pending|
      {
        SettleQuestion(pending[0], B.Deny(Some(B.Guarded(reason))), B.Canceled, B.Guarded(reason));
      }
    }

    method CancelPermissions(reason: string)
      modifies this
      ensures St() == B.CancelPermissions(old(St()), reason)
    {
      while permRequestPending != []
        invariant B.CancelPermissions(St(), reason) == B.CancelPermissions(old(St()), reason)
        decreases |permRequestPending|
      {
        SettlePermission(permRequestPending[0], B.Deny(Some(reason)), B.Canceled);
      }
    }

    method CancelLocals(reason: string)
      modifies this
      ensures St() == B.CancelLocals(old(St()), reason)
    {
      while localOutcomePending != []
        invariant B.CancelLocals(St(), reason) == B.CancelLocals(old(St()), reason)
        decreases |localOutcomePending|
      {
        SettleLocal(localOutcomePending[0], B.Deny(Some(B.Guarded(reason))), B.Canceled);
      }
    }

    method Reset(reason: string)
      modifies this
      ensures St() == B.Reset(old(St()), reason)
    {
      CancelQuestions(reason);
      CancelPermissions(reason);
      CancelLocals(reason);
      drivenLocalReqIds := {};
    }
  }
}
