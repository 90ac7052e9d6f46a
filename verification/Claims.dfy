// The claim-before-execute store (packages/cli/src/claims/claimStore.ts): many processes share one
// file per session, and every operation is a read-modify-write under an exclusive lock.
module Claims {
  type Json = string

  datatype Entry = Claimed(claimId: nat, claimedAt: int) | Completed(result: Json, completedAt: int)
  type File = map<string, Entry>

  // Milliseconds in seven days: the histories below say 604800000.
  const RETENTION := 7 * 24 * 60 * 60 * 1000

  predicate Expired(e: Entry, now: int) {
    e.Completed? && e.completedAt < now - RETENTION
  }

  function Prune(file: File, now: int): File {
    map id | id in file && !Expired(file[id], now) :: file[id]
  }

  method PruneExpired(file: File, now: int) returns (claims: File)
    ensures claims == Prune(file, now)
  {
    claims := map[];
    var left := file.Keys;
    while left != {}
      invariant left <= file.Keys
      invariant claims == map id | id in file && id !in left && !Expired(file[id], now) :: file[id]
      decreases |left|
    {
      var id :| id in left;
      left := left - {id};
      if !Expired(file[id], now) {
        claims := claims[id := file[id]];
      }
    }
  }

  datatype Outcome = Won(claimId: nat) | Duplicate(result: Json) | InProgress | Recorded | Rejected

  // --- one operation, under the lock ---

  function Claim(file: File, envelope: string, id: nat, now: int): (File, Outcome) {
    var current := Prune(file, now);
    if envelope !in current then (current[envelope := Claimed(id, now)], Won(id))
    else if current[envelope].Completed? then (current, Duplicate(current[envelope].result))
    else (current, InProgress)
  }

  // A throw aborts the write: the file stays as it was, unpruned.
  function Complete(file: File, envelope: string, claimId: nat, result: Json, now: int): (File, Outcome) {
    var current := Prune(file, now);
    if envelope in current && current[envelope].Claimed? && current[envelope].claimId == claimId
    then (current[envelope := Completed(result, now)], Recorded)
    else (file, Rejected)
  }

  // The store of one session, as its callers use it; the lock makes each method one atomic step.
  class Store {
    var file: File
    var nextClaimId: nat

    constructor ()
      ensures file == map[] && nextClaimId == 0
    {
      file, nextClaimId := map[], 0;
    }

    method ClaimMessageSend(envelope: string, now: int) returns (outcome: Outcome)
      modifies this
      ensures (file, outcome) == Claim(old(file), envelope, old(nextClaimId), now)
      ensures nextClaimId == old(nextClaimId) + 1
    {
      var claimId := nextClaimId;
      nextClaimId := nextClaimId + 1;
      var current := PruneExpired(file, now);
      if envelope in current {
        outcome := if current[envelope].Completed? then Duplicate(current[envelope].result) else InProgress;
        file := current;
        return;
      }
      file := current[envelope := Claimed(claimId, now)];
      return Won(claimId);
    }

    method CompleteMessageSend(envelope: string, claimId: nat, result: Json, now: int) returns (outcome: Outcome)
      modifies this`file
      ensures (file, outcome) == Complete(old(file), envelope, claimId, result, now)
    {
      var current := PruneExpired(file, now);
      if envelope !in current || !current[envelope].Claimed? || current[envelope].claimId != claimId {
        return Rejected;
      }
      file := current[envelope := Completed(result, now)];
      return Recorded;
    }
  }

  // --- any number of processes, in any order ---

  datatype Op =
    | DoClaim(envelope: string, now: int)
    | DoComplete(envelope: string, claimId: nat, result: Json, now: int)

  datatype Record = Record(op: Op, outcome: Outcome)

  // The clock readings need not be monotone. `log` is the history of operations and their outcomes.
  datatype System = System(file: File, nextClaimId: nat, log: seq<Record>)

  const START := System(map[], 0, [])

  function Step(s: System, op: Op): System {
    match op
    case DoClaim(envelope, now) =>
      var (file, outcome) := Claim(s.file, envelope, s.nextClaimId, now);
      System(file, s.nextClaimId + 1, s.log + [Record(op, outcome)])
    case DoComplete(envelope, claimId, result, now) =>
      var (file, outcome) := Complete(s.file, envelope, claimId, result, now);
      System(file, s.nextClaimId, s.log + [Record(op, outcome)])
  }

  function Run(s: System, ops: seq<Op>): System
    decreases |ops|
  {
    if ops == [] then s else Run(Step(s, ops[0]), ops[1..])
  }

  // --- at most once ---

  predicate WonAt(log: seq<Record>, i: int, envelope: string) {
    0 <= i < |log| && log[i].op.DoClaim? && log[i].op.envelope == envelope && log[i].outcome.Won?
  }

  // The claim won at i was completed at k, with this result.
  predicate CompletedAt(log: seq<Record>, i: int, k: int, envelope: string) {
    WonAt(log, i, envelope) && i < k < |log| && log[k].outcome.Recorded? &&
    log[k].op.DoComplete? && log[k].op.envelope == envelope && log[k].op.claimId == log[i].outcome.claimId
  }

  // An operation that wrote the file, more than seven days after the completion at k.
  predicate PrunedAt(log: seq<Record>, k: int, m: int) {
    0 <= k < m < |log| && log[k].op.now + 604_800_000 < log[m].op.now && !log[m].outcome.Rejected?
  }

  // Two successful claims of one envelope: the first was completed and pruned in between.
  ghost predicate Separated(log: seq<Record>, i: int, j: int, envelope: string) {
    exists k, m :: CompletedAt(log, i, k, envelope) && PrunedAt(log, k, m) && m <= j
  }

  // The claim won at i is still live, or completed and on file, or completed and pruned.
  ghost predicate Settled(s: System, i: int, envelope: string) {
    WonAt(s.log, i, envelope) &&
    ((envelope in s.file && s.file[envelope].Claimed? && s.file[envelope].claimId == s.log[i].outcome.claimId &&
      NeverCompleted(s.log, i, envelope)) ||
     (exists k :: CompletedAt(s.log, i, k, envelope) && envelope in s.file &&
                  s.file[envelope] == Completed(s.log[k].op.result, s.log[k].op.now)) ||
     (exists k, m :: CompletedAt(s.log, i, k, envelope) && PrunedAt(s.log, k, m) && envelope !in s.file))
  }

  ghost predicate NeverCompleted(log: seq<Record>, i: int, envelope: string) {
    forall k :: !CompletedAt(log, i, k, envelope)
  }

  function LastWin(log: seq<Record>, envelope: string): (i: int)
    ensures -1 <= i < |log|
  {
    if log == [] then -1
    else if WonAt(log, |log| - 1, envelope) then |log| - 1
    else LastWin(log[..|log| - 1], envelope)
  }

  lemma {:induction false} LastWinIs(log: seq<Record>, envelope: string)
    ensures LastWin(log, envelope) >= 0 ==> WonAt(log, LastWin(log, envelope), envelope)
    ensures forall j :: LastWin(log, envelope) < j < |log| ==> !WonAt(log, j, envelope)
  {
    if log != [] && !WonAt(log, |log| - 1, envelope) {
      LastWinIs(log[..|log| - 1], envelope);
      assert forall j :: 0 <= j < |log| - 1 ==> WonAt(log[..|log| - 1], j, envelope) == WonAt(log, j, envelope);
    }
  }

  // Any two wins of the envelope are separated.
  ghost predicate WinsSeparated(log: seq<Record>, envelope: string) {
    forall i, j :: WonAt(log, i, envelope) && WonAt(log, j, envelope) && i < j ==> Separated(log, i, j, envelope)
  }

  // What holds of one envelope after every run.
  ghost predicate Safe(s: System, envelope: string) {
    WinsSeparated(s.log, envelope) &&
    if LastWin(s.log, envelope) < 0 then envelope !in s.file else Settled(s, LastWin(s.log, envelope), envelope)
  }

  // --- the log only grows ---

  lemma LogGrows(log: seq<Record>, r: Record, envelope: string)
    ensures forall i :: 0 <= i < |log| ==> WonAt(log + [r], i, envelope) == WonAt(log, i, envelope)
    ensures LastWin(log + [r], envelope) == if WonAt(log + [r], |log|, envelope) then |log| else LastWin(log, envelope)
  {
    assert (log + [r])[..|log|] == log;
  }

  lemma CompletionStays(log: seq<Record>, r: Record, i: int, k: int, envelope: string)
    requires CompletedAt(log, i, k, envelope)
    ensures CompletedAt(log + [r], i, k, envelope)
  {
  }

  lemma SeparatedStays(log: seq<Record>, r: Record, i: int, j: int, n: int, envelope: string)
    requires Separated(log, i, j, envelope) && j <= n
    ensures Separated(log + [r], i, n, envelope)
  {
    var k, m :| CompletedAt(log, i, k, envelope) && PrunedAt(log, k, m) && m <= j;
    assert CompletedAt(log + [r], i, k, envelope) && PrunedAt(log + [r], k, m);
  }

  lemma WinsStaySeparated(log: seq<Record>, r: Record, envelope: string)
    requires WinsSeparated(log, envelope) && !WonAt(log + [r], |log|, envelope)
    ensures WinsSeparated(log + [r], envelope)
  {
    forall i, j | WonAt(log + [r], i, envelope) && WonAt(log + [r], j, envelope) && i < j
      ensures Separated(log + [r], i, j, envelope)
    {
      assert WonAt(log, i, envelope) && WonAt(log, j, envelope);
      SeparatedStays(log, r, i, j, j, envelope);
    }
  }

  lemma StaysIncomplete(log: seq<Record>, r: Record, i: int, envelope: string)
    requires NeverCompleted(log, i, envelope) && !CompletedBy(r, envelope)
    ensures NeverCompleted(log + [r], i, envelope)
  {
    forall k ensures !CompletedAt(log + [r], i, k, envelope) {
      assert !CompletedAt(log, i, k, envelope);
    }
  }

  // A record that leaves what the file says about the envelope alone, or prunes it.
  lemma UntouchedSettled(s: System, t: System, r: Record, i: int, envelope: string)
    requires Settled(s, i, envelope) && t.log == s.log + [r] && !CompletedBy(r, envelope)
    requires envelope in t.file <==> envelope in s.file
    requires envelope in s.file ==> t.file[envelope] == s.file[envelope]
    ensures Settled(t, i, envelope)
  {
    if NeverCompleted(s.log, i, envelope) {
      StaysIncomplete(s.log, r, i, envelope);
    } else if envelope in s.file {
      var k :| CompletedAt(s.log, i, k, envelope) && s.file[envelope] == Completed(s.log[k].op.result, s.log[k].op.now);
      CompletionStays(s.log, r, i, k, envelope);
    } else {
      var k, m :| CompletedAt(s.log, i, k, envelope) && PrunedAt(s.log, k, m);
      assert CompletedAt(t.log, i, k, envelope) && PrunedAt(t.log, k, m);
    }
  }

  lemma PrunedSettled(s: System, t: System, r: Record, i: int, envelope: string)
    requires Settled(s, i, envelope) && t.log == s.log + [r] && !r.outcome.Rejected?
    requires envelope in s.file && Expired(s.file[envelope], r.op.now) && envelope !in t.file
    ensures Settled(t, i, envelope)
  {
    var k :| CompletedAt(s.log, i, k, envelope) && s.file[envelope] == Completed(s.log[k].op.result, s.log[k].op.now);
    assert CompletedAt(t.log, i, k, envelope) && PrunedAt(t.log, k, |s.log|);
  }

  lemma OtherSettled(s: System, op: Op, i: int, envelope: string)
    requires Settled(s, i, envelope)
    requires var t := Step(s, op); !WonAt(t.log, |s.log|, envelope) && !CompletedBy(t.log[|s.log|], envelope)
    ensures Settled(Step(s, op), i, envelope)
  {
    var t := Step(s, op);
    if envelope in s.file && envelope !in t.file {
      PrunedSettled(s, t, t.log[|s.log|], i, envelope);
    } else {
      UntouchedSettled(s, t, t.log[|s.log|], i, envelope);
    }
  }

  // An operation on another envelope, or one that finds this envelope taken.
  lemma OtherSafe(s: System, op: Op, envelope: string)
    requires Safe(s, envelope)
    requires var t := Step(s, op); !WonAt(t.log, |s.log|, envelope) && !CompletedBy(t.log[|s.log|], envelope)
    ensures Safe(Step(s, op), envelope)
  {
    var r := Step(s, op).log[|s.log|];
    LogGrows(s.log, r, envelope);
    WinsStaySeparated(s.log, r, envelope);
    LastWinIs(s.log, envelope);
    if LastWin(s.log, envelope) >= 0 {
      OtherSettled(s, op, LastWin(s.log, envelope), envelope);
    }
  }

  predicate CompletedBy(r: Record, envelope: string) {
    r.op.DoComplete? && r.op.envelope == envelope && r.outcome.Recorded?
  }

  lemma CompleteSafe(s: System, op: Op, envelope: string)
    requires Safe(s, envelope) && CompletedBy(Step(s, op).log[|s.log|], envelope)
    ensures Safe(Step(s, op), envelope)
  {
    var t := Step(s, op);
    LogGrows(s.log, t.log[|s.log|], envelope);
    WinsStaySeparated(s.log, t.log[|s.log|], envelope);
    LastWinIs(s.log, envelope);
    assert CompletedAt(t.log, LastWin(s.log, envelope), |s.log|, envelope);
  }

  lemma WinSafe(s: System, op: Op, envelope: string)
    requires Safe(s, envelope) && WonAt(Step(s, op).log, |s.log|, envelope)
    ensures Safe(Step(s, op), envelope)
  {
    var t, n := Step(s, op), |s.log|;
    LogGrows(s.log, t.log[n], envelope);
    LastWinIs(s.log, envelope);
    var last := LastWin(s.log, envelope);
    if last >= 0 {
      WinSeparates(s, op, last, envelope);
    }
    forall i, j | WonAt(t.log, i, envelope) && WonAt(t.log, j, envelope) && i < j
      ensures Separated(t.log, i, j, envelope)
    {
      assert WonAt(s.log, i, envelope);
      if j < n {
        SeparatedStays(s.log, t.log[n], i, j, j, envelope);
      } else if i < last {
        SeparatedStays(s.log, t.log[n], i, last, n, envelope);
      }
    }
  }

  // A new win finds the previous one completed, and pruned at the latest by this very operation.
  lemma WinSeparates(s: System, op: Op, i: int, envelope: string)
    requires Settled(s, i, envelope) && WonAt(Step(s, op).log, |s.log|, envelope)
    ensures Separated(Step(s, op).log, i, |s.log|, envelope)
  {
    var t, n := Step(s, op), |s.log|;
    if envelope in s.file {
      assert Expired(s.file[envelope], op.now);
      var k :| CompletedAt(s.log, i, k, envelope) && s.file[envelope] == Completed(s.log[k].op.result, s.log[k].op.now);
      assert CompletedAt(t.log, i, k, envelope) && PrunedAt(t.log, k, n);
    } else {
      var k, m :| CompletedAt(s.log, i, k, envelope) && PrunedAt(s.log, k, m);
      assert CompletedAt(t.log, i, k, envelope) && PrunedAt(t.log, k, m);
    }
  }

  lemma StepSafe(s: System, op: Op, envelope: string)
    requires Safe(s, envelope)
    ensures Safe(Step(s, op), envelope)
  {
    var t := Step(s, op);
    if WonAt(t.log, |s.log|, envelope) {
      WinSafe(s, op, envelope);
    } else if CompletedBy(t.log[|s.log|], envelope) {
      CompleteSafe(s, op, envelope);
    } else {
      OtherSafe(s, op, envelope);
    }
  }

  lemma {:induction false} RunSafe(s: System, ops: seq<Op>, envelope: string)
    requires Safe(s, envelope)
    ensures Safe(Run(s, ops), envelope)
    decreases |ops|
  {
    if ops != [] {
      StepSafe(s, ops[0], envelope);
      RunSafe(Step(s, ops[0]), ops[1..], envelope);
    }
  }

  // Main result: over any interleaving of operations, two successful claims of one envelope are
  // separated by the completion of the first and by a write more than seven days later.
  lemma AtMostOnce(ops: seq<Op>, envelope: string, i: nat, j: nat)
    requires i < j && WonAt(Run(START, ops).log, i, envelope) && WonAt(Run(START, ops).log, j, envelope)
    ensures Separated(Run(START, ops).log, i, j, envelope)
  {
    RunSafe(START, ops, envelope);
  }

  // --- what one operation may do to a claim ---

  // Main result: a pending claim never expires; only a completion under its own claim id ends it.
  lemma PendingNeverExpires(s: System, op: Op, envelope: string)
    requires envelope in s.file && s.file[envelope].Claimed?
    ensures var t := Step(s, op);
            if op.DoComplete? && op.envelope == envelope && op.claimId == s.file[envelope].claimId
            then t.file[envelope := s.file[envelope]] == Prune(s.file, op.now) && envelope in t.file &&
                 t.file[envelope] == Completed(op.result, op.now)
            else envelope in t.file && t.file[envelope] == s.file[envelope]
  {
  }

  // --- what every outcome means, in terms of the history alone ---

  // The last win of the envelope was never completed.
  ghost predicate Pending(log: seq<Record>, envelope: string) {
    LastWin(log, envelope) >= 0 && NeverCompleted(log, LastWin(log, envelope), envelope)
  }

  ghost predicate PendingUnder(log: seq<Record>, envelope: string, claimId: nat) {
    Pending(log, envelope) && log[LastWin(log, envelope)].outcome == Won(claimId)
  }

  // The last win was completed with this result, no more than seven days before now.
  ghost predicate RetainedResult(log: seq<Record>, envelope: string, result: Json, now: int) {
    exists k :: CompletedAt(log, LastWin(log, envelope), k, envelope) &&
                log[k].op.result == result && now <= log[k].op.now + 604_800_000
  }

  // What outcome r says about the history before it.
  ghost predicate Explained(before: seq<Record>, r: Record) {
    var envelope := r.op.envelope;
    match r.outcome
    case Won(_) =>
      r.op.DoClaim? &&
      (LastWin(before, envelope) >= 0 ==> Separated(before + [r], LastWin(before, envelope), |before|, envelope))
    case Duplicate(result) => r.op.DoClaim? && RetainedResult(before, envelope, result, r.op.now)
    case InProgress => r.op.DoClaim? && Pending(before, envelope)
    case Recorded => r.op.DoComplete? && PendingUnder(before, envelope, r.op.claimId)
    case Rejected => r.op.DoComplete? && !PendingUnder(before, envelope, r.op.claimId)
  }

  lemma StepExplained(s: System, op: Op)
    requires Safe(s, op.envelope)
    ensures Explained(s.log, Step(s, op).log[|s.log|])
  {
    LastWinIs(s.log, op.envelope);
    var t, i := Step(s, op), LastWin(s.log, op.envelope);
    if i >= 0 && t.log[|s.log|].outcome.Won? {
      WinSeparates(s, op, i, op.envelope);
    }
  }

  lemma {:induction false} RunExplained(s: System, ops: seq<Op>, j: nat)
    requires (forall e :: Safe(s, e)) && forall i :: 0 <= i < |s.log| ==> Explained(s.log[..i], s.log[i])
    requires j < |Run(s, ops).log|
    ensures Explained(Run(s, ops).log[..j], Run(s, ops).log[j])
    decreases |ops|
  {
    if ops != [] {
      var t := Step(s, ops[0]);
      forall e ensures Safe(t, e) {
        StepSafe(s, ops[0], e);
      }
      StepExplained(s, ops[0]);
      forall i | 0 <= i < |t.log| ensures Explained(t.log[..i], t.log[i]) {
        assert t.log[..i] == s.log[..i];
      }
      RunExplained(t, ops[1..], j);
    }
  }

  // Main result: over any interleaving of operations, every outcome is what the operations before it
  // call for. A duplicate gets the result the last win was completed with, and only within seven days of
  // it; a claim is told to wait exactly while the last win is pending; a completion is recorded exactly
  // when it carries the id of a pending win; and a new win comes only after the old one expired.
  lemma OutcomesFollowHistory(ops: seq<Op>, j: nat)
    requires j < |Run(START, ops).log|
    ensures Explained(Run(START, ops).log[..j], Run(START, ops).log[j])
  {
    RunExplained(START, ops, j);
  }

  // What a run of operations is told.
  function Answers(s: System, ops: seq<Op>): seq<Outcome>
    decreases |ops|
  {
    if ops == [] then [] else [Step(s, ops[0]).log[|s.log|].outcome] + Answers(Step(s, ops[0]), ops[1..])
  }

  lemma {:induction false} SameFileSameFuture(s: System, t: System, ops: seq<Op>)
    requires t.file == s.file && t.nextClaimId == s.nextClaimId
    ensures Run(t, ops).file == Run(s, ops).file && Answers(t, ops) == Answers(s, ops)
    decreases |ops|
  {
    if ops != [] {
      SameFileSameFuture(Step(s, ops[0]), Step(t, ops[0]), ops[1..]);
    }
  }

  // Main result: a completion is rejected exactly when its claim is not pending on file, and no later
  // operation can tell that it was ever tried.
  lemma RejectedIsInvisible(s: System, op: Op, ops: seq<Op>)
    requires op.DoComplete?
    ensures var t := Step(s, op);
            t.log[|s.log|].outcome.Rejected? <==>
              !(op.envelope in s.file && s.file[op.envelope].Claimed? && s.file[op.envelope].claimId == op.claimId)
    ensures var t := Step(s, op);
            t.log[|s.log|].outcome.Rejected? ==>
              Run(t, ops).file == Run(s, ops).file && Answers(t, ops) == Answers(s, ops)
  {
    if Step(s, op).log[|s.log|].outcome.Rejected? {
      SameFileSameFuture(s, Step(s, op), ops);
    }
  }
}
