// Shared refresh-token rotation (packages/cli/src/auth/tokenProvider.ts): several processes on one
// machine share a single-use refresh token through a file, and refresh it under a lock. A login may
// replace the file at any time, without the lock.
module TokenRotation {
  import opened Wrappers

  // Refresh tokens, in the order the server issues them.
  type Token = nat

  // Where one refresh attempt stands: a request is out (`retried` says it is the second), or the new
  // token is being written to disk. `requests` counts this attempt's requests.
  datatype Stage = Resting | Asking(retried: bool) | Saving

  datatype Provider = Provider(refreshToken: Token, dead: bool, stage: Stage, requests: nat)

  // 200 with a new token, 200 echoing the token presented, 401, anything else.
  datatype Reply = Rotated(token: Token) | Echoed | Refused | Failed

  // A token on disk, which a sibling may have rotated to, is adopted before anything is presented.
  function Begin(p: Provider, disk: Option<Token>): Provider {
    if p.dead then p.(stage := Resting, requests := 0)
    else p.(refreshToken := if disk.Some? then disk.value else p.refreshToken, stage := Asking(false), requests := 1)
  }

  function OnReply(p: Provider, reply: Reply, disk: Option<Token>): Provider
    requires p.stage.Asking?
  {
    match reply
    case Rotated(token) =>
      if token != p.refreshToken then p.(refreshToken := token, stage := Saving) else p.(stage := Resting)
    case Echoed => p.(stage := Resting)
    case Refused =>
      if !p.stage.retried && disk.Some? && disk.value != p.refreshToken
      then p.(refreshToken := disk.value, stage := Asking(true), requests := p.requests + 1)
      else p.(dead := true, stage := Resting)
    case Failed => p.(stage := Resting)
  }

  function OnSaved(p: Provider): Provider {
    p.(stage := Resting)
  }

  // --- one provider as the program runs it ---

  class TokenProvider {
    var refreshToken: Token
    var dead: bool
    var stage: Stage
    ghost var requests: nat

    ghost function St(): Provider
      reads this
    {
      Provider(refreshToken, dead, stage, requests)
    }

    constructor (token: Token)
      ensures St() == Provider(token, false, Resting, 0)
    {
      refreshToken, dead, stage, requests := token, false, Resting, 0;
    }

    // The attempt up to its first request (a second caller shares the attempt under way); what is
    // presented is `refreshToken`.
    method DoRefresh(onDisk: Option<Token>)
      requires stage.Resting?
      modifies this
      ensures St() == Begin(old(St()), onDisk)
    {
      requests := 0;
      if dead {
        return;
      }
      if onDisk.Some? && onDisk.value != refreshToken {
        refreshToken := onDisk.value;
      }
      stage := Asking(false);
      requests := requests + 1;
    }

    method OnResponse(reply: Reply, onDisk: Option<Token>)
      requires stage.Asking?
      modifies this
      ensures St() == OnReply(old(St()), reply, onDisk)
    {
      match reply {
        case Refused =>
          if !stage.retried && onDisk.Some? && onDisk.value != refreshToken {
            refreshToken := onDisk.value;
            stage := Asking(true);
            requests := requests + 1;
            return;
          }
          dead := true;
          stage := Resting;
        case Rotated(token) =>
          var rotated := token != refreshToken;
          refreshToken := token;
          stage := if rotated then Saving else Resting;
        case Echoed => stage := Resting;
        case Failed => stage := Resting;
      }
    }

    method OnRotationSaved()
      modifies this`stage
      ensures St() == OnSaved(old(St()))
    {
      stage := Resting;
    }
  }

  // --- processes, disk and server together ---

  // `live` are the tokens the server will rotate, one for each login, and `next` is the token it issues
  // next. A request is `open` until the server answers it, and its answer waits in `reply`. `lock` is the
  // process inside the mutex.
  datatype System = System(live: set<Token>, next: Token, disk: Option<Token>, providers: seq<Provider>,
                           lock: Option<nat>, open: bool, reply: Option<Reply>)

  datatype Event =
    | Acquires(p: nat)
    | ServerAnswers(reply: Reply)
    | ReplyArrives
    | ReplyLost
    | SaveSucceeds
    | SaveFails
    | LogsIn
    | ClearsDisk

  function Holder(s: System): Provider
    requires s.lock.Some? && s.lock.value < |s.providers|
  {
    s.providers[s.lock.value]
  }

  predicate Locked(s: System) {
    s.lock.Some? && s.lock.value < |s.providers|
  }

  // How the server may answer the token presented: a live one is rotated or the request fails; a
  // superseded one is echoed within its grace period, or refused, or the request fails.
  predicate MayAnswer(s: System, presented: Token, reply: Reply) {
    reply == Failed || (if presented in s.live then reply == Rotated(s.next) else reply == Echoed || reply == Refused)
  }

  // A request either reaches the server before its attempt ends or never does.
  predicate Enabled(s: System, e: Event) {
    match e
    case Acquires(p) => s.lock.None? && p < |s.providers|
    case ServerAnswers(reply) =>
      Locked(s) && Holder(s).stage.Asking? && s.open && MayAnswer(s, Holder(s).refreshToken, reply)
    case ReplyArrives => Locked(s) && Holder(s).stage.Asking? && s.reply.Some?
    case ReplyLost => Locked(s) && Holder(s).stage.Asking?
    case SaveSucceeds => Locked(s) && Holder(s).stage.Saving?
    case SaveFails => Locked(s) && Holder(s).stage.Saving?
    case LogsIn => true
    case ClearsDisk => true
  }

  // The holder moves on; the lock is released when its attempt is over.
  function Move(s: System, p: Provider): System
    requires Locked(s)
  {
    s.(providers := s.providers[s.lock.value := p], lock := if p.stage.Resting? then None else s.lock,
       open := p.stage.Asking?, reply := None)
  }

  function Step(s: System, e: Event): System
    requires Enabled(s, e)
  {
    match e
    case Acquires(p) => Move(s.(lock := Some(p)), Begin(s.providers[p], s.disk))
    case ServerAnswers(reply) =>
      var s1 := s.(open := false, reply := Some(reply));
      if reply.Rotated? then s1.(live := s.live - {Holder(s).refreshToken} + {s.next}, next := s.next + 1) else s1
    case ReplyArrives => Move(s, OnReply(Holder(s), s.reply.value, s.disk))
    case ReplyLost => Move(s, OnReply(Holder(s), Failed, s.disk))
    case SaveSucceeds => Move(s.(disk := Some(Holder(s).refreshToken)), OnSaved(Holder(s)))
    case SaveFails => Move(s, OnSaved(Holder(s)))
    case LogsIn => s.(live := s.live + {s.next}, next := s.next + 1, disk := Some(s.next))
    case ClearsDisk => s.(disk := None)
  }

  predicate Happens(s: System, es: seq<Event>)
    decreases |es|
  {
    es == [] || (Enabled(s, es[0]) && Happens(Step(s, es[0]), es[1..]))
  }

  function Run(s: System, es: seq<Event>): System
    requires Happens(s, es)
    decreases |es|
  {
    if es == [] then s else Run(Step(s, es[0]), es[1..])
  }

  // Processes start with whatever token they read at some time; the disk holds the live one.
  function Start(tokens: seq<Token>): System {
    System({0}, 1, Some(0), seq(|tokens|, i requires 0 <= i < |tokens| => Provider(tokens[i], false, Resting, 0)),
           None, false, None)
  }

  // --- what every run keeps ---

  ghost predicate Tidy(s: System) {
    (forall x :: x in s.live ==> x < s.next) &&
    (forall i :: 0 <= i < |s.providers| && s.lock != Some(i) ==> s.providers[i].stage.Resting?) &&
    (s.lock.Some? ==> s.lock.value < |s.providers| && !Holder(s).stage.Resting?) &&
    (s.lock.Some? && Holder(s).stage.Asking? ==> (s.open <==> s.reply.None?)) &&
    (s.lock.Some? && Holder(s).stage.Saving? ==> !s.open && s.reply.None?)
  }

  lemma StepTidy(s: System, e: Event)
    requires Tidy(s) && Enabled(s, e)
    ensures Tidy(Step(s, e)) && |Step(s, e).providers| == |s.providers|
  {
  }

  lemma {:induction false} RunTidy(s: System, es: seq<Event>)
    requires Tidy(s) && Happens(s, es)
    ensures Tidy(Run(s, es)) && |Run(s, es).providers| == |s.providers|
    decreases |es|
  {
    if es != [] {
      StepTidy(s, es[0]);
      RunTidy(Step(s, es[0]), es[1..]);
    }
  }

  // --- the rotation is never lost ---

  predicate HoldsLive(s: System) {
    s.disk.Some? && s.disk.value in s.live
  }

  // The server has rotated the holder's token, and the new one is on its way to the disk.
  predicate RotationUnderWay(s: System) {
    Locked(s) && (Holder(s).stage.Saving? || (Holder(s).stage.Asking? && s.reply.Some? && s.reply.value.Rotated?))
  }

  // Unless a rotation is under way the disk holds a live token, and so does the request that is out; a
  // rotation under way carries a live token.
  ghost predicate InStep(s: System) {
    Tidy(s) && (!RotationUnderWay(s) ==> HoldsLive(s)) &&
    (Locked(s) && s.open ==> Holder(s).refreshToken in s.live) &&
    (Locked(s) && Holder(s).stage.Saving? ==> Holder(s).refreshToken in s.live) &&
    (Locked(s) && s.reply.Some? ==>
      s.reply.value == Failed ||
      (s.reply.value.Rotated? && s.reply.value.token in s.live && s.reply.value.token != Holder(s).refreshToken))
  }

  // The ways a live token fails to be on disk: a rotation the server made is lost on its way, and no
  // login has put another token there, or the file is cleared.
  predicate Endangers(s: System, e: Event) {
    match e
    case ReplyLost => RotationUnderWay(s) && !HoldsLive(s)
    case SaveFails => !HoldsLive(s)
    case ClearsDisk => !RotationUnderWay(s)
    case _ => false
  }

  // Main result: a step keeps disk and server in step exactly when it does not endanger the token, and
  // in step nobody goes dead.
  lemma StepInStep(s: System, e: Event)
    requires InStep(s) && Enabled(s, e)
    ensures InStep(Step(s, e)) <==> !Endangers(s, e)
    ensures |Step(s, e).providers| == |s.providers|
    ensures forall i :: 0 <= i < |s.providers| ==> Step(s, e).providers[i].dead == s.providers[i].dead
  {
    StepTidy(s, e);
  }

  predicate NeverEndangers(s: System, es: seq<Event>)
    requires Happens(s, es)
    decreases |es|
  {
    es == [] || (!Endangers(s, es[0]) && NeverEndangers(Step(s, es[0]), es[1..]))
  }

  lemma {:induction false} RunInStep(s: System, es: seq<Event>)
    requires InStep(s) && Happens(s, es) && NeverEndangers(s, es)
    ensures InStep(Run(s, es)) && |Run(s, es).providers| == |s.providers|
    ensures forall i :: 0 <= i < |s.providers| ==> Run(s, es).providers[i].dead == s.providers[i].dead
    decreases |es|
  {
    if es != [] {
      StepInStep(s, es[0]);
      RunInStep(Step(s, es[0]), es[1..]);
    }
  }

  // What a run in step shows: nobody new is dead, a live token is on disk whenever the lock is free, and
  // only live tokens are presented.
  ghost predicate Healthy(s: System, t: System) {
    |t.providers| == |s.providers| &&
    (forall i :: 0 <= i < |s.providers| && t.providers[i].dead ==> s.providers[i].dead) &&
    (t.lock.None? ==> HoldsLive(t)) && (Locked(t) && t.open ==> Holder(t).refreshToken in t.live)
  }

  // Main result: for any number of processes, however stale their own tokens are, and logins at any
  // time, if no rotation is lost and the file is not cleared then no superseded token is ever presented,
  // no process goes dead, and the disk holds a live token whenever the lock is free.
  lemma NobodyGoesDead(tokens: seq<Token>, es: seq<Event>)
    requires Happens(Start(tokens), es) && NeverEndangers(Start(tokens), es)
    ensures Healthy(Start(tokens), Run(Start(tokens), es))
  {
    RunInStep(Start(tokens), es);
  }

  // --- who dies of what ---

  // The server refused the holder's second request, or its first while the disk had nothing better.
  predicate Condemns(s: System, e: Event) {
    e.ReplyArrives? && Locked(s) && Holder(s).stage.Asking? && s.reply == Some(Refused) &&
    (Holder(s).stage.retried || s.disk.None? || s.disk.value == Holder(s).refreshToken)
  }

  // Main result: a process goes dead exactly when it is told so by such a refusal, and stays dead; an echo
  // leaves it alive with the token it presented, and ends its attempt.
  lemma OnlyRefusalKills(s: System, e: Event, i: nat)
    requires Tidy(s) && Enabled(s, e) && i < |s.providers|
    ensures var t := Step(s, e);
            && (t.providers[i].dead <==> s.providers[i].dead || (s.lock == Some(i) && Condemns(s, e)))
            && (s.lock == Some(i) && e.ReplyArrives? && s.reply == Some(Echoed) ==>
                  t.providers[i] == s.providers[i].(stage := Resting) && t.lock.None?)
  {
    StepTidy(s, e);
  }

  // --- recovery ---

  // Main result: whatever was lost before, after a login while the lock is free the processes that are
  // still alive stay alive, for as long as nothing more is lost.
  lemma LoginRecovers(tokens: seq<Token>, past: seq<Event>, es: seq<Event>)
    requires Happens(Start(tokens), past) && Run(Start(tokens), past).lock.None?
    requires var s := Step(Run(Start(tokens), past), LogsIn); Happens(s, es) && NeverEndangers(s, es)
    ensures var s := Run(Start(tokens), past); Healthy(s, Run(Step(s, LogsIn), es))
  {
    RunTidy(Start(tokens), past);
    var s := Run(Start(tokens), past);
    StepTidy(s, LogsIn);
    RunInStep(Step(s, LogsIn), es);
  }

  // Main result: so does a login that comes too late for the first request. Whatever was lost before, a
  // process whose first request is refused while a live token it did not present is on disk does not die
  // of it, and all that are alive stay so for as long as nothing more is lost.
  lemma RetryRecovers(tokens: seq<Token>, past: seq<Event>, es: seq<Event>)
    requires Happens(Start(tokens), past)
    requires var s := Run(Start(tokens), past);
             && HoldsLive(s) && Locked(s) && Holder(s).stage == Asking(false) && s.reply == Some(Refused)
             && Holder(s).refreshToken != s.disk.value
             && Happens(Step(s, ReplyArrives), es) && NeverEndangers(Step(s, ReplyArrives), es)
    ensures var s := Run(Start(tokens), past); Healthy(s, Run(Step(s, ReplyArrives), es))
  {
    RunTidy(Start(tokens), past);
    var s := Run(Start(tokens), past);
    StepTidy(s, ReplyArrives);
    RunInStep(Step(s, ReplyArrives), es);
  }

  // --- at most two requests, whatever happens ---

  predicate Few(p: Provider) {
    p.requests <= 2 && (p.stage.Asking? && !p.stage.retried ==> p.requests == 1)
  }

  predicate FewRequests(s: System) {
    forall i :: 0 <= i < |s.providers| ==> Few(s.providers[i])
  }

  lemma ProviderFew(p: Provider, reply: Reply, disk: Option<Token>)
    requires Few(p)
    ensures Few(Begin(p, disk)) && Few(OnSaved(p)) && (p.stage.Asking? ==> Few(OnReply(p, reply, disk)))
  {
  }

  lemma {:induction false} RunFew(s: System, es: seq<Event>)
    requires FewRequests(s) && Happens(s, es)
    ensures FewRequests(Run(s, es))
    decreases |es|
  {
    if es != [] {
      match es[0] {
        case Acquires(p) => ProviderFew(s.providers[p], Failed, s.disk);
        case ReplyArrives => ProviderFew(Holder(s), s.reply.value, s.disk);
        case ReplyLost => ProviderFew(Holder(s), Failed, s.disk);
        case SaveSucceeds => ProviderFew(Holder(s), Failed, s.disk);
        case SaveFails => ProviderFew(Holder(s), Failed, s.disk);
        case _ =>
      }
      RunFew(Step(s, es[0]), es[1..]);
    }
  }

  // Main result: no attempt makes more than two requests, even when replies and saves are lost and the
  // file changes under it.
  lemma AtMostTwoRequests(tokens: seq<Token>, es: seq<Event>, i: nat)
    requires Happens(Start(tokens), es) && i < |Run(Start(tokens), es).providers|
    ensures Run(Start(tokens), es).providers[i].requests <= 2
  {
    RunFew(Start(tokens), es);
  }

  // --- what a lost rotation costs ---

  // One process, one rotation whose save fails: the process holds the live token, throws it away for the
  // stale one on disk at its next attempt, and may be refused for good.
  lemma FailedSaveMayKill()
    ensures var es := [Acquires(0), ServerAnswers(Rotated(1)), ReplyArrives, SaveFails];
            Happens(Start([0]), es) &&
            var s := Run(Start([0]), es);
            s.providers[0].refreshToken in s.live && !HoldsLive(s) &&
            Happens(s, [Acquires(0), ServerAnswers(Refused), ReplyArrives]) &&
            Run(s, [Acquires(0), ServerAnswers(Refused), ReplyArrives]).providers[0].dead
  {
  }

  // The same run with a login before the refusal: the second request presents its token and is rotated.
  lemma LateLoginRescues()
    ensures var es := [Acquires(0), ServerAnswers(Rotated(1)), ReplyArrives, SaveFails, Acquires(0), LogsIn,
                       ServerAnswers(Refused)];
            Happens(Start([0]), es) &&
            var s := Run(Start([0]), es);
            HoldsLive(s) && Holder(s).stage == Asking(false) && Holder(s).refreshToken != s.disk.value &&
            Happens(s, [ReplyArrives, ServerAnswers(Rotated(3))]) &&
            Run(s, [ReplyArrives, ServerAnswers(Rotated(3))]).providers[0].requests == 2
  {
  }
}
