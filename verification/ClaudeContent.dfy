// The Claude mapper writes exactly what a right telling of the messages it takes in renders to.
module ClaudeContent {
  import opened Wrappers
  import opened Wire
  import opened Scopes
  import opened ClaudeMapper
  import opened ClaudeTelling

  // --- the mapper's state agrees with the telling ---

  // The directory lists exactly the ids in use.
  ghost predicate Filed(callIds: map<ProviderId, Id>, subIds: map<ProviderId, Id>, nextId: nat, ended: nat,
                        dir: map<Key, Id>) {
    OneToOne(dir) && (forall key :: key in dir ==> dir[key] < nextId && key.ended <= ended) &&
    (forall p :: p in callIds ==> CallKey(ended, p) in dir && dir[CallKey(ended, p)] == callIds[p]) &&
    (forall p :: p in subIds ==> SubKey(ended, p) in dir && dir[SubKey(ended, p)] == subIds[p]) &&
    (forall p :: CallKey(ended, p) in dir ==> p in callIds) &&
    (forall p :: SubKey(ended, p) in dir ==> p in subIds)
  }

  ghost predicate Owned(v: seq<Piece>, n: nat, nextId: nat) {
    forall x :: x in v && x.Piece? ==> x.owner < n && (x.made.Some? ==> x.made.value < nextId)
  }

  // The tasks waiting to be claimed under a prompt.
  function Under(tasks: seq<Task>, prompt: string): seq<ProviderId> {
    if tasks == [] then []
    else (if tasks[0].prompt == prompt then [tasks[0].p] else []) + Under(tasks[1..], prompt)
  }

  function QueueOf(prompts: map<string, seq<ProviderId>>, prompt: string): seq<ProviderId> {
    if prompt in prompts then prompts[prompt] else []
  }

  ghost predicate Queues(tasks: seq<Task>, prompts: map<string, seq<ProviderId>>) {
    (forall q :: Under(tasks, q) == QueueOf(prompts, q)) && (forall q :: q in prompts ==> prompts[q] != [])
  }

  // The mapper knows the scene.
  ghost predicate Agrees(scene: Scene, s: State) {
    scene.turn == s.w.turn && scene.started == s.w.started && scene.running == s.w.active &&
    scene.calls == s.subIds.Keys && scene.tasks == s.hidden && scene.under == s.uuidSub &&
    Queues(scene.unclaimed, s.prompts)
  }

  ghost predicate Tells(s: State, t: Tale) {
    s.w.log == Rendered(t.v) && |t.seats| == |s.mapped| && Taken(t.v) == s.mapped &&
    Agrees(SceneOf(t.v), s) &&
    Owned(t.v, |s.mapped|, s.nextId) && Right(t.v, t, s.mapped) &&
    Filed(s.callIds, s.subIds, s.nextId, SceneOf(t.v).ended, t.dir)
  }

  ghost predicate Extends(a: map<Key, Id>, b: map<Key, Id>) {
    forall key :: key in a ==> key in b && b[key] == a[key]
  }

  // Of the first n messages only k has been told more, and that by the given parts.
  ghost predicate TellsMore(v: seq<Piece>, u: seq<Piece>, n: nat, k: int, parts: seq<Part>) {
    v <= u && Forces(u) == Forces(v) &&
    forall j :: 0 <= j < n ==> Own(u, j) == Own(v, j) + if j == k then parts else []
  }

  ghost predicate Complete(v: seq<Piece>, mapped: seq<Mapped>, n: nat) {
    forall j :: n <= j < |mapped| ==> Own(v, j) == Parts(mapped[j].m)
  }

  // From t to u message k is told the given parts more, no other message of before gets any, and those mapped
  // since are told completely.
  ghost predicate Adds(s: State, t: Tale, r: State, u: Tale, k: int, parts: seq<Part>) {
    Tells(r, u) && s.mapped <= r.mapped && t.seats <= u.seats && TellsMore(t.v, u.v, |s.mapped|, k, parts) &&
    Complete(u.v, r.mapped, |s.mapped|)
  }

  lemma TellsMoreTrans(v: seq<Piece>, u: seq<Piece>, z: seq<Piece>, n: nat, k: int, a: seq<Part>, b: seq<Part>)
    requires TellsMore(v, u, n, k, a) && TellsMore(u, z, n, k, b)
    ensures TellsMore(v, z, n, k, a + b)
  {
    forall j | 0 <= j < n
      ensures Own(z, j) == Own(v, j) + if j == k then a + b else []
    {
      assert Own(u, j) == Own(v, j) + if j == k then a else [];
      assert Own(z, j) == Own(u, j) + if j == k then b else [];
    }
  }

  lemma AddsTrans(s: State, t: Tale, r: State, u: Tale, q: State, z: Tale, k: int, a: seq<Part>, b: seq<Part>)
    requires k < |s.mapped| && Adds(s, t, r, u, k, a) && Adds(r, u, q, z, k, b)
    ensures Adds(s, t, q, z, k, a + b)
  {
    assert TellsMore(u.v, z.v, |s.mapped|, k, b);
    TellsMoreTrans(t.v, u.v, z.v, |s.mapped|, k, a, b);
    forall j | |s.mapped| <= j < |q.mapped|
      ensures Own(z.v, j) == Parts(q.mapped[j].m)
    {
      if j < |r.mapped| {
        assert Own(z.v, j) == Own(u.v, j) + [];
        assert q.mapped[j] == r.mapped[j];
      }
    }
  }

  lemma AddsNothing(s: State, t: Tale, r: State, k: int)
    requires Tells(r, t) && r.mapped == s.mapped
    ensures Adds(s, t, r, t, k, [])
  {
  }

  // --- more messages and ids do not make a telling wrong ---

  lemma {:induction false} OwnNone(v: seq<Piece>, n: nat, nextId: nat, j: int)
    requires Owned(v, n, nextId) && j >= n
    ensures Own(v, j) == []
  {
    if v != [] {
      OwnNone(v[..|v| - 1], n, nextId, j);
    }
  }

  lemma {:induction false} StillRight(v: seq<Piece>, t: Tale, mapped: seq<Mapped>, u: Tale, longer: seq<Mapped>,
                                      nextId: nat)
    requires Right(v, t, mapped) && Owned(v, |mapped|, nextId) && mapped <= longer && t.seats <= u.seats
    requires Extends(t.dir, u.dir)
    ensures Right(v, u, longer)
  {
    if v != [] {
      var init, x := v[..|v| - 1], v[|v| - 1];
      assert Owned(init, |mapped|, nextId);
      StillRight(init, t, mapped, u, longer, nextId);
      assert x in v;
      forall j | 0 <= j < |longer| && (x.Forced? || (x.Piece? && x.owner < j))
        ensures Own(init, j) == [] || Own(init, j) == Parts(longer[j].m)
      {
        if j < |mapped| {
          assert Own(init, j) == [] || Own(init, j) == Parts(mapped[j].m);
        } else {
          OwnNone(init, |mapped|, nextId, j);
        }
      }
    }
  }

  // --- one more piece ---

  lemma LastOf(v: seq<Piece>, x: Piece)
    ensures (v + [x])[..|v|] == v
    ensures SceneOf(v + [x]) == After(SceneOf(v), x)
    ensures Rendered(v + [x]) == Rendered(v) + Shown(SceneOf(v), x)
    ensures Forces(v + [x]) == Forces(v) + if x.Forced? then [x.status] else []
    ensures Taken(v + [x]) == Taken(v) + if x.Takes? && !x.waits then [Mapped(x.m, x.parent)] else []
  {
    assert (v + [x])[..|v|] == v;
  }

  lemma OwnLast(v: seq<Piece>, x: Piece, j: int)
    ensures Own(v + [x], j) == Own(v, j) + if x.Piece? && x.owner == j then [x.part] else []
  {
    assert (v + [x])[..|v|] == v;
  }

  // The mapper wrote what piece x shows and nothing else.
  ghost predicate Wrote(s: State, scene: Scene, x: Piece, r: State) {
    r.w.log == s.w.log + Shown(scene, x) && r.mapped == s.mapped && s.nextId <= r.nextId &&
    Agrees(After(scene, x), r)
  }

  lemma OneMore(s: State, t: Tale, x: Piece, r: State, dir: map<Key, Id>) returns (u: Tale)
    requires Tells(s, t) && Wrote(s, SceneOf(t.v), x, r) && Extends(t.dir, dir) && (x.Takes? ==> x.waits)
    requires Fits(t.v, x, t.(dir := dir), s.mapped) && (x.Piece? && x.made.Some? ==> x.made.value < r.nextId)
    requires Filed(r.callIds, r.subIds, r.nextId, After(SceneOf(t.v), x).ended, dir)
    ensures u == Tale(t.v + [x], t.seats, dir) && Tells(r, u)
  {
    u := Tale(t.v + [x], t.seats, dir);
    LastOf(t.v, x);
    StillRight(t.v, t, s.mapped, u, s.mapped, s.nextId);
    forall y | y in u.v && y.Piece?
      ensures y.owner < |r.mapped| && (y.made.Some? ==> y.made.value < r.nextId)
    {
      if y !in t.v {
        assert y == x;
      }
    }
    assert Fits(t.v, x, u, s.mapped);
  }

  lemma PieceAdds(s: State, t: Tale, x: Piece, r: State, dir: map<Key, Id>) returns (u: Tale)
    requires Tells(s, t) && Wrote(s, SceneOf(t.v), x, r) && Extends(t.dir, dir) && x.Piece?
    requires Fits(t.v, x, t.(dir := dir), s.mapped) && (x.made.Some? ==> x.made.value < r.nextId)
    requires Filed(r.callIds, r.subIds, r.nextId, After(SceneOf(t.v), x).ended, dir)
    ensures Adds(s, t, r, u, x.owner, [x.part]) && u == Tale(t.v + [x], t.seats, dir)
  {
    u := OneMore(s, t, x, r, dir);
    LastOf(t.v, x);
    assert t.v <= u.v;
    forall j | 0 <= j < |s.mapped|
      ensures Own(u.v, j) == Own(t.v, j) + if j == x.owner then [x.part] else []
    {
      OwnLast(t.v, x, j);
    }
  }

  // --- what the writer's pieces leave in the log ---

  lemma {:induction false} OthersWithout(ids: seq<Id>, id: Id)
    ensures Others(ids, id) == Scopes.Without(ids, id)
    ensures id !in ids ==> Others(ids, id) == ids
  {
    if ids != [] {
      OthersWithout(ids[1..], id);
    }
  }

  lemma {:induction false} StopAllLog(w: Writer, turn: Id)
    ensures StopAll(w, turn).log == w.log + Stopping(w.active, turn)
    decreases |w.active|
  {
    if w.active != [] {
      var e := AgentIn(SubStop, turn, Some(w.active[0]));
      StopAllLog(Put(w.(active := w.active[1..]), e), turn);
      Reassociate(w.log, [e], Stopping(w.active[1..], turn));
    }
  }

  lemma CloseTurnLog(s: State, status: Status)
    ensures CloseTurn(s, status).w.log
         == s.w.log + if s.w.turn.Some? then Stopping(s.w.active, s.w.turn.value)
                                             + [AgentIn(TurnEnd(status), s.w.turn.value, None)] else []
  {
    if s.w.turn.Some? {
      StopAllLog(s.w, s.w.turn.value);
      Reassociate(s.w.log, Stopping(s.w.active, s.w.turn.value), [AgentIn(TurnEnd(status), s.w.turn.value, None)]);
    }
  }

  lemma {:induction false} EmitImagesLog(s: State, images: seq<ImageSource>, turn: Id, sub: Option<Id>)
    ensures EmitImages(s, images, turn, sub).w.log == s.w.log + InTurn(Pictures(images), turn, sub)
    decreases |images|
  {
    if images != [] {
      var e := AgentIn(ImageEvent(images[0]), turn, sub);
      EmitImagesLog(Emit(s, e), images[1..], turn, sub);
      Reassociate(s.w.log, [e], InTurn(Pictures(images[1..]), turn, sub));
    }
  }

  // --- taking turns ---

  // Message k, in the given seat, may be told further.
  ghost predicate Sits(t: Tale, mapped: seq<Mapped>, k: int, turn: Id, sub: Option<Id>) {
    0 <= k < |mapped| && k < |t.seats| && t.seats[k] == Seat(turn, sub) && GoesOn(t.v, k) && Whole(t.v, mapped, k)
  }

  lemma {:induction false} FirstIsFirst(tasks: seq<Task>, prompt: string)
    ensures FirstFor(tasks, prompt).Some? <==> Under(tasks, prompt) != []
    ensures FirstFor(tasks, prompt).Some? ==>
              FirstFor(tasks, prompt).value == Task(prompt, Under(tasks, prompt)[0]) &&
              FirstFor(tasks, prompt).value in tasks
  {
    if tasks != [] {
      FirstIsFirst(tasks[1..], prompt);
    }
  }

  lemma {:induction false} ClaimedLeaves(tasks: seq<Task>, prompt: string, q: string)
    requires FirstFor(tasks, prompt).Some? && Under(tasks, prompt) != []
    ensures Under(Minus(tasks, FirstFor(tasks, prompt).value), q)
         == if q == prompt then Under(tasks, q)[1..] else Under(tasks, q)
  {
    if tasks[0].prompt == prompt {
      assert Under(tasks, prompt)[1..] == Under(tasks[1..], prompt);
    } else {
      FirstIsFirst(tasks[1..], prompt);
      ClaimedLeaves(tasks[1..], prompt, q);
      var rest := Minus(tasks[1..], FirstFor(tasks, prompt).value);
      assert Minus(tasks, FirstFor(tasks, prompt).value) == [tasks[0]] + rest;
      assert ([tasks[0]] + rest)[1..] == rest;
    }
  }

  lemma DropQueues(tasks: seq<Task>, left: seq<Task>, s: State, prompt: string)
    requires Queues(tasks, s.prompts) && prompt in s.prompts && s.prompts[prompt] != []
    requires forall q :: Under(left, q) == if q == prompt then s.prompts[prompt][1..] else Under(tasks, q)
    ensures Queues(left, DropFirst(s, prompt).prompts)
  {
    var now := DropFirst(s, prompt).prompts;
    forall q
      ensures Under(left, q) == QueueOf(now, q)
    {
      assert Under(tasks, q) == QueueOf(s.prompts, q);
    }
  }

  // Claiming the first task of a prompt drops the first of its queue.
  lemma DropAgrees(tasks: seq<Task>, s: State, prompt: string)
    requires Queues(tasks, s.prompts) && prompt in s.prompts
    ensures FirstFor(tasks, prompt) == Some(Task(prompt, s.prompts[prompt][0]))
    ensures Queues(Minus(tasks, Task(prompt, s.prompts[prompt][0])), DropFirst(s, prompt).prompts)
  {
    FirstIsFirst(tasks, prompt);
    var left := Minus(tasks, Task(prompt, s.prompts[prompt][0]));
    forall q
      ensures Under(left, q) == if q == prompt then s.prompts[prompt][1..] else Under(tasks, q)
    {
      ClaimedLeaves(tasks, prompt, q);
    }
    DropQueues(tasks, left, s, prompt);
  }

  // One prompt is left exactly when the scan finds a sole one, and then its first task is the oldest.
  lemma OneIsSole(tasks: seq<Task>, s: State)
    requires Queues(tasks, s.prompts) && OnePrompt(tasks)
    ensures SolePrompt(s, tasks[0].prompt) && s.prompts[tasks[0].prompt][0] == tasks[0].p
  {
    var prompt := tasks[0].prompt;
    assert Under(tasks, prompt) == QueueOf(s.prompts, prompt);
    forall other | other in s.prompts
      ensures other == prompt
    {
      assert Under(tasks, other) == QueueOf(s.prompts, other);
      FirstIsFirst(tasks, other);
    }
  }

  lemma SoleIsOne(tasks: seq<Task>, s: State, prompt: string)
    requires Queues(tasks, s.prompts) && SolePrompt(s, prompt)
    ensures OnePrompt(tasks) && prompt == tasks[0].prompt
  {
    assert Under(tasks, prompt) == QueueOf(s.prompts, prompt);
    forall t | t in tasks
      ensures t.prompt == prompt
    {
      UnderHolds(tasks, t);
      assert Under(tasks, t.prompt) == QueueOf(s.prompts, t.prompt);
    }
  }

  // The message neither names its parent nor answers a message whose parent is known.
  predicate Asks(scene: Scene, m: Message) {
    m.parentToolUse.None? && !(m.parentUuid.Some? && m.parentUuid.value in scene.under) && m.sidechain
  }

  // A claim found takes its task off the queues.
  ghost predicate Claimed(m: Message, s: State, scene: Scene) {
    var (p, s1) := Resolve(m, s);
    var claim := ClaimOf(scene, m);
    p == ParentOf(scene, m) && s1 == s.(prompts := s1.prompts) &&
    Queues(if claim.Some? then Minus(scene.unclaimed, claim.value) else scene.unclaimed, s1.prompts)
  }

  lemma PromptClaims(m: Message, s: State, scene: Scene)
    requires Agrees(scene, s) && Asks(scene, m) && RootPrompt(m).Some? && RootPrompt(m).value in s.prompts
    ensures Claimed(m, s, scene)
  {
    FirstIsFirst(scene.unclaimed, RootPrompt(m).value);
    DropAgrees(scene.unclaimed, s, RootPrompt(m).value);
  }

  lemma RootClaims(m: Message, s: State, scene: Scene)
    requires Agrees(scene, s) && Asks(scene, m) && (RootPrompt(m).Some? ==> RootPrompt(m).value !in s.prompts)
    ensures Claimed(m, s, scene)
  {
    var tasks := scene.unclaimed;
    if RootPrompt(m).Some? {
      FirstIsFirst(tasks, RootPrompt(m).value);
    }
    forall q | SolePrompt(s, q)
      ensures OnePrompt(tasks) && q == tasks[0].prompt
    {
      SoleIsOne(tasks, s, q);
    }
    if OnePrompt(tasks) {
      OneIsSole(tasks, s);
      DropAgrees(tasks, s, tasks[0].prompt);
    }
  }

  // The mapper finds the parent the scene calls for.
  lemma ResolveAgrees(m: Message, s: State, scene: Scene)
    requires Agrees(scene, s)
    ensures var (p, s1) := Resolve(m, s);
            p == ParentOf(scene, m) && Agrees(Took(scene, m, p), Remember(s1, m, p))
  {
    if Asks(scene, m) {
      if RootPrompt(m).Some? && RootPrompt(m).value in s.prompts {
        PromptClaims(m, s, scene);
      } else {
        RootClaims(m, s, scene);
      }
    }
  }

  // The mapper took message m in, and found p to be its parent.
  ghost predicate TakenIn(m: Message, p: Option<ProviderId>, s: State, scene: Scene, r: State) {
    r == s.(prompts := r.prompts, uuidSub := r.uuidSub) && p == ParentOf(scene, m) && Agrees(Took(scene, m, p), r)
  }

  // A message is taken in and takes its seat.
  lemma Seated(m: Message, p: Option<ProviderId>, s: State, t: Tale, r: State, seat: Seat) returns (u: Tale)
    requires Tells(s, t) && TakenIn(m, p, s, SceneOf(t.v), r) && (p.Some? ==> p.value in s.subIds)
    ensures var r1 := r.(mapped := r.mapped + [Mapped(m, p)]);
            && u == Tale(t.v + [Takes(m, p, false)], t.seats + [seat], t.dir) && Tells(r1, u)
            && Own(u.v, |s.mapped|) == [] && Sits(u, r1.mapped, |s.mapped|, seat.turn, seat.sub)
  {
    var x := Takes(m, p, false);
    u := Tale(t.v + [x], t.seats + [seat], t.dir);
    var mapped := s.mapped + [Mapped(m, p)];
    LastOf(t.v, x);
    StillRight(t.v, t, s.mapped, u, mapped, s.nextId);
    OwnNone(t.v, |s.mapped|, s.nextId, |s.mapped|);
    OwnLast(t.v, x, |s.mapped|);
    assert Fits(t.v, x, u, mapped);
    forall y | y in u.v && y.Piece?
      ensures y in t.v
    {
    }
  }

  // A message told completely, with all it released on the way.
  lemma Finished(m: Message, p: Option<ProviderId>, s: State, t: Tale, seat: Seat, r: State, u: Tale)
    requires Tells(s, t)
    requires var s1 := s.(mapped := s.mapped + [Mapped(m, p)]);
             var t1 := Tale(t.v + [Takes(m, p, false)], t.seats + [seat], t.dir);
             s1.mapped <= r.mapped && Tells(r, u) && t1.seats <= u.seats &&
             TellsMore(t1.v, u.v, |s1.mapped|, |s.mapped|, Parts(m)) && Complete(u.v, r.mapped, |s1.mapped|)
    ensures Adds(s, t, r, u, -1, [])
  {
    var k, x := |s.mapped|, Takes(m, p, false);
    LastOf(t.v, x);
    OwnNone(t.v, k, s.nextId, k);
    assert t.v <= t.v + [x] <= u.v && t.seats <= t.seats + [seat] <= u.seats;
    forall j | 0 <= j < k
      ensures Own(u.v, j) == Own(t.v, j) + []
    {
      OwnLast(t.v, x, j);
      assert Own(u.v, j) == Own(t.v + [x], j) + if j == k then Parts(m) else [];
    }
    forall j | k <= j < |r.mapped|
      ensures Own(u.v, j) == Parts(r.mapped[j].m)
    {
      if j == k {
        OwnLast(t.v, x, k);
        assert Own(u.v, k) == Own(t.v + [x], k) + Parts(m);
      }
    }
  }

  // A message is taken in and has to wait.
  lemma WaitTells(m: Message, p: ProviderId, s: State, t: Tale, r: State) returns (u: Tale)
    requires Tells(s, t) && TakenIn(m, Some(p), s, SceneOf(t.v), r) && p !in s.subIds
    ensures Adds(s, t, BufferMessage(r, p, m), u, -1, [])
  {
    var x := Takes(m, Some(p), true);
    var r1 := BufferMessage(r, p, m);
    u := OneMore(s, t, x, r1, t.dir);
    LastOf(t.v, x);
    forall j | 0 <= j < |s.mapped|
      ensures Own(u.v, j) == Own(t.v, j) + []
    {
      OwnLast(t.v, x, j);
    }
  }

  // What is told of others in between keeps the seat, if message k was at a tool call.
  lemma StillSits(s: State, t: Tale, r: State, u: Tale, k: int, turn: Id, sub: Option<Id>)
    requires Sits(t, s.mapped, k, turn, sub) && Adds(s, t, r, u, -1, [])
    requires Own(t.v, k) != [] && CallsTool(Own(t.v, k)[|Own(t.v, k)| - 1])
    ensures Sits(u, r.mapped, k, turn, sub) && Own(u.v, k) == Own(t.v, k)
  {
    assert Own(u.v, k) == Own(t.v, k) + [];
    forall j | k < j < |r.mapped|
      ensures Own(u.v, j) == [] || Own(u.v, j) == Parts(r.mapped[j].m)
    {
      if j < |s.mapped| {
        assert Own(u.v, j) == Own(t.v, j) + [];
        assert r.mapped[j] == s.mapped[j];
      }
    }
  }

  // Telling a piece of message k keeps its seat.
  lemma PieceSits(s: State, t: Tale, x: Piece, r: State, dir: map<Key, Id>) returns (u: Tale)
    requires Tells(s, t) && Wrote(s, SceneOf(t.v), x, r) && Extends(t.dir, dir) && x.Piece?
    requires Fits(t.v, x, t.(dir := dir), s.mapped) && (x.made.Some? ==> x.made.value < r.nextId)
    requires Filed(r.callIds, r.subIds, r.nextId, After(SceneOf(t.v), x).ended, dir)
    ensures Adds(s, t, r, u, x.owner, [x.part]) && Sits(u, r.mapped, x.owner, x.turn, x.sub)
    ensures u == Tale(t.v + [x], t.seats, dir) && Own(u.v, x.owner) == Own(t.v, x.owner) + [x.part]
  {
    u := PieceAdds(s, t, x, r, dir);
    OwnLast(t.v, x, x.owner);
    assert GoesOn(u.v, x.owner);
    forall j | x.owner < j < |s.mapped|
      ensures Own(u.v, j) == [] || Own(u.v, j) == Parts(s.mapped[j].m)
    {
      OwnLast(t.v, x, j);
      assert Own(t.v, j) == [] || Own(t.v, j) == Parts(s.mapped[j].m);
    }
  }

  // --- ids ---

  lemma CallFiled(s: State, p: ProviderId, ended: nat, dir: map<Key, Id>) returns (more: map<Key, Id>)
    requires Filed(s.callIds, s.subIds, s.nextId, ended, dir)
    ensures var r := MintCall(s, p);
            && Filed(r.callIds, r.subIds, r.nextId, ended, more) && Extends(dir, more)
            && CallKey(ended, p) in more && more[CallKey(ended, p)] == r.callIds[p]
  {
    more := if p in s.callIds then dir else dir[CallKey(ended, p) := s.nextId];
  }

  lemma SubFiled(s: State, p: ProviderId, ended: nat, dir: map<Key, Id>) returns (more: map<Key, Id>)
    requires Filed(s.callIds, s.subIds, s.nextId, ended, dir)
    ensures var r := MintSub(s, p); Filed(r.callIds, r.subIds, r.nextId, ended, more) && Extends(dir, more)
  {
    more := if p in s.subIds then dir else dir[SubKey(ended, p) := s.nextId];
  }

  lemma LaterFiled(callIds: map<ProviderId, Id>, subIds: map<ProviderId, Id>, nextId: nat, later: nat, ended: nat,
                   dir: map<Key, Id>)
    requires Filed(callIds, subIds, nextId, ended, dir) && nextId <= later
    ensures Filed(callIds, subIds, later, ended, dir)
  {
  }

  lemma ClosedFiled(callIds: map<ProviderId, Id>, subIds: map<ProviderId, Id>, nextId: nat, ended: nat,
                    dir: map<Key, Id>)
    requires Filed(callIds, subIds, nextId, ended, dir)
    ensures Filed(map[], map[], nextId, ended + 1, dir)
  {
  }

  // --- the kinds of pieces ---

  // Message k was told the given parts and keeps its seat.
  ghost predicate Carries(s: State, t: Tale, r: State, u: Tale, k: int, parts: seq<Part>, turn: Id, sub: Option<Id>) {
    Adds(s, t, r, u, k, parts) && Sits(u, r.mapped, k, turn, sub)
  }

  lemma CarriesTrans(s: State, t: Tale, r: State, u: Tale, q: State, z: Tale, k: int, a: seq<Part>, b: seq<Part>,
                     turn: Id, sub: Option<Id>)
    requires k < |s.mapped| && Carries(s, t, r, u, k, a, turn, sub) && Carries(r, u, q, z, k, b, turn, sub)
    ensures Carries(s, t, q, z, k, a + b, turn, sub)
  {
    AddsTrans(s, t, r, u, q, z, k, a, b);
  }

  lemma CarriesNothing(s: State, t: Tale, k: int, turn: Id, sub: Option<Id>)
    requires Tells(s, t) && Sits(t, s.mapped, k, turn, sub)
    ensures Carries(s, t, s, t, k, [], turn, sub)
  {
    AddsNothing(s, t, s, k);
  }

  // A piece that names no call, needs no ids, and finds the turn as it is.
  lemma Plain(s: State, t: Tale, k: nat, part: Part, turn: Id, sub: Option<Id>, r: State) returns (u: Tale)
    requires Tells(s, t) && Sits(t, s.mapped, k, turn, sub) && !part.Joins? && !CallsTool(part)
    requires var x := Piece(k, part, turn, sub, None, 0, None); CallOf(x).None? && Wrote(s, SceneOf(t.v), x, r)
    requires r.callIds == s.callIds && r.subIds == s.subIds && r.nextId == s.nextId
    requires !part.Leaves?
    ensures Carries(s, t, r, u, k, [part], turn, sub) && Own(u.v, k) == Own(t.v, k) + [part]
    ensures SceneOf(u.v) == After(SceneOf(t.v), Piece(k, part, turn, sub, None, 0, None))
  {
    var x := Piece(k, part, turn, sub, None, 0, None);
    LastOf(t.v, x);
    u := PieceSits(s, t, x, r, t.dir);
  }

  lemma Says1(s: State, t: Tale, k: nat, part: Part, turn: Id, sub: Option<Id>, e: Envelope) returns (u: Tale)
    requires Tells(s, t) && Sits(t, s.mapped, k, turn, sub) && !part.Joins? && !part.Leaves? && !CallsTool(part)
    requires var x := Piece(k, part, turn, sub, None, 0, None);
             CallOf(x).None? && Shown(SceneOf(t.v), x) == [e]
    ensures Carries(s, t, Emit(s, e), u, k, [part], turn, sub) && Own(u.v, k) == Own(t.v, k) + [part]
  {
    u := Plain(s, t, k, part, turn, sub, Emit(s, e));
  }

  lemma Says0(s: State, t: Tale, k: nat, part: Part, turn: Id, sub: Option<Id>) returns (u: Tale)
    requires Tells(s, t) && Sits(t, s.mapped, k, turn, sub) && !part.Joins? && !part.Leaves? && !CallsTool(part)
    requires var x := Piece(k, part, turn, sub, None, 0, None); CallOf(x).None? && Shown(SceneOf(t.v), x) == []
    ensures Carries(s, t, s, u, k, [part], turn, sub) && Own(u.v, k) == Own(t.v, k) + [part]
  {
    u := Plain(s, t, k, part, turn, sub, s);
  }

  function SubOf(s: State, p: Option<ProviderId>): Option<Id> {
    if p.Some? && p.value in s.subIds then Some(s.subIds[p.value]) else None
  }

  lemma JoinWrites(s: State, scene: Scene, x: Piece)
    requires x.Piece? && x.part.Joins? && x.turn == EnsureTurn(s).w.turn.value && Agrees(scene, s)
    ensures Wrote(s, scene, x, if x.part.opens then OpenScope(EnsureTurn(s), x.turn, x.sub) else EnsureTurn(s))
  {
    var opening := if scene.turn.None? then [AgentIn(TurnStart, x.turn, None)] else [];
    assert EnsureTurn(s).w.log == s.w.log + opening;
    if Starts(scene, x.part.opens, x.sub) {
      Reassociate(s.w.log, opening, [AgentIn(SubStart, x.turn, x.sub)]);
    }
  }

  lemma JoinPiece(s: State, t: Tale, x: Piece, r: State) returns (u: Tale)
    requires Tells(s, t) && x.Piece? && x.part.Joins? && Sits(t, s.mapped, x.owner, x.turn, x.sub) && x.made.None?
    requires x.stops.None? && Wrote(s, SceneOf(t.v), x, r) && r.callIds == s.callIds && r.subIds == s.subIds
    requires s.w.turn.None? || s.w.turn == Some(x.turn)
    requires var p := s.mapped[x.owner].parent; (p.Some? ==> p.value in s.subIds) && x.sub == SubOf(s, p)
    ensures Carries(s, t, r, u, x.owner, [x.part], x.turn, x.sub) && Own(u.v, x.owner) == Own(t.v, x.owner) + [x.part]
  {
    LastOf(t.v, x);
    LaterFiled(s.callIds, s.subIds, s.nextId, r.nextId, SceneOf(t.v).ended, t.dir);
    u := PieceSits(s, t, x, r, t.dir);
  }

  // The message goes into a turn.
  lemma JoinTells(s: State, t: Tale, k: nat, turn: Id, sub: Option<Id>, opens: bool) returns (u: Tale)
    requires Tells(s, t) && Sits(t, s.mapped, k, turn, sub) && turn == EnsureTurn(s).w.turn.value
    requires var p := s.mapped[k].parent; (p.Some? ==> p.value in s.subIds) && sub == SubOf(s, p)
    ensures var r := if opens then OpenScope(EnsureTurn(s), turn, sub) else EnsureTurn(s);
            Carries(s, t, r, u, k, [Joins(opens)], turn, sub) && Own(u.v, k) == Own(t.v, k) + [Joins(opens)]
  {
    var x := Piece(k, Joins(opens), turn, sub, None, 0, None);
    var r := if opens then OpenScope(EnsureTurn(s), turn, sub) else EnsureTurn(s);
    JoinWrites(s, SceneOf(t.v), x);
    u := JoinPiece(s, t, x, r);
  }

  // The turn ends before a human prompt.
  lemma LeaveTells(s: State, t: Tale, k: nat, turn: Id, sub: Option<Id>) returns (u: Tale)
    requires Tells(s, t) && Sits(t, s.mapped, k, turn, sub)
    ensures Carries(s, t, CloseTurn(s, Completed), u, k, [Leaves], turn, sub)
    ensures Own(u.v, k) == Own(t.v, k) + [Leaves]
  {
    var x := Piece(k, Leaves, turn, sub, None, 0, None);
    CloseTurnLog(s, Completed);
    LastOf(t.v, x);
    ClosedFiled(s.callIds, s.subIds, s.nextId, SceneOf(t.v).ended, t.dir);
    u := PieceSits(s, t, x, CloseTurn(s, Completed), t.dir);
  }

  // --- human prompts ---

  lemma PromptTells(b: Block, s: State, t: Tale, k: nat, turn: Id, sub: Option<Id>) returns (u: Tale)
    requires Tells(s, t) && Sits(t, s.mapped, k, turn, sub)
    ensures Carries(s, t, PromptBlock(b, s), u, k, [Told(Prompting, b)], turn, sub)
  {
    var part := Told(Prompting, b);
    var shown := Shown(SceneOf(t.v), Piece(k, part, turn, sub, None, 0, None));
    if shown == [] {
      u := Says0(s, t, k, part, turn, sub);
    } else {
      u := Says1(s, t, k, part, turn, sub, shown[0]);
    }
  }

  lemma {:induction false} UserPromptTells(blocks: seq<Block>, s: State, t: Tale, k: nat, turn: Id, sub: Option<Id>)
      returns (u: Tale)
    requires Tells(s, t) && Sits(t, s.mapped, k, turn, sub)
    ensures Carries(s, t, UserPrompt(blocks, s), u, k, Each(Prompting, blocks), turn, sub)
    decreases |blocks|
  {
    u := t;
    if blocks == [] {
      CarriesNothing(s, t, k, turn, sub);
    } else {
      var t1 := PromptTells(blocks[0], s, t, k, turn, sub);
      var s1 := PromptBlock(blocks[0], s);
      u := UserPromptTells(blocks[1..], s1, t1, k, turn, sub);
      CarriesTrans(s, t, s1, t1, UserPrompt(blocks, s), u, k, [Told(Prompting, blocks[0])],
        Each(Prompting, blocks[1..]), turn, sub);
    }
  }

  // --- results ---

  // The subagent a result stops.
  function StoppedBy(s: State, b: Block): Option<Id>
    requires b.ToolResult?
  {
    if b.callId.Some? then SubOf(s, Some(Raw(b.callId.value))) else None
  }

  lemma QuitLog(s: State, scene: Scene, turn: Id, p: ProviderId, stops: Option<Id>)
    requires Agrees(scene, s)
    ensures var s1 := s.(w := StopSub(s.w, turn, stops));
            && s1.w.log == s.w.log + Quitting(scene, turn, stops) && s1.w.turn == s.w.turn
            && Agrees(Answered(scene, p, stops), s1.(hidden := s.hidden - {p}))
  {
    if stops.Some? {
      OthersWithout(s.w.active, stops.value);
    }
  }

  lemma HiddenResultWrites(b: Block, s: State, scene: Scene, x: Piece)
    requires x.Piece? && x.part == Told(Replying, b) && b.ToolResult? && b.callId.Some? && x.stops == StoppedBy(s, b)
    requires Agrees(scene, s) && Raw(b.callId.value) in s.hidden
    ensures var r := ToolResultBlock(b, x.turn, x.sub, s);
            && Wrote(s, scene, x, r) && r.callIds == s.callIds && r.subIds == s.subIds && r.nextId == s.nextId
            && After(scene, x).ended == scene.ended
  {
    QuitLog(s, scene, x.turn, Raw(b.callId.value), x.stops);
  }

  lemma ResultFits(b: Block, s: State, t: Tale, x: Piece, dir: map<Key, Id>)
    requires Tells(s, t) && x.Piece? && Sits(t, s.mapped, x.owner, x.turn, x.sub) && x.part == Told(Replying, b)
    requires b.ToolResult? && b.callId.Some? && x.stops == StoppedBy(s, b) && Extends(t.dir, dir)
    requires var p, scene := Raw(b.callId.value), SceneOf(t.v);
             p in s.hidden || (CallKey(scene.ended, p) in dir && dir[CallKey(scene.ended, p)] == x.call)
    ensures Fits(t.v, x, t.(dir := dir), s.mapped)
  {
  }

  lemma HiddenResultTells(b: Block, s: State, t: Tale, k: nat, turn: Id, sub: Option<Id>) returns (u: Tale)
    requires Tells(s, t) && Sits(t, s.mapped, k, turn, sub) && b.ToolResult?
    requires b.callId.Some? && Raw(b.callId.value) in s.hidden
    ensures Carries(s, t, ToolResultBlock(b, turn, sub, s), u, k, [Told(Replying, b)], turn, sub)
  {
    var x := Piece(k, Told(Replying, b), turn, sub, None, 0, StoppedBy(s, b));
    HiddenResultWrites(b, s, SceneOf(t.v), x);
    ResultFits(b, s, t, x, t.dir);
    LastOf(t.v, x);
    u := PieceSits(s, t, x, ToolResultBlock(b, turn, sub, s), t.dir);
  }

  lemma EndToolCallLog(b: Block, p: ProviderId, turn: Id, sub: Option<Id>, s: State)
    requires b.ToolResult?
    ensures var r, s1 := EndToolCall(b, p, turn, sub, s), MintCall(s, p);
            && r == s1.(w := s1.w.(log := r.w.log))
            && r.w.log
            == s.w.log + InTurn([ToolEnd(s1.callIds[p], !b.isError, b.output)] + Pictures(b.images), turn, sub)
  {
    var s1 := MintCall(s, p);
    var end := ToolEnd(s1.callIds[p], !b.isError, b.output);
    EmitImagesLog(Emit(s1, AgentIn(end, turn, sub)), b.images, turn, sub);
    assert ([end] + Pictures(b.images))[1..] == Pictures(b.images);
    Reassociate(s.w.log, [AgentIn(end, turn, sub)], InTurn(Pictures(b.images), turn, sub));
  }

  // A result that is shown: the subagent the call spawned stops, and the call ends.
  lemma ShownResultIs(b: Block, turn: Id, sub: Option<Id>, s: State)
    requires b.ToolResult? && b.callId.Some? && Raw(b.callId.value) !in s.hidden
    ensures ToolResultBlock(b, turn, sub, s)
         == EndToolCall(b, Raw(b.callId.value), turn, sub, s.(w := StopSub(s.w, turn, StoppedBy(s, b))))
  {
  }

  lemma MintCallKeeps(s: State, w: Writer, p: ProviderId)
    ensures MintCall(s.(w := w), p) == MintCall(s, p).(w := w)
  {
  }

  lemma ShownResultShows(scene: Scene, x: Piece, b: Block)
    requires x.Piece? && x.part == Told(Replying, b) && b.ToolResult? && b.callId.Some?
    requires Raw(b.callId.value) !in scene.tasks
    ensures Shown(scene, x)
         == Quitting(scene, x.turn, x.stops)
            + InTurn([ToolEnd(x.call, !b.isError, b.output)] + Pictures(b.images), x.turn, x.sub)
    ensures After(scene, x) == Answered(scene, Raw(b.callId.value), x.stops)
  {
  }

  lemma ShownResultWrites(b: Block, s: State, scene: Scene, x: Piece)
    requires x.Piece? && x.part == Told(Replying, b) && b.ToolResult? && b.callId.Some? && x.stops == StoppedBy(s, b)
    requires Agrees(scene, s) && Raw(b.callId.value) !in s.hidden
    requires x.call == MintCall(s, Raw(b.callId.value)).callIds[Raw(b.callId.value)]
    ensures var r, s1 := ToolResultBlock(b, x.turn, x.sub, s), MintCall(s, Raw(b.callId.value));
            && Wrote(s, scene, x, r) && r.callIds == s1.callIds && r.subIds == s1.subIds && r.nextId == s1.nextId
  {
    var p := Raw(b.callId.value);
    ShownResultIs(b, x.turn, x.sub, s);
    QuitLog(s, scene, x.turn, p, x.stops);
    var w := StopSub(s.w, x.turn, x.stops);
    EndToolCallLog(b, p, x.turn, x.sub, s.(w := w));
    MintCallKeeps(s, w, p);
    ShownResultShows(scene, x, b);
    assert s.hidden - {p} == s.hidden;
    Reassociate(s.w.log, Quitting(scene, x.turn, x.stops),
      InTurn([ToolEnd(x.call, !b.isError, b.output)] + Pictures(b.images), x.turn, x.sub));
  }

  lemma EndPiece(b: Block, s: State, t: Tale, x: Piece, r: State) returns (u: Tale)
    requires Tells(s, t) && x.Piece? && Sits(t, s.mapped, x.owner, x.turn, x.sub) && x.part == Told(Replying, b)
    requires b.ToolResult? && b.callId.Some? && Wrote(s, SceneOf(t.v), x, r) && x.made.None?
    requires x.stops == StoppedBy(s, b)
    requires var p := Raw(b.callId.value);
             var s1 := MintCall(s, p);
             r.callIds == s1.callIds && r.subIds == s1.subIds && r.nextId == s1.nextId && x.call == s1.callIds[p]
    ensures Carries(s, t, r, u, x.owner, [x.part], x.turn, x.sub)
  {
    var dir := CallFiled(s, Raw(b.callId.value), SceneOf(t.v).ended, t.dir);
    ResultFits(b, s, t, x, dir);
    LastOf(t.v, x);
    u := PieceSits(s, t, x, r, dir);
  }

  lemma ShownResultTells(b: Block, s: State, t: Tale, k: nat, turn: Id, sub: Option<Id>) returns (u: Tale)
    requires Tells(s, t) && Sits(t, s.mapped, k, turn, sub) && b.ToolResult?
    requires b.callId.Some? && Raw(b.callId.value) !in s.hidden
    ensures Carries(s, t, ToolResultBlock(b, turn, sub, s), u, k, [Told(Replying, b)], turn, sub)
  {
    var p := Raw(b.callId.value);
    var x := Piece(k, Told(Replying, b), turn, sub, None, MintCall(s, p).callIds[p], StoppedBy(s, b));
    ShownResultWrites(b, s, SceneOf(t.v), x);
    u := EndPiece(b, s, t, x, ToolResultBlock(b, turn, sub, s));
  }

  lemma InTurnOne(ev: Event, turn: Id, sub: Option<Id>)
    ensures InTurn([ev], turn, sub) == [AgentIn(ev, turn, sub)]
  {
    assert [ev][1..] == [];
  }

  lemma AsideIs(b: Block, turn: Id, sub: Option<Id>, s: State)
    requires !b.ToolResult?
    ensures var says := Replied(b, s.hidden, 0);
            if says == [] then ResultBlock(b, turn, sub, s) == s
            else says == [says[0]] && ResultBlock(b, turn, sub, s) == Emit(s, AgentIn(says[0], turn, sub))
  {
  }

  // A block beside the results.
  lemma AsideTells(b: Block, s: State, t: Tale, k: nat, turn: Id, sub: Option<Id>) returns (u: Tale)
    requires Tells(s, t) && Sits(t, s.mapped, k, turn, sub) && !b.ToolResult?
    ensures Carries(s, t, ResultBlock(b, turn, sub, s), u, k, [Told(Replying, b)], turn, sub)
  {
    var says := Replied(b, s.hidden, 0);
    AsideIs(b, turn, sub, s);
    if says == [] {
      u := Says0(s, t, k, Told(Replying, b), turn, sub);
    } else {
      InTurnOne(says[0], turn, sub);
      u := Says1(s, t, k, Told(Replying, b), turn, sub, AgentIn(says[0], turn, sub));
    }
  }

  // A result that names no call is dropped.
  lemma NamelessTells(b: Block, s: State, t: Tale, k: nat, turn: Id, sub: Option<Id>) returns (u: Tale)
    requires Tells(s, t) && Sits(t, s.mapped, k, turn, sub) && b.ToolResult? && b.callId.None?
    ensures Carries(s, t, s, u, k, [Told(Replying, b)], turn, sub) && ResultBlock(b, turn, sub, s) == s
  {
    u := Says0(s, t, k, Told(Replying, b), turn, sub);
  }

  lemma ResultTells(b: Block, s: State, t: Tale, k: nat, turn: Id, sub: Option<Id>) returns (u: Tale)
    requires Tells(s, t) && Sits(t, s.mapped, k, turn, sub)
    ensures Carries(s, t, ResultBlock(b, turn, sub, s), u, k, [Told(Replying, b)], turn, sub)
  {
    if !b.ToolResult? {
      u := AsideTells(b, s, t, k, turn, sub);
    } else if b.callId.None? {
      u := NamelessTells(b, s, t, k, turn, sub);
    } else if Raw(b.callId.value) in s.hidden {
      u := HiddenResultTells(b, s, t, k, turn, sub);
    } else {
      u := ShownResultTells(b, s, t, k, turn, sub);
    }
  }

  lemma {:induction false} ResultsTell(blocks: seq<Block>, s: State, t: Tale, k: nat, turn: Id, sub: Option<Id>)
      returns (u: Tale)
    requires Tells(s, t) && Sits(t, s.mapped, k, turn, sub)
    ensures Carries(s, t, ResultBlocks(blocks, turn, sub, s), u, k, Each(Replying, blocks), turn, sub)
    decreases |blocks|
  {
    u := t;
    if blocks == [] {
      CarriesNothing(s, t, k, turn, sub);
    } else {
      var t1 := ResultTells(blocks[0], s, t, k, turn, sub);
      var s1 := ResultBlock(blocks[0], turn, sub, s);
      u := ResultsTell(blocks[1..], s1, t1, k, turn, sub);
      CarriesTrans(s, t, s1, t1, ResultBlocks(blocks, turn, sub, s), u, k, [Told(Replying, blocks[0])],
        Each(Replying, blocks[1..]), turn, sub);
    }
  }

  // --- messages that release nothing ---

  // A block of an assistant message that calls no tool.
  lemma SpokenTells(b: Block, s: State, t: Tale, k: nat, turn: Id, sub: Option<Id>) returns (u: Tale)
    requires Tells(s, t) && Sits(t, s.mapped, k, turn, sub) && !b.ToolUse?
    ensures Carries(s, t, AssistantBlock(b, turn, sub, s), u, k, [Told(Speaking, b)], turn, sub)
    ensures Own(u.v, k) == Own(t.v, k) + [Told(Speaking, b)]
  {
    var says := Spoken(b, 0);
    if says == [] {
      u := Says0(s, t, k, Told(Speaking, b), turn, sub);
    } else {
      InTurnOne(says[0], turn, sub);
      u := Says1(s, t, k, Told(Speaking, b), turn, sub, AgentIn(says[0], turn, sub));
    }
  }

  lemma ResultsMessageTells(m: Message, s: State, t: Tale, k: nat, turn: Id, sub: Option<Id>) returns (u: Tale)
    requires Tells(s, t) && Sits(t, s.mapped, k, turn, sub) && turn == EnsureTurn(s).w.turn.value
    requires var p := s.mapped[k].parent; (p.Some? ==> p.value in s.subIds) && sub == SubOf(s, p)
    requires m.body.UserBlocks? && (m.sidechain || HasToolResult(m.body.blocks))
    ensures Carries(s, t, MapUserBlocks(m, sub, s), u, k, [Joins(m.sidechain)] + Each(Replying, m.body.blocks), turn,
              sub)
  {
    var t1 := JoinTells(s, t, k, turn, sub, m.sidechain);
    var s1 := if m.sidechain then OpenScope(EnsureTurn(s), turn, sub) else EnsureTurn(s);
    u := ResultsTell(m.body.blocks, s1, t1, k, turn, sub);
    CarriesTrans(s, t, s1, t1, MapUserBlocks(m, sub, s), u, k, [Joins(m.sidechain)],
      Each(Replying, m.body.blocks), turn, sub);
  }

  lemma PromptMessageTells(m: Message, s: State, t: Tale, k: nat, turn: Id, sub: Option<Id>) returns (u: Tale)
    requires Tells(s, t) && Sits(t, s.mapped, k, turn, sub)
    requires m.body.UserBlocks? && !m.sidechain && !HasToolResult(m.body.blocks)
    ensures Carries(s, t, MapUserBlocks(m, sub, s), u, k, [Leaves] + Each(Prompting, m.body.blocks), turn, sub)
  {
    var t1 := LeaveTells(s, t, k, turn, sub);
    u := UserPromptTells(m.body.blocks, CloseTurn(s, Completed), t1, k, turn, sub);
    CarriesTrans(s, t, CloseTurn(s, Completed), t1, MapUserBlocks(m, sub, s), u, k, [Leaves],
      Each(Prompting, m.body.blocks), turn, sub);
  }

  lemma SidechainTextTells(m: Message, s: State, t: Tale, k: nat, turn: Id, sub: Option<Id>) returns (u: Tale)
    requires Tells(s, t) && Sits(t, s.mapped, k, turn, sub) && turn == EnsureTurn(s).w.turn.value
    requires var p := s.mapped[k].parent; (p.Some? ==> p.value in s.subIds) && sub == SubOf(s, p)
    requires m.body.UserText? && !m.body.meta && m.body.command.Plain? && m.sidechain
    ensures Carries(s, t, MapUserText(m, sub, s), u, k, [Joins(true)] + [Told(Speaking, TextBlock(m.body.text))], turn,
              sub)
  {
    var t1 := JoinTells(s, t, k, turn, sub, true);
    var s1 := OpenScope(EnsureTurn(s), turn, sub);
    u := SpokenTells(TextBlock(m.body.text), s1, t1, k, turn, sub);
    CarriesTrans(s, t, s1, t1, MapUserText(m, sub, s), u, k, [Joins(true)], [Told(Speaking, TextBlock(m.body.text))],
      turn, sub);
  }

  lemma PromptTextTells(m: Message, s: State, t: Tale, k: nat, turn: Id, sub: Option<Id>) returns (u: Tale)
    requires Tells(s, t) && Sits(t, s.mapped, k, turn, sub)
    requires m.body.UserText? && !m.body.meta && m.body.command.Plain? && !m.sidechain
    ensures Carries(s, t, MapUserText(m, sub, s), u, k, [Leaves] + [Asked(m.body.text.raw)], turn, sub)
  {
    var t1 := LeaveTells(s, t, k, turn, sub);
    var s1 := CloseTurn(s, Completed);
    u := Says1(s1, t1, k, Asked(m.body.text.raw), turn, sub, Envelope(User, Text(m.body.text.raw, false), None, None));
    CarriesTrans(s, t, s1, t1, MapUserText(m, sub, s), u, k, [Leaves], [Asked(m.body.text.raw)], turn, sub);
  }

  lemma NoteTells(note: string, s: State, t: Tale, k: nat, turn: Id, sub: Option<Id>) returns (u: Tale)
    requires Tells(s, t) && Sits(t, s.mapped, k, turn, sub)
    ensures Carries(s, t, Emit(s, Envelope(Agent, Service(note), None, None)), u, k, [Noted(note)], turn, sub)
  {
    u := Says1(s, t, k, Noted(note), turn, sub, Envelope(Agent, Service(note), None, None));
  }

  lemma PartsOfText(m: Message)
    requires m.body.UserText?
    ensures Parts(m) == if m.body.meta || m.body.command.Invocation? then []
                        else if m.body.command.Stdout? then [Noted(m.body.command.cleaned)]
                        else if m.sidechain then [Joins(true)] + [Told(Speaking, TextBlock(m.body.text))]
                        else [Leaves] + [Asked(m.body.text.raw)]
  {
  }

  lemma UserTextTells(m: Message, s: State, t: Tale, k: nat, turn: Id, sub: Option<Id>) returns (u: Tale)
    requires Tells(s, t) && Sits(t, s.mapped, k, turn, sub) && turn == EnsureTurn(s).w.turn.value
    requires var p := s.mapped[k].parent; (p.Some? ==> p.value in s.subIds) && sub == SubOf(s, p)
    requires m.body.UserText?
    ensures Carries(s, t, MapUserText(m, sub, s), u, k, Parts(m), turn, sub)
  {
    u := t;
    PartsOfText(m);
    if m.body.meta || m.body.command.Invocation? {
      CarriesNothing(s, t, k, turn, sub);
    } else if m.body.command.Stdout? {
      u := NoteTells(m.body.command.cleaned, s, t, k, turn, sub);
    } else if m.sidechain {
      u := SidechainTextTells(m, s, t, k, turn, sub);
    } else {
      u := PromptTextTells(m, s, t, k, turn, sub);
    }
  }

  lemma PartsOfBlocks(m: Message)
    requires m.body.UserBlocks? && !m.body.meta && m.body.blocks != []
    ensures Parts(m) == if m.sidechain || HasToolResult(m.body.blocks)
                        then [Joins(m.sidechain)] + Each(Replying, m.body.blocks)
                        else [Leaves] + Each(Prompting, m.body.blocks)
  {
    assert HasToolResult(m.body.blocks) <==> exists b :: b in m.body.blocks && b.ToolResult?;
  }

  lemma UserBlocksTell(m: Message, s: State, t: Tale, k: nat, turn: Id, sub: Option<Id>) returns (u: Tale)
    requires Tells(s, t) && Sits(t, s.mapped, k, turn, sub) && turn == EnsureTurn(s).w.turn.value
    requires var p := s.mapped[k].parent; (p.Some? ==> p.value in s.subIds) && sub == SubOf(s, p)
    requires m.body.UserBlocks?
    ensures Carries(s, t, MapFlat(m, sub, s), u, k, Parts(m), turn, sub)
  {
    u := t;
    if m.body.meta || m.body.blocks == [] {
      CarriesNothing(s, t, k, turn, sub);
    } else {
      PartsOfBlocks(m);
      if m.sidechain || HasToolResult(m.body.blocks) {
        u := ResultsMessageTells(m, s, t, k, turn, sub);
      } else {
        u := PromptMessageTells(m, s, t, k, turn, sub);
      }
    }
  }

  lemma FlatTells(m: Message, s: State, t: Tale, k: nat, turn: Id, sub: Option<Id>) returns (u: Tale)
    requires Tells(s, t) && Sits(t, s.mapped, k, turn, sub) && turn == EnsureTurn(s).w.turn.value
    requires var p := s.mapped[k].parent; (p.Some? ==> p.value in s.subIds) && sub == SubOf(s, p)
    requires !m.body.Assistant?
    ensures Carries(s, t, MapFlat(m, sub, s), u, k, Parts(m), turn, sub)
  {
    u := t;
    match m.body {
      case CompactSummary => u := NoteTells("History compacted (/clear)", s, t, k, turn, sub);
      case UserText(_, _, _) => u := UserTextTells(m, s, t, k, turn, sub);
      case UserBlocks(_, _) => u := UserBlocksTell(m, s, t, k, turn, sub);
      case _ => CarriesNothing(s, t, k, turn, sub);
    }
  }

  // --- a tool call ---

  lemma MadeFiled(s: State, ended: nat, dir: map<Key, Id>) returns (more: map<Key, Id>)
    requires Filed(s.callIds, s.subIds, s.nextId, ended, dir)
    ensures var r := MintSub(s.(nextId := s.nextId + 1), Made(s.nextId));
            && Filed(r.callIds, r.subIds, r.nextId, ended, more) && Extends(dir, more) && s.nextId < r.nextId
  {
    var s1 := s.(nextId := s.nextId + 1);
    LaterFiled(s.callIds, s.subIds, s.nextId, s1.nextId, ended, dir);
    more := SubFiled(s1, Made(s.nextId), ended, dir);
  }

  lemma IdentifyIs(b: Block, s: State)
    requires b.ToolUse?
    ensures b.id.Some? ==> IdentifyCall(b, s).0 == MintSub(s, Raw(b.id.value))
    ensures b.id.None? ==> IdentifyCall(b, s).0 == MintSub(s.(nextId := s.nextId + 1), Made(s.nextId))
  {
  }

  // The ids of a tool_use are filed.
  lemma IdentifyFiled(b: Block, s: State, ended: nat, dir: map<Key, Id>) returns (more: map<Key, Id>)
    requires b.ToolUse? && Filed(s.callIds, s.subIds, s.nextId, ended, dir)
    ensures var r := IdentifyCall(b, s).0;
            && Filed(r.callIds, r.subIds, r.nextId, ended, more) && Extends(dir, more) && s.nextId <= r.nextId
            && (b.id.None? ==> s.nextId < r.nextId)
  {
    IdentifyIs(b, s);
    if b.id.Some? {
      more := SubFiled(s, Raw(b.id.value), ended, dir);
    } else {
      more := MadeFiled(s, ended, dir);
    }
  }

  // The piece a tool_use is told by.
  function CallPiece(b: Block, s: State, k: nat, turn: Id, sub: Option<Id>): (x: Piece)
    requires b.ToolUse?
    ensures x.Piece? && CallOf(x) == Some(IdentifyCall(b, s).1)
  {
    var (s1, p) := IdentifyCall(b, s);
    Piece(k, Told(Speaking, b), turn, sub, if b.id.Some? then None else Some(s.nextId),
          if b.name == "Task" then 0 else MintCall(s1, p).callIds[p], None)
  }

  function CallDone(b: Block, s: State, turn: Id, sub: Option<Id>): State
    requires b.ToolUse?
  {
    var (s1, p) := IdentifyCall(b, s);
    Detach(AnnounceCall(b, p, turn, sub, s1), p)
  }

  lemma {:induction false} UnderLast(tasks: seq<Task>, t: Task, q: string)
    ensures Under(tasks + [t], q) == Under(tasks, q) + if t.prompt == q then [t.p] else []
  {
    if tasks == [] {
      assert ([] + [t])[1..] == [];
    } else {
      UnderLast(tasks[1..], t, q);
      assert (tasks + [t])[1..] == tasks[1..] + [t];
    }
  }

  lemma {:induction false} UnderHolds(tasks: seq<Task>, t: Task)
    ensures t in tasks <==> t.p in Under(tasks, t.prompt)
  {
    if tasks != [] {
      UnderHolds(tasks[1..], t);
      assert t in tasks <==> tasks[0] == t || t in tasks[1..];
    }
  }

  lemma QueuedTasks(tasks: seq<Task>, s: State, prompt: string, p: ProviderId)
    requires Queues(tasks, s.prompts)
    ensures Queues(if Task(prompt, p) in tasks then tasks else tasks + [Task(prompt, p)],
              QueuePrompt(s, prompt, p).prompts)
  {
    UnderHolds(tasks, Task(prompt, p));
    forall q
      ensures Under(tasks + [Task(prompt, p)], q) == Under(tasks, q) + if prompt == q then [p] else []
    {
      UnderLast(tasks, Task(prompt, p), q);
    }
  }

  lemma IdentifyAgrees(b: Block, s: State, scene: Scene)
    requires b.ToolUse? && Agrees(scene, s)
    ensures var (s1, p) := IdentifyCall(b, s);
            && Agrees(scene.(calls := scene.calls + {p}), s1)
            && s1.w == s.w && s1.mapped == s.mapped && s.nextId <= s1.nextId
  {
  }

  lemma TaskAgrees(prompt: Option<string>, p: ProviderId, s: State, scene: Scene)
    requires Agrees(scene.(calls := scene.calls + {p}), s)
    ensures Agrees(Called(scene, p, true, prompt), Detach(RegisterTask(prompt, p, s), p))
  {
    if prompt.Some? {
      QueuedTasks(scene.unclaimed, s, prompt.value, p);
    }
  }

  lemma CardIs(name: string, description: Option<JsText>)
    ensures ToolTitle(name, description) == Title(name, description) && ToolRisk(name) == RiskOf(name)
  {
  }

  lemma StartWrites(b: Block, p: ProviderId, s: State, scene: Scene, x: Piece)
    requires b.ToolUse? && b.name != "Task" && x.Piece? && x.part == Told(Speaking, b) && CallOf(x) == Some(p)
    requires Agrees(scene.(calls := scene.calls + {p}), s) && x.call == MintCall(s, p).callIds[p]
    ensures Wrote(s, scene, x, Detach(StartToolCall(b, p, x.turn, x.sub, s), p))
  {
    var s1 := MintCall(s, p);
    CardIs(b.name, b.description);
    var ev := ToolStart(x.call, b.name, Some(Title(b.name, b.description)), b.input, RiskOf(b.name));
    InTurnOne(ev, x.turn, x.sub);
  }

  lemma TaskWrites(b: Block, p: ProviderId, s: State, scene: Scene, x: Piece)
    requires b.ToolUse? && b.name == "Task" && x.Piece? && x.part == Told(Speaking, b) && CallOf(x) == Some(p)
    requires Agrees(scene.(calls := scene.calls + {p}), s)
    ensures Wrote(s, scene, x, Detach(RegisterTask(b.prompt, p, s), p))
  {
    TaskAgrees(b.prompt, p, s, scene);
  }

  lemma WroteSince(s: State, s1: State, scene: Scene, x: Piece, r: State)
    requires Wrote(s1, scene, x, r) && s1.w == s.w && s1.mapped == s.mapped && s.nextId <= s1.nextId
    ensures Wrote(s, scene, x, r)
  {
  }

  lemma CallWrites(b: Block, s: State, k: nat, turn: Id, sub: Option<Id>, scene: Scene)
    requires b.ToolUse? && Agrees(scene, s)
    ensures Wrote(s, scene, CallPiece(b, s, k, turn, sub), CallDone(b, s, turn, sub))
  {
    var (s1, p) := IdentifyCall(b, s);
    var x := CallPiece(b, s, k, turn, sub);
    IdentifyAgrees(b, s, scene);
    if b.name == "Task" {
      TaskWrites(b, p, s1, scene, x);
    } else {
      StartWrites(b, p, s1, scene, x);
    }
    WroteSince(s, s1, scene, x, CallDone(b, s, turn, sub));
  }

  lemma StartFiled(b: Block, p: ProviderId, s: State, turn: Id, sub: Option<Id>, ended: nat, dir: map<Key, Id>)
      returns (more: map<Key, Id>)
    requires b.ToolUse? && Filed(s.callIds, s.subIds, s.nextId, ended, dir)
    ensures var r := Detach(StartToolCall(b, p, turn, sub, s), p);
            && Filed(r.callIds, r.subIds, r.nextId, ended, more) && Extends(dir, more) && s.nextId <= r.nextId
            && CallKey(ended, p) in more && more[CallKey(ended, p)] == MintCall(s, p).callIds[p]
  {
    more := CallFiled(s, p, ended, dir);
  }

  lemma TaskFiled(b: Block, p: ProviderId, s: State, ended: nat, dir: map<Key, Id>)
    requires b.ToolUse? && Filed(s.callIds, s.subIds, s.nextId, ended, dir)
    ensures var r := Detach(RegisterTask(b.prompt, p, s), p);
            Filed(r.callIds, r.subIds, r.nextId, ended, dir) && r.nextId == s.nextId
  {
  }

  lemma CallDoneFiled(b: Block, s: State, k: nat, turn: Id, sub: Option<Id>, ended: nat, dir: map<Key, Id>)
      returns (more: map<Key, Id>)
    requires b.ToolUse? && Filed(s.callIds, s.subIds, s.nextId, ended, dir)
    ensures var r, x := CallDone(b, s, turn, sub), CallPiece(b, s, k, turn, sub);
            && Filed(r.callIds, r.subIds, r.nextId, ended, more) && Extends(dir, more)
            && (x.made.Some? ==> x.made.value < r.nextId)
            && (b.name != "Task" ==>
                  CallKey(ended, CallOf(x).value) in more && more[CallKey(ended, CallOf(x).value)] == x.call)
  {
    var (s1, p) := IdentifyCall(b, s);
    var dir1 := IdentifyFiled(b, s, ended, dir);
    if b.name == "Task" {
      TaskFiled(b, p, s1, ended, dir1);
      more := dir1;
    } else {
      more := StartFiled(b, p, s1, turn, sub, ended, dir1);
    }
  }

  lemma CallFits(b: Block, s: State, t: Tale, k: nat, turn: Id, sub: Option<Id>, dir: map<Key, Id>)
    requires Tells(s, t) && Sits(t, s.mapped, k, turn, sub) && b.ToolUse?
    requires var x, ended := CallPiece(b, s, k, turn, sub), SceneOf(t.v).ended;
             b.name != "Task" ==>
               CallKey(ended, CallOf(x).value) in dir && dir[CallKey(ended, CallOf(x).value)] == x.call
    ensures Fits(t.v, CallPiece(b, s, k, turn, sub), t.(dir := dir), s.mapped)
  {
    var x := CallPiece(b, s, k, turn, sub);
    if b.id.None? {
      forall y | y in t.v && y.Piece?
        ensures y.made != x.made
      {
      }
    }
  }

  lemma CallTells(b: Block, s: State, t: Tale, k: nat, turn: Id, sub: Option<Id>) returns (u: Tale)
    requires Tells(s, t) && Sits(t, s.mapped, k, turn, sub) && b.ToolUse?
    ensures Carries(s, t, CallDone(b, s, turn, sub), u, k, [Told(Speaking, b)], turn, sub)
    ensures Own(u.v, k) == Own(t.v, k) + [Told(Speaking, b)]
  {
    var x := CallPiece(b, s, k, turn, sub);
    CallWrites(b, s, k, turn, sub, SceneOf(t.v));
    var dir := CallDoneFiled(b, s, k, turn, sub, SceneOf(t.v).ended, t.dir);
    CallFits(b, s, t, k, turn, sub, dir);
    LastOf(t.v, x);
    u := PieceSits(s, t, x, CallDone(b, s, turn, sub), dir);
  }

  // The usage report that ends an assistant message.
  function Reported(usage: Option<(nat, nat)>, turn: Id, sub: Option<Id>, s: State): State {
    if usage.Some? then Emit(s, AgentIn(Usage(usage.value.0, usage.value.1), turn, sub)) else s
  }

  function Count(usage: Option<(nat, nat)>): seq<Part> {
    if usage.Some? then [Counted(usage.value.0, usage.value.1)] else []
  }

  lemma PartsOfAssistant(m: Message)
    requires m.body.Assistant?
    ensures Parts(m) == [Joins(true)] + Each(Speaking, m.body.blocks) + Count(m.body.usage)
  {
  }

  lemma UsageTells(usage: Option<(nat, nat)>, s: State, t: Tale, k: nat, turn: Id, sub: Option<Id>) returns (u: Tale)
    requires Tells(s, t) && Sits(t, s.mapped, k, turn, sub)
    ensures Carries(s, t, Reported(usage, turn, sub, s), u, k, Count(usage), turn, sub)
  {
    u := t;
    if usage.Some? {
      var (i, o) := usage.value;
      u := Says1(s, t, k, Counted(i, o), turn, sub, AgentIn(Usage(i, o), turn, sub));
    } else {
      CarriesNothing(s, t, k, turn, sub);
    }
  }

  // --- the recursion ---

  // A message, told or put to wait, with everything it releases.
  lemma {:induction false} MessageTells(m: Message, s: State, t: Tale) returns (u: Tale)
    requires Tells(s, t)
    ensures Adds(s, t, MapMessage(m, s), u, -1, [])
    decreases Waiting(s), 5, 0
  {
    var (p, s1) := Resolve(m, s);
    var s2 := Remember(s1, m, p);
    ResolveAgrees(m, s, SceneOf(t.v));
    if p.Some? && p.value !in s2.subIds {
      u := WaitTells(m, p.value, s, t, s2);
    } else {
      var seat := Seat(EnsureTurn(s2).w.turn.value, SubOf(s2, p));
      var t1 := Seated(m, p, s, t, s2, seat);
      u := ResolvedTells(m, p, s2, t1, seat);
      Finished(m, p, s, t, seat, MapResolved(m, p, s2), u);
    }
  }

  lemma {:induction false} ResolvedTells(m: Message, p: Option<ProviderId>, s: State, t: Tale, seat: Seat)
      returns (u: Tale)
    requires (p.Some? ==> p.value in s.subIds) && seat == Seat(EnsureTurn(s).w.turn.value, SubOf(s, p))
    requires var s1 := s.(mapped := s.mapped + [Mapped(m, p)]);
             Tells(s1, t) && Sits(t, s1.mapped, |s.mapped|, seat.turn, seat.sub)
    ensures Adds(s.(mapped := s.mapped + [Mapped(m, p)]), t, MapResolved(m, p, s), u, |s.mapped|, Parts(m))
    decreases Waiting(s), 4, 0
  {
    var s1 := s.(mapped := s.mapped + [Mapped(m, p)]);
    if m.body.Assistant? {
      u := AssistantTells(m, s1, t, |s.mapped|, seat.turn, seat.sub);
    } else {
      u := FlatTells(m, s1, t, |s.mapped|, seat.turn, seat.sub);
    }
  }

  lemma {:induction false} AssistantTells(m: Message, s: State, t: Tale, k: nat, turn: Id, sub: Option<Id>)
      returns (u: Tale)
    requires Tells(s, t) && Sits(t, s.mapped, k, turn, sub) && turn == EnsureTurn(s).w.turn.value
    requires var p := s.mapped[k].parent; (p.Some? ==> p.value in s.subIds) && sub == SubOf(s, p)
    requires m.body.Assistant?
    ensures Adds(s, t, MapAssistant(m.body, sub, s), u, k, Parts(m))
    decreases Waiting(s), 3, 0
  {
    PartsOfAssistant(m);
    var s1 := OpenScope(EnsureTurn(s), turn, sub);
    var t1 := JoinTells(s, t, k, turn, sub, true);
    var t2 := BlocksTell(m.body.blocks, s1, t1, k, turn, sub);
    var s2 := AssistantBlocks(m.body.blocks, turn, sub, s1);
    var told := Each(Speaking, m.body.blocks);
    CarriesTrans(s, t, s1, t1, s2, t2, k, [Joins(true)], told, turn, sub);
    u := UsageTells(m.body.usage, s2, t2, k, turn, sub);
    AddsTrans(s, t, s2, t2, Reported(m.body.usage, turn, sub, s2), u, k, [Joins(true)] + told, Count(m.body.usage));
  }

  lemma {:induction false} BlocksTell(blocks: seq<Block>, s: State, t: Tale, k: nat, turn: Id, sub: Option<Id>)
      returns (u: Tale)
    requires Tells(s, t) && Sits(t, s.mapped, k, turn, sub)
    ensures Carries(s, t, AssistantBlocks(blocks, turn, sub, s), u, k, Each(Speaking, blocks), turn, sub)
    decreases Waiting(s), 2, |blocks|
  {
    u := t;
    if blocks == [] {
      CarriesNothing(s, t, k, turn, sub);
    } else {
      var t1: Tale;
      if blocks[0].ToolUse? {
        t1 := ToolUseTells(blocks[0], s, t, k, turn, sub);
      } else {
        t1 := SpokenTells(blocks[0], s, t, k, turn, sub);
      }
      var s1 := AssistantBlock(blocks[0], turn, sub, s);
      u := BlocksTell(blocks[1..], s1, t1, k, turn, sub);
      CarriesTrans(s, t, s1, t1, AssistantBlocks(blocks, turn, sub, s), u, k, [Told(Speaking, blocks[0])],
        Each(Speaking, blocks[1..]), turn, sub);
    }
  }

  lemma {:induction false} ToolUseTells(b: Block, s: State, t: Tale, k: nat, turn: Id, sub: Option<Id>)
      returns (u: Tale)
    requires Tells(s, t) && Sits(t, s.mapped, k, turn, sub) && b.ToolUse?
    ensures Carries(s, t, ToolUseBlock(b, turn, sub, s), u, k, [Told(Speaking, b)], turn, sub)
    decreases Waiting(s), 1, 0
  {
    var (s1, p) := IdentifyCall(b, s);
    var s2 := AnnounceCall(b, p, turn, sub, s1);
    ContentsPut(s2.buffers, p, []);
    var t1 := CallTells(b, s, t, k, turn, sub);
    var s3 := Detach(s2, p);
    u := ReplayTells(Queued(s2.buffers, p), s3, t1);
    var r := Replay(Queued(s2.buffers, p), s3);
    StillSits(s3, t1, r, u, k, turn, sub);
    AddsForOther(s3, t1, r, u, k);
    AddsTrans(s, t, s3, t1, r, u, k, [Told(Speaking, b)], []);
    assert [Told(Speaking, b)] + [] == [Told(Speaking, b)];
  }

  lemma AddsForOther(s: State, t: Tale, r: State, u: Tale, k: int)
    requires Adds(s, t, r, u, -1, [])
    ensures Adds(s, t, r, u, k, [])
  {
  }

  lemma {:induction false} ReplayTells(ms: seq<Message>, s: State, t: Tale) returns (u: Tale)
    requires Tells(s, t)
    ensures Adds(s, t, Replay(ms, s), u, -1, [])
    decreases Waiting(s) + |ms|, 0, |ms|
  {
    u := t;
    if ms == [] {
      AddsNothing(s, t, s, -1);
    } else {
      var s1 := MapMessage(ms[0], s);
      var t1 := MessageTells(ms[0], s, t);
      u := ReplayTells(ms[1..], s1, t1);
      AddsTrans(s, t, s1, t1, Replay(ms, s), u, -1, [], []);
    }
  }

  // --- every run ---

  function Forcings(inputs: seq<Input>): seq<Status> {
    if inputs == [] then []
    else
      Forcings(inputs[..|inputs| - 1]) +
      if inputs[|inputs| - 1].ForceClose? then [inputs[|inputs| - 1].status] else []
  }

  lemma ForceTells(s: State, t: Tale, status: Status) returns (u: Tale)
    requires Tells(s, t) && Complete(t.v, s.mapped, 0)
    ensures Tells(CloseTurn(s, status), u) && Complete(u.v, s.mapped, 0) && Forces(u.v) == Forces(t.v) + [status]
  {
    var x := Forced(status);
    CloseTurnLog(s, status);
    LastOf(t.v, x);
    ClosedFiled(s.callIds, s.subIds, s.nextId, SceneOf(t.v).ended, t.dir);
    u := OneMore(s, t, x, CloseTurn(s, status), t.dir);
    forall j | 0 <= j < |s.mapped|
      ensures Own(u.v, j) == Parts(s.mapped[j].m)
    {
      OwnLast(t.v, x, j);
    }
  }

  lemma StepTells(s: State, t: Tale, i: Input) returns (u: Tale)
    requires Tells(s, t) && Complete(t.v, s.mapped, 0)
    ensures Tells(Step(s, i), u) && Complete(u.v, Step(s, i).mapped, 0)
    ensures Forces(u.v) == Forces(t.v) + if i.ForceClose? then [i.status] else []
  {
    if i.ForceClose? {
      u := ForceTells(s, t, i.status);
    } else {
      u := MessageTells(i.m, s, t);
      var r := MapMessage(i.m, s);
      forall j | 0 <= j < |r.mapped|
        ensures Own(u.v, j) == Parts(r.mapped[j].m)
      {
        if j < |s.mapped| {
          assert Own(u.v, j) == Own(t.v, j) + [];
          assert r.mapped[j] == s.mapped[j];
        }
      }
    }
  }

  lemma {:induction false} RunLast(s: State, inputs: seq<Input>, i: Input)
    ensures Run(s, inputs + [i]) == Step(Run(s, inputs), i)
    decreases |inputs|
  {
    if inputs == [] {
      assert ([] + [i])[1..] == [];
    } else {
      assert (inputs + [i])[1..] == inputs[1..] + [i];
      RunLast(Step(s, inputs[0]), inputs[1..], i);
    }
  }

  lemma {:induction false} RunTells(inputs: seq<Input>) returns (t: Tale)
    ensures var s := Run(INITIAL, inputs);
            Tells(s, t) && Complete(t.v, s.mapped, 0) && Forces(t.v) == Forcings(inputs)
    decreases |inputs|
  {
    t := Tale([], [], map[]);
    if inputs != [] {
      var before, i := inputs[..|inputs| - 1], inputs[|inputs| - 1];
      assert inputs == before + [i];
      var t0 := RunTells(before);
      RunLast(INITIAL, before, i);
      t := StepTells(Run(INITIAL, before), t0, i);
    }
  }

  // Main result: on every run, what the mapper wrote is what one telling renders to, envelope by envelope.
  // It takes in the mapped messages in order, and between them those that had to wait, each under the call
  // the telling so far says it belongs to, waiting exactly when that call was not made yet. It has one piece
  // for every part of every mapped message, in order, and one for every forced close. All pieces of a message
  // carry the turn that was open, or was opened, when it joined, and the subagent of its call; a call has one
  // id until the turn ends, and no two calls or subagents share one.
  lemma EveryPartTold(inputs: seq<Input>) returns (t: Tale)
    ensures var s := Run(INITIAL, inputs);
            && s.w.log == Rendered(t.v) && Right(t.v, t, s.mapped) && OneToOne(t.dir)
            && Taken(t.v) == s.mapped
            && (forall k :: 0 <= k < |s.mapped| ==> Own(t.v, k) == Parts(s.mapped[k].m))
            && Forces(t.v) == Forcings(inputs)
  {
    t := RunTells(inputs);
  }
}
