// The session metadata writer (packages/cli/src/api/sessionMetadata.ts): compare-and-swap updates of
// a shared blob that other clients write too.
module MetadataCas {
  import opened Wrappers

  type Json = string
  datatype Field = Absent | Null | Str(s: string)
  datatype Source = Auto | Manual

  // The parsed blob; `extra` holds the keys this writer knows nothing about.
  datatype Meta = Meta(title: string, path: string, providerSessionId: Field, model: Field,
                       titleSource: Option<Source>, extra: map<string, Json>)

  function OrNull(f: Field): Field {
    if f.Absent? then Null else f
  }

  function Normalize(m: Meta): Meta {
    m.(providerSessionId := OrNull(m.providerSessionId), model := OrNull(m.model))
  }

  // Arguments are trimmed and non-empty; a blank argument never becomes a task.
  datatype Patch = SetModel(model: string) | SetTitle(title: string)

  // computeNext: None when there is nothing to write.
  function Apply(p: Patch, current: Meta): Option<Meta> {
    match p
    case SetModel(model) => if current.model == Str(model) then None else Some(current.(model := Str(model)))
    case SetTitle(title) =>
      if current.titleSource == Some(Manual) then None
      else if current.title == title && current.titleSource == Some(Auto) then None
      else Some(current.(title := title, titleSource := Some(Auto)))
  }

  // --- the writer ---

  // A request is tagged with the patch it carries out.
  datatype Request = Request(expected: nat, value: Meta, patch: Patch)

  // `conflicts` counts the 409s of the running task, `first` is the version the first one reported.
  datatype Task = Idle | Waiting(r: Request, conflicts: nat, first: nat)

  datatype Writer = Writer(meta: Meta, version: nat, queue: seq<Patch>, task: Task)

  // The stored value as a reader finds it: sealed metadata, a box that does not open or parse, or null.
  datatype Stored = Readable(m: Meta) | Unreadable | Missing

  datatype Reply = Committed(version: nat) | Conflict(version: nat, stored: Stored)

  // One turn of the loop: compute the patch on the cached value, and send it under the cached version.
  function Attempt(w: Writer, p: Patch, conflicts: nat, first: nat): Writer {
    var next := Apply(p, w.meta);
    w.(task := if next.None? then Idle else Waiting(Request(w.version, next.value, p), conflicts, first))
  }

  function Begin(w: Writer): Writer
    requires w.task.Idle? && w.queue != []
  {
    Attempt(w.(queue := w.queue[1..]), w.queue[0], 0, 0)
  }

  // The version is taken over before the value is read: null keeps the old metadata, an unreadable box
  // throws.
  function OnReply(w: Writer, reply: Reply): Writer
    requires w.task.Waiting?
  {
    match reply
    case Committed(v) => w.(meta := w.task.r.value, version := v, task := Idle)
    case Conflict(v, stored) =>
      var first := if w.task.conflicts == 0 then v else w.task.first;
      var w1 := w.(version := v);
      match stored
      case Readable(m) => Attempt(w1.(meta := Normalize(m)), w.task.r.patch, w.task.conflicts + 1, first)
      case Missing => Attempt(w1, w.task.r.patch, w.task.conflicts + 1, first)
      case Unreadable => w1.(task := Idle)
  }

  // A network error or any other status: the update throws, the next one starts from the cache.
  function OnFailure(w: Writer): Writer {
    w.(task := Idle)
  }

  // --- the server and other writers ---

  // `history[v]` is what was stored at version v. `net` are requests sent and not yet handled, some of
  // them given up by their task; `reply` answers the running task; `own` maps the versions this writer
  // committed to their patches, and `task` are those the running task committed.
  datatype System = System(history: seq<Stored>, w: Writer, net: seq<Request>, reply: Option<Reply>,
                           own: map<nat, Patch>, task: set<nat>)

  datatype Event =
    | Asks(p: Patch)
    | Begins
    | ServerHandles(i: nat)
    | ReplyArrives
    | Fails
    | OthersWrite(stored: Stored)

  predicate Enabled(s: System, e: Event) {
    match e
    case Begins => s.w.task.Idle? && s.w.queue != []
    case ServerHandles(i) => i < |s.net|
    case ReplyArrives => s.w.task.Waiting? && s.reply.Some?
    case Fails => s.w.task.Waiting?
    case _ => true
  }

  function Last(history: seq<Stored>): nat {
    if history == [] then 0 else |history| - 1
  }

  // A request is sent whenever the step leaves a task waiting for a new answer.
  function Sent(s: System, w: Writer): System {
    s.(w := w, reply := None, net := if w.task.Waiting? then s.net + [w.task.r] else s.net)
  }

  // The last request sent is the running task's own; earlier ones were given up.
  function Handle(s: System, i: nat): System
    requires i < |s.net|
  {
    var r := s.net[i];
    var mine := i == |s.net| - 1 && s.w.task.Waiting? && s.reply.None?;
    var s1 := s.(net := s.net[..i] + s.net[i + 1..]);
    if r.expected == Last(s.history) then
      s1.(history := s.history + [Readable(r.value)], own := s.own[|s.history| := r.patch],
          task := if mine then s.task + {|s.history|} else s.task,
          reply := if mine then Some(Committed(|s.history|)) else s.reply)
    else
      var stored := if s.history == [] then Missing else s.history[Last(s.history)];
      s1.(reply := if mine then Some(Conflict(Last(s.history), stored)) else s.reply)
  }

  function Step(s: System, e: Event): System
    requires Enabled(s, e)
  {
    match e
    case Asks(p) => s.(w := s.w.(queue := s.w.queue + [p]))
    case Begins => Sent(s, Begin(s.w)).(task := {})
    case ServerHandles(i) => Handle(s, i)
    case ReplyArrives => Sent(s, OnReply(s.w, s.reply.value))
    case Fails => s.(w := OnFailure(s.w), reply := None)
    case OthersWrite(stored) => s.(history := s.history + [stored])
  }

  predicate Happens(s: System, es: seq<Event>)
    decreases |es|
  {
    es == [] || (Enabled(s, es[0]) && Happens(Step(s, es[0]), es[1..]))
  }

  function Run(s: System, es: seq<Event>): System
    requires Happens(s, es)
    decreases |es|
  {
    if es == [] then s else Run(Step(s, es[0]), es[1..])
  }

  // --- what the writer relies on ---

  predicate StoredAt(s: System, v: nat, m: Meta) {
    v < |s.history| && s.history[v].Readable? && m == Normalize(s.history[v].m)
  }

  // The request carries its patch applied to the value stored at the version it expects.
  predicate FromStored(s: System, r: Request) {
    r.expected < |s.history| && s.history[r.expected].Readable? &&
    Apply(r.patch, Normalize(s.history[r.expected].m)) == Some(r.value)
  }

  predicate Answers(s: System, reply: Reply) {
    s.w.task.Waiting? &&
    match reply
    case Committed(v) => v < |s.history| && s.history[v] == Readable(s.w.task.r.value)
    case Conflict(v, stored) => v < |s.history| && s.history[v] == stored && s.w.task.r.expected < v
  }

  // A commit of this writer replaced a readable value by its own patch of it.
  predicate Replaced(s: System, v: nat) {
    v in s.own && 0 < v < |s.history| && s.history[v - 1].Readable? && s.history[v].Readable? &&
    Apply(s.own[v], Normalize(s.history[v - 1].m)) == Some(s.history[v].m)
  }

  // The cached pair is from the server's history, and so is every request and reply under way.
  ghost predicate Coherent(s: System) {
    StoredAt(s, s.w.version, s.w.meta) &&
    (forall i :: 0 <= i < |s.net| ==> FromStored(s, s.net[i])) &&
    (s.w.task.Waiting? ==>
      s.w.task.r.expected == s.w.version && FromStored(s, s.w.task.r) &&
      (s.reply.Some? ==> Answers(s, s.reply.value)) &&
      (s.reply.None? ==> s.net != [] && s.net[|s.net| - 1] == s.w.task.r)) &&
    (s.w.task.Idle? ==> s.reply.None?) &&
    (forall v :: v in s.own ==> Replaced(s, v))
  }

  // Every 409 of a task after its first moved the cached version on, and the update itself committed none
  // of the versions up to it.
  ghost predicate Charged(s: System) {
    s.w.task.Waiting? ==>
      (s.w.task.conflicts > 0 ==> s.w.task.conflicts - 1 <= s.w.version - s.w.task.first) &&
      forall v :: v in s.task ==> s.reply == Some(Committed(v)) && s.w.version < v
  }

  // The 409 that breaks the cache: the version moves, the metadata does not.
  predicate Breaks(s: System, e: Event) {
    e.ReplyArrives? && s.w.task.Waiting? && s.reply.Some? && s.reply.value.Conflict? && !s.reply.value.stored.Readable?
  }

  // Nothing stored is ever rewritten.
  lemma HistoryGrows(s: System, t: System)
    requires s.history <= t.history
    ensures forall r :: FromStored(s, r) ==> FromStored(t, r)
    ensures forall v, m :: StoredAt(s, v, m) ==> StoredAt(t, v, m)
  {
  }

  lemma CommitCoherent(s: System, i: nat)
    requires Coherent(s) && i < |s.net| && s.net[i].expected == Last(s.history)
    ensures Coherent(Handle(s, i))
  {
  }

  lemma HandleCoherent(s: System, i: nat)
    requires Coherent(s) && i < |s.net|
    ensures Coherent(Handle(s, i))
  {
    if s.net[i].expected == Last(s.history) {
      CommitCoherent(s, i);
    } else {
      HistoryGrows(s, Handle(s, i));
    }
  }

  lemma OthersWriteCoherent(s: System, stored: Stored)
    requires Coherent(s)
    ensures Coherent(Step(s, OthersWrite(stored)))
  {
  }

  lemma AttemptCoherent(s: System, p: Patch, conflicts: nat, first: nat)
    requires Coherent(s) && s.w.task.Idle?
    ensures Coherent(Sent(s, Attempt(s.w, p, conflicts, first)))
  {
  }

  lemma ReplyCoherent(s: System)
    requires Coherent(s) && Enabled(s, ReplyArrives)
    ensures Coherent(Step(s, ReplyArrives)) <==> !Breaks(s, ReplyArrives)
  {
  }

  // Main result: a step keeps the cached pair in the server's history exactly when it is not a 409
  // whose current value is null or unreadable.
  lemma StepCoherent(s: System, e: Event)
    requires Coherent(s) && Enabled(s, e)
    ensures Coherent(Step(s, e)) <==> !Breaks(s, e)
  {
    match e {
      case Asks(p) =>
      case Begins => AttemptCoherent(s.(w := s.w.(queue := s.w.queue[1..])), s.w.queue[0], 0, 0);
      case ServerHandles(i) => HandleCoherent(s, i);
      case ReplyArrives => ReplyCoherent(s);
      case Fails =>
      case OthersWrite(stored) => OthersWriteCoherent(s, stored);
    }
  }

  lemma StepCharged(s: System, e: Event)
    requires Coherent(s) && Charged(s) && Enabled(s, e) && !Breaks(s, e)
    ensures Charged(Step(s, e))
  {
  }

  predicate NeverBreaks(s: System, es: seq<Event>)
    requires Happens(s, es)
    decreases |es|
  {
    es == [] || (!Breaks(s, es[0]) && NeverBreaks(Step(s, es[0]), es[1..]))
  }

  lemma {:induction false} RunCoherent(s: System, es: seq<Event>)
    requires Coherent(s) && Charged(s) && Happens(s, es) && NeverBreaks(s, es)
    ensures Coherent(Run(s, es)) && Charged(Run(s, es))
    decreases |es|
  {
    if es != [] {
      StepCoherent(s, es[0]);
      StepCharged(s, es[0]);
      RunCoherent(Step(s, es[0]), es[1..]);
    }
  }

  // The writer starts from a version it was given together with its metadata.
  function Start(m: Meta): System {
    System([Readable(m)], Writer(Normalize(m), 0, [], Idle), [], None, map[], {})
  }

  // Main result: on every run in which no 409 carries a null or unreadable value, each commit of this
  // writer is its patch applied to the value it replaced: the new title or model is in place and was not
  // before, unknown keys, path, provider session and the other field survive, and a manual title is never
  // replaced.
  lemma NoForeignUpdateLost(m: Meta, es: seq<Event>, v: nat)
    requires Happens(Start(m), es) && NeverBreaks(Start(m), es)
    requires v in Run(Start(m), es).own
    ensures var s := Run(Start(m), es);
            0 < v < |s.history| && s.history[v - 1].Readable? && s.history[v].Readable? &&
            var (before, after) := (Normalize(s.history[v - 1].m), s.history[v].m);
            Apply(s.own[v], before) == Some(after) &&
            after.extra == before.extra && after.path == before.path &&
            after.providerSessionId == before.providerSessionId &&
            match s.own[v]
            case SetTitle(title) =>
              after.title == title && after.titleSource == Some(Auto) && before.titleSource != Some(Manual) &&
              after.model == before.model && !(before.title == title && before.titleSource == Some(Auto))
            case SetModel(model) =>
              after.model == Str(model) && before.model != Str(model) && after.title == before.title &&
              after.titleSource == before.titleSource
  {
    RunCoherent(Start(m), es);
    assert Replaced(Run(Start(m), es), v);
  }

  // Main result: on every such run the cached version and value are always one the server stored
  // together, and the 409s of an update after its first are no more than the commits that happened since
  // then, none of which is the update's own.
  lemma ConflictsAreCharged(m: Meta, es: seq<Event>)
    requires Happens(Start(m), es) && NeverBreaks(Start(m), es)
    ensures var s := Run(Start(m), es);
            StoredAt(s, s.w.version, s.w.meta) &&
            (s.w.task.Waiting? && s.w.task.conflicts > 0 ==>
              s.w.task.conflicts - 1 <= s.w.version - s.w.task.first && s.w.version < |s.history| &&
              forall v :: s.w.task.first < v <= s.w.version ==> v !in s.task)
  {
    RunCoherent(Start(m), es);
  }

  // --- what a null or unreadable value breaks ---

  const MINE := Meta("t", "p", Null, Null, Some(Auto), map[])
  const RENAMED := MINE.(model := Str("m"))

  // An update waits for its answer, and another behind it, when someone else stores `theirs` at version 1.
  function Contended(theirs: Stored): System {
    System([Readable(MINE), theirs],
           Writer(MINE, 0, [SetModel("m")], Waiting(Request(0, RENAMED, SetModel("m")), 0, 0)),
           [Request(0, RENAMED, SetModel("m"))], None, map[], {})
  }

  lemma ContendedIsReached(theirs: Stored)
    ensures var es := [Asks(SetModel("m")), Asks(SetModel("m")), Begins, OthersWrite(theirs)];
            Happens(Start(MINE), es) && Run(Start(MINE), es) == Contended(theirs)
  {
    var s1 := Step(Start(MINE), Asks(SetModel("m")));
    var s2 := Step(s1, Asks(SetModel("m")));
    assert s2.w.queue == [SetModel("m"), SetModel("m")] && s2.w.queue[1..] == [SetModel("m")];
    var s3 := Step(s2, Begins);
    assert s3.net == [Request(0, RENAMED, SetModel("m"))];
    var s4 := Step(s3, OthersWrite(theirs));
    assert s4 == Contended(theirs);
    var es := [Asks(SetModel("m")), Asks(SetModel("m")), Begins, OthersWrite(theirs)];
    assert es[1..] == [Asks(SetModel("m")), Begins, OthersWrite(theirs)];
    assert es[1..][1..] == [Begins, OthersWrite(theirs)];
    assert es[1..][1..][1..] == [OthersWrite(theirs)] && es[1..][1..][1..][1..] == [];
    assert Happens(s3, [OthersWrite(theirs)]) && Run(s3, [OthersWrite(theirs)]) == Run(s4, []) == s4;
    assert Happens(s2, es[1..][1..]) && Run(s2, es[1..][1..]) == s4;
  }

  // A null value: the retry commits a patch of metadata that is no longer stored anywhere current.
  lemma MissingIsOverwritten()
    ensures var s := Step(Step(Contended(Missing), ServerHandles(0)), ReplyArrives);
            s.w.version == 1 && s.w.meta == MINE && !StoredAt(s, s.w.version, s.w.meta) &&
            |s.net| == 1 && Step(s, ServerHandles(0)).history == [Readable(MINE), Missing, Readable(RENAMED)]
  {
  }

  // An unreadable value: the update throws, and the next one overwrites it in the same way.
  lemma UnreadableIsOverwritten()
    ensures var s := Step(Step(Step(Contended(Unreadable), ServerHandles(0)), ReplyArrives), Begins);
            !StoredAt(s, s.w.version, s.w.meta) &&
            |s.net| == 1 && Step(s, ServerHandles(0)).history == [Readable(MINE), Unreadable, Readable(RENAMED)]
  {
  }
}
