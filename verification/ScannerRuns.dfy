// Over every run of the scanner: passes never overlap, every entry is emitted at most once and in file
// order, and a flush that returns leaves nothing it owed unread.
module ScannerRuns {
  import opened Wrappers
  import opened Scanner

  // --- single flight ---

  predicate Guarded(s: State, p: Pass) {
    match p.owner
    case Opening => !s.open && !p.booked
    case Closing => s.cleaning && !p.booked
    case _ => s.open && s.running && !s.cleaning && p.chain == if s.stopped then s.awaits else s.chain
  }

  // At most one pass exists, and the flags say which.
  predicate SingleFlight(s: State) {
    |s.passes| <= 1 && (forall i :: 0 <= i < |s.passes| ==> Guarded(s, s.passes[i])) &&
    (!s.open ==> !s.running && !s.stopped && s.flushes == [] && s.marks == [] && s.watchers == []) &&
    (s.cleaning ==> s.stopped)
  }

  lemma DropLast(s: State)
    requires |s.passes| == 1
    ensures Drop(s, 0) == s.(passes := [])
  {
  }

  // A pass means a flag, and after a stop the promise the cleanup waits for.
  lemma PassMeansFlag(s: State)
    requires SingleFlight(s) && s.open
    ensures s.passes != [] ==> s.cleaning || (s.running && (s.stopped ==> s.passes[0].chain == s.awaits))
  {
  }

  lemma InvalidateSingle(s: State)
    requires SingleFlight(s) && s.open
    ensures SingleFlight(Invalidate(s))
  {
  }

  lemma TryFlushSingle(s: State, f: nat)
    requires SingleFlight(s) && s.open && f < |s.flushes|
    ensures SingleFlight(TryFlush(s, f))
  {
  }

  lemma EndOfPassSingle(s: State, i: nat)
    requires SingleFlight(s) && i < |s.passes|
    ensures !s.passes[i].booked ==> SingleFlight(EndPass(s, i))
    ensures s.passes[i].booked ==> SingleFlight(Settles(s, i))
  {
  }

  // Main result: a step never makes passes overlap: not polls, flushes, reruns, nor the initial and
  // the final pass, which run outside the running flag.
  lemma StepSingle(s: State, e: Event)
    requires SingleFlight(s) && Enabled(s, e)
    ensures SingleFlight(Step(s, e))
  {
    match e {
      case Reads(i, n) =>
      case PassBooks(i) => EndOfPassSingle(s, i);
      case PassSettles(i) => EndOfPassSingle(s, i);
      case Polls => InvalidateSingle(s);
      case FlushStarts => if !s.stopped { TryFlushSingle(s.(flushes := s.flushes + [Waiting(Needs(s))]), |s.flushes|); }
      case FlushResumes(f) => TryFlushSingle(s, f);
      case Announces(sid, known, hook) => AnnounceSingle(s, sid, known, hook);
      case MarkReads(m, n) => MarkedSingle(s, m, n);
      case WatcherGivesUp(sid) =>
      case FileGrows(sid, key) =>
      case CleanupCalled =>
      case CleanupProceeds => PassMeansFlag(s);
    }
  }

  lemma AdoptSingle(s: State, sid: Sid)
    requires SingleFlight(s) && s.open
    ensures SingleFlight(Adopt(s, sid))
  {
  }

  lemma MarkedSingle(s: State, m: nat, n: nat)
    requires SingleFlight(s) && m < |s.marks| && n <= |File(s.b.disk, s.marks[m].sid)|
    ensures SingleFlight(Marked(s, m, n))
  {
    var sid := s.marks[m].sid;
    AdoptSingle(s.(marks := s.marks[..m] + s.marks[m + 1..],
        b := MarkKnown(s.b, KeySet(File(s.b.disk, sid)[..n]))), sid);
  }

  lemma AnnounceSingle(s: State, sid: Sid, known: bool, hook: bool)
    requires SingleFlight(s) && s.open
    ensures SingleFlight(Announce(s, sid, known, hook))
  {
    var s1 := if hook then s.(dead := s.dead - {sid}) else s;
    AdoptSingle(s1, sid);
  }

  // --- once, and in file order ---

  predicate Known(b: Books, sid: Sid, n: nat) {
    n <= |File(b.disk, sid)| && forall k :: 0 <= k < n ==> File(b.disk, sid)[k] in b.processed
  }

  // An emission is an entry of its file, and everything before it in that file was processed too.
  predicate Genuine(b: Books, e: Emission) {
    Known(b, e.sid, e.pos + 1) && e.key == File(b.disk, e.sid)[e.pos]
  }

  // No key is emitted twice or after being marked as known, and each file's entries go out in order.
  ghost predicate EmittedOnce(b: Books) {
    (forall i :: 0 <= i < |b.emitted| ==> Genuine(b, b.emitted[i]) && b.emitted[i].key !in b.premarked) &&
    (forall i, j :: 0 <= i < j < |b.emitted| ==>
      b.emitted[i].key != b.emitted[j].key &&
          (b.emitted[i].sid == b.emitted[j].sid ==> b.emitted[i].pos < b.emitted[j].pos)) &&
    (forall k :: k in b.processed <==> k in b.premarked || k in EmittedKeys(b.emitted))
  }

  function EmittedKeys(emitted: seq<Emission>): set<Key> {
    set e | e in emitted :: e.key
  }

  lemma GenuineStays(b: Books, c: Books)
    requires b.processed <= c.processed && forall sid :: File(b.disk, sid) <= File(c.disk, sid)
    ensures forall sid, n :: Known(b, sid, n) ==> Known(c, sid, n)
    ensures forall e :: Genuine(b, e) ==> Genuine(c, e)
  {
  }

  lemma EmittedKeysLast(emitted: seq<Emission>, e: Emission)
    ensures EmittedKeys(emitted + [e]) == EmittedKeys(emitted) + {e.key}
  {
  }

  lemma EmitOne(b: Books, sid: Sid, pos: nat)
    requires EmittedOnce(b) && Known(b, sid, pos) && pos < |File(b.disk, sid)| && File(b.disk, sid)[pos] !in b.processed
    ensures var c := EmitKey(b, sid, pos, File(b.disk, sid)[pos]); EmittedOnce(c) && Known(c, sid, pos + 1)
  {
    var key := File(b.disk, sid)[pos];
    var c := EmitKey(b, sid, pos, key);
    GenuineStays(b, c);
    EmittedKeysLast(b.emitted, Emission(sid, pos, key));
    forall i | 0 <= i < |b.emitted|
      ensures b.emitted[i].key != key && (b.emitted[i].sid == sid ==> b.emitted[i].pos < pos)
    {
      assert Genuine(b, b.emitted[i]);
    }
  }

  lemma {:induction false} EmitFromOnce(b: Books, sid: Sid, keys: seq<Key>, pos: nat)
    requires EmittedOnce(b) && keys <= File(b.disk, sid) && pos <= |keys| && Known(b, sid, pos)
    ensures var c := EmitFrom(b, sid, keys, pos); EmittedOnce(c) && Known(c, sid, |keys|) && b.processed <= c.processed
    decreases |keys| - pos
  {
    if pos < |keys| {
      if keys[pos] in b.processed {
        EmitFromOnce(b, sid, keys, pos + 1);
      } else {
        EmitOne(b, sid, pos);
        EmitFromOnce(EmitKey(b, sid, pos, keys[pos]), sid, keys, pos + 1);
      }
    }
  }

  lemma MarkOnce(b: Books, keys: set<Key>)
    requires EmittedOnce(b)
    ensures EmittedOnce(MarkKnown(b, keys))
  {
  }

  lemma AppendOnce(b: Books, sid: Sid, key: Key)
    requires EmittedOnce(b)
    ensures EmittedOnce(Append(b, sid, key))
  {
  }

  lemma StepOnce(s: State, e: Event)
    requires EmittedOnce(s.b) && Enabled(s, e)
    ensures EmittedOnce(Step(s, e).b)
  {
    match e {
      case Reads(i, n) =>
        var sid := s.passes[i].sessions[s.passes[i].at];
        EmitFromOnce(s.b, sid, File(s.b.disk, sid)[..n], 0);
      case MarkReads(m, n) => MarkOnce(s.b, KeySet(File(s.b.disk, s.marks[m].sid)[..n]));
      case FileGrows(sid, key) => AppendOnce(s.b, sid, key);
      case PassBooks(i) =>
      case PassSettles(i) =>
      case Polls =>
      case FlushStarts =>
      case FlushResumes(f) =>
      case Announces(sid, known, hook) =>
      case WatcherGivesUp(sid) =>
      case CleanupCalled =>
      case CleanupProceeds =>
    }
  }

  // --- what a flush owes ---

  // A pass that still has to read x, and will find at least n entries.
  predicate WillRead(p: Pass, x: Sid, n: nat) {
    exists j :: p.at <= j < |p.sessions| && p.sessions[j] == x && (j == p.at ==> n <= p.low)
  }

  predicate SomePassReads(passes: seq<Pass>, f: nat, x: Sid, n: nat) {
    exists i :: 0 <= i < |passes| && passes[i].owner == Flusher(f) && WillRead(passes[i], x, n)
  }

  // A waiting flush only owes sessions the next pass will scan; a running one has read them or will;
  // one that returned on a live scanner has read them all.
  predicate Owed(s: State, f: nat, x: Sid, n: nat)
    requires f < |s.flushes|
  {
    n <= |File(s.b.disk, x)| &&
    match s.flushes[f]
    case Waiting(_) => s.stopped || (Tracked(s, x) && x !in s.dead)
    case Running(_) => Known(s.b, x, n) || SomePassReads(s.passes, f, x, n)
    case Returned(_, live) => live ==> Known(s.b, x, n)
  }

  predicate Promised(s: State) {
    (forall f | 0 <= f < |s.flushes| :: forall x :: x in s.flushes[f].need ==> Owed(s, f, x, s.flushes[f].need[x])) &&
    (forall i :: 0 <= i < |s.passes| ==> Attached(s, s.passes[i]))
  }

  // A pass that is over has read everything; a flush's own pass ends before the flush returns.
  predicate Attached(s: State, p: Pass) {
    (p.booked ==> p.at >= |p.sessions|) &&
    (p.owner.Flusher? ==> p.owner.f < |s.flushes| && s.flushes[p.owner.f].Running?)
  }

  // What a step may do to the rest of the scanner without breaking a promise.
  ghost predicate Harmless(s: State, t: State) {
    s.b.processed <= t.b.processed && (forall sid :: File(s.b.disk, sid) <= File(t.b.disk, sid)) &&
    (t.stopped ||
     forall x :: Tracked(s, x) && x !in s.dead && (exists f :: 0 <= f < |t.flushes| && x in t.flushes[f].need) ==>
       Tracked(t, x) && x !in t.dead) &&
    (s.stopped ==> t.stopped) && s.passes <= t.passes
  }

  lemma HarmlessOwed(s: State, t: State, f: nat, x: Sid, n: nat)
    requires Harmless(s, t) && f < |s.flushes| && f < |t.flushes| && Owed(s, f, x, n)
    requires x in t.flushes[f].need && t.flushes[f] == s.flushes[f].(need := t.flushes[f].need)
    ensures Owed(t, f, x, n)
  {
  }

  predicate KeptFlushes(s: State, t: State) {
    |t.flushes| == |s.flushes| &&
    forall f | 0 <= f < |s.flushes| ::
      t.flushes[f] == s.flushes[f].(need := t.flushes[f].need) &&
      forall x :: x in t.flushes[f].need ==> x in s.flushes[f].need && t.flushes[f].need[x] == s.flushes[f].need[x]
  }

  lemma HarmlessPromised(s: State, t: State)
    requires Promised(s) && Harmless(s, t) && KeptFlushes(s, t)
    requires forall i :: |s.passes| <= i < |t.passes| ==> Attached(t, t.passes[i])
    ensures Promised(t)
  {
    assert forall i :: 0 <= i < |s.passes| ==> Attached(s, s.passes[i]);
    forall f, x | 0 <= f < |t.flushes| && x in t.flushes[f].need
      ensures Owed(t, f, x, t.flushes[f].need[x])
    {
      assert Owed(s, f, x, s.flushes[f].need[x]);
      HarmlessOwed(s, t, f, x, s.flushes[f].need[x]);
    }
  }

  lemma InvalidatePromised(s: State)
    requires Promised(s)
    ensures Promised(Invalidate(s))
  {
    HarmlessPromised(s, Invalidate(s));
  }

  lemma AdoptPromised(s: State, sid: Sid)
    requires Promised(s)
    ensures Promised(Adopt(s, sid))
  {
    var p := s.pending;
    var pending := if s.current.Some? && s.current.value !in p then p + [s.current.value] else p;
    var t := s.(pending := pending, current := Some(sid));
    HarmlessPromised(s, t);
    InvalidatePromised(t);
  }

  lemma AnnouncePromised(s: State, sid: Sid, known: bool, hook: bool)
    requires Promised(s)
    ensures Promised(Announce(s, sid, known, hook))
  {
    var s1 := if hook then s.(dead := s.dead - {sid}) else s;
    HarmlessPromised(s, s1);
    HarmlessPromised(s1, s1.(marks := s1.marks + [Mark(sid, |File(s1.b.disk, sid)|)]));
    AdoptPromised(s1, sid);
  }

  lemma MarkedPromised(s: State, m: nat, n: nat)
    requires Promised(s) && m < |s.marks| && n <= |File(s.b.disk, s.marks[m].sid)|
    ensures Promised(Marked(s, m, n))
  {
    var sid := s.marks[m].sid;
    var t := s.(marks := s.marks[..m] + s.marks[m + 1..], b := MarkKnown(s.b, KeySet(File(s.b.disk, sid)[..n])));
    HarmlessPromised(s, t);
    AdoptPromised(t, sid);
  }

  // The read covers what it owes; the next one begins with the file as it is now.
  lemma ReadPromised(s: State, i: nat, n: nat)
    requires SingleFlight(s) && Promised(s) && EmittedOnce(s.b) && Enabled(s, Reads(i, n))
    ensures Promised(ReadReturns(s, i, n))
  {
    var t, p := ReadReturns(s, i, n), s.passes[i];
    var sid := p.sessions[p.at];
    EmitFromOnce(s.b, sid, File(s.b.disk, sid)[..n], 0);
    GenuineStays(s.b, t.b);
    assert Attached(s, p);
    forall f, x | 0 <= f < |t.flushes| && x in t.flushes[f].need
      ensures Owed(t, f, x, t.flushes[f].need[x])
    {
      var need := s.flushes[f].need[x];
      assert Owed(s, f, x, need);
      if SomePassReads(s.passes, f, x, need) {
        var j :| p.at <= j < |p.sessions| && p.sessions[j] == x && (j == p.at ==> need <= p.low);
        if j > p.at {
          assert t.passes[i].sessions[j] == x;
          assert WillRead(t.passes[i], x, need);
        }
      }
    }
  }

  // A waiting flush becomes a running one, over a pass that collects all it owes.
  lemma StartedOwed(s: State, f: nat, x: Sid)
    requires Promised(s) && f < |s.flushes| && s.flushes[f].Waiting? && !s.running && !s.stopped && s.passes == []
    requires x in s.flushes[f].need
    ensures Owed(TryFlush(s, f), f, x, s.flushes[f].need[x])
  {
    var t := TryFlush(s, f);
    assert Owed(s, f, x, s.flushes[f].need[x]);
    var p := t.passes[0];
    assert x in p.sessions;
    var j :| 0 <= j < |p.sessions| && p.sessions[j] == x;
    assert WillRead(p, x, s.flushes[f].need[x]);
  }

  lemma TryFlushPromised(s: State, f: nat)
    requires SingleFlight(s) && s.open && Promised(s) && f < |s.flushes| && s.flushes[f].Waiting?
    ensures Promised(TryFlush(s, f))
  {
    var t := TryFlush(s, f);
    PassMeansFlag(s);
    assert forall i :: 0 <= i < |s.passes| ==> Attached(s, s.passes[i]);
    forall g, x | 0 <= g < |t.flushes| && x in t.flushes[g].need
      ensures Owed(t, g, x, t.flushes[g].need[x])
    {
      assert Owed(s, g, x, s.flushes[g].need[x]);
      if g == f && !s.running && !s.stopped {
        StartedOwed(s, f, x);
      }
    }
  }

  lemma FlushCalledPromised(s: State)
    requires SingleFlight(s) && s.open && Promised(s)
    ensures Promised(FlushCalled(s))
  {
    var t := if s.stopped then FlushCalled(s) else s.(flushes := s.flushes + [Waiting(Needs(s))]);
    forall g, x | 0 <= g < |t.flushes| && x in t.flushes[g].need
      ensures Owed(t, g, x, t.flushes[g].need[x])
    {
      if g < |s.flushes| {
        assert Owed(s, g, x, s.flushes[g].need[x]);
      }
    }
    if !s.stopped {
      TryFlushPromised(t, |s.flushes|);
    }
  }

  // A pass that has read everything owes nothing.
  lemma AllRead(p: Pass, x: Sid, n: nat)
    requires p.at >= |p.sessions|
    ensures !WillRead(p, x, n)
  {
  }

  lemma EndPassPromised(s: State, i: nat)
    requires SingleFlight(s) && Promised(s) && Enabled(s, PassBooks(i))
    ensures Promised(EndPass(s, i))
  {
    var t, p := EndPass(s, i), s.passes[i];
    assert Guarded(s, p) && Attached(s, p);
    forall f, x | 0 <= f < |t.flushes| && x in t.flushes[f].need
      ensures Owed(t, f, x, t.flushes[f].need[x])
    {
      var need := s.flushes[f].need[x];
      assert Owed(s, f, x, need);
      AllRead(p, x, need);
    }
  }

  lemma SettlesPromised(s: State, i: nat)
    requires SingleFlight(s) && Promised(s) && Enabled(s, PassSettles(i))
    ensures Promised(Settles(s, i))
  {
    var t, p := Settles(s, i), s.passes[i];
    assert Guarded(s, p) && Attached(s, p);
    DropLast(s);
    forall f, x | 0 <= f < |t.flushes| && x in t.flushes[f].need
      ensures Owed(t, f, x, t.flushes[f].need[x])
    {
      var need := s.flushes[f].need[x];
      assert Owed(s, f, x, need);
      AllRead(p, x, need);
    }
  }

  // --- every run ---

  ghost predicate Sound(s: State) {
    SingleFlight(s) && EmittedOnce(s.b) && Promised(s)
  }

  lemma StepPromised(s: State, e: Event)
    requires Sound(s) && Enabled(s, e)
    ensures Promised(Step(s, e))
  {
    match e {
      case Reads(i, n) => ReadPromised(s, i, n);
      case PassBooks(i) => EndPassPromised(s, i);
      case PassSettles(i) => SettlesPromised(s, i);
      case Polls => InvalidatePromised(s);
      case FlushStarts => FlushCalledPromised(s);
      case FlushResumes(f) => TryFlushPromised(s, f);
      case Announces(sid, known, hook) => AnnouncePromised(s, sid, known, hook);
      case MarkReads(m, n) => MarkedPromised(s, m, n);
      case WatcherGivesUp(sid) => HarmlessPromised(s, Step(s, e));
      case FileGrows(sid, key) => HarmlessPromised(s, Step(s, e));
      case CleanupCalled => HarmlessPromised(s, Step(s, e));
      case CleanupProceeds => HarmlessPromised(s, Step(s, e));
    }
  }

  lemma StartSound(disk: map<Sid, seq<Key>>, sid: Option<Sid>)
    ensures Sound(Start(disk, sid))
  {
  }

  lemma {:induction false} RunSound(s: State, es: seq<Event>)
    requires Sound(s) && Happens(s, es)
    ensures Sound(Run(s, es))
    decreases |es|
  {
    if es != [] {
      StepSingle(s, es[0]);
      StepOnce(s, es[0]);
      StepPromised(s, es[0]);
      RunSound(Step(s, es[0]), es[1..]);
    }
  }

  // Main result: on every run passes never overlap; no key is emitted twice or after being marked as
  // known, every processed key was emitted or marked, and each file's entries go out in file order.
  lemma EmitsOnceInOrder(disk: map<Sid, seq<Key>>, sid: Option<Sid>, es: seq<Event>)
    requires Happens(Start(disk, sid), es)
    ensures var s := Run(Start(disk, sid), es); |s.passes| <= 1 && EmittedOnce(s.b)
  {
    StartSound(disk, sid);
    RunSound(Start(disk, sid), es);
  }

  // Main result: when a flush returns on a live scanner, every entry that was on disk when it was
  // called, of every session then tracked and not dropped since, has been emitted or was marked as
  // known.
  lemma FlushLeavesNothingUnread(disk: map<Sid, seq<Key>>, sid: Option<Sid>, es: seq<Event>, f: nat, x: Sid)
    requires Happens(Start(disk, sid), es) && f < |Run(Start(disk, sid), es).flushes|
    requires Run(Start(disk, sid), es).flushes[f].Returned? && Run(Start(disk, sid), es).flushes[f].live
    requires x in Run(Start(disk, sid), es).flushes[f].need
    ensures var s := Run(Start(disk, sid), es); Known(s.b, x, s.flushes[f].need[x])
  {
    StartSound(disk, sid);
    RunSound(Start(disk, sid), es);
    var s := Run(Start(disk, sid), es);
    assert Owed(s, f, x, s.flushes[f].need[x]);
  }
}
