// What a request for a pass is worth: an announced session becomes the current one and is scanned from then
// on, and once the scanner is idle again every session tracked at a request has been read as far as it went.
module ScannerRequests {
  import opened Wrappers
  import opened Scanner
  import opened ScannerRuns

  // --- announcements ---

  predicate Unheard(s: State, sid: Sid) {
    s.current != Some(sid) && sid !in s.finished && sid !in s.pending
  }

  // A session the next pass will scan.
  predicate InUse(s: State, x: Sid) {
    Tracked(s, x) && x !in s.dead
  }

  // Main result: an announcement of a session that is neither current, pending nor finished makes it the
  // current one, at once unless its entries are to be taken as known first; the session it supersedes is
  // still scanned. Any other announcement at most revives the session, if a hook made it.
  lemma AnnouncedIsCurrent(s: State, sid: Sid, known: bool, hook: bool)
    requires s.open
    ensures var t := Step(s, Announces(sid, known, hook));
            && (Unheard(s, sid) && !known ==> t.current == Some(sid) && (hook ==> sid !in t.dead))
            && (Unheard(s, sid) && known ==>
                  t.marks == s.marks + [Mark(sid, |File(s.b.disk, sid)|)] && t.current == s.current)
            && (!Unheard(s, sid) ==> t == if hook && s.current != Some(sid) then s.(dead := s.dead - {sid}) else s)
            && (s.current.Some? ==> Tracked(t, s.current.value))
  {
  }

  // Main result: when the entries of such a session have been read they are known, none of them is emitted,
  // and the session becomes the current one.
  lemma KnownIsCurrent(s: State, m: nat, n: nat)
    requires Enabled(s, MarkReads(m, n))
    ensures var t, sid := Step(s, MarkReads(m, n)), s.marks[m].sid;
            && t.b.emitted == s.b.emitted
            && (forall k :: 0 <= k < n ==> File(s.b.disk, sid)[k] in t.b.processed)
            && t.current == Some(sid) && t.marks == s.marks[..m] + s.marks[m + 1..]
            && (s.current.Some? ==> Tracked(t, s.current.value))
  {
    var keys := File(s.b.disk, s.marks[m].sid)[..n];
    assert forall k :: 0 <= k < n ==> keys[k] in KeySet(keys);
  }

  lemma FlushKeepsCurrent(s: State, e: Event)
    requires Enabled(s, e) && (e.FlushStarts? || e.FlushResumes?)
    ensures Step(s, e).current == s.current
  {
  }

  // No other event changes the current session.
  lemma CurrentStays(s: State, e: Event)
    requires Enabled(s, e) && !e.Announces? && !e.MarkReads?
    ensures Step(s, e).current == s.current
  {
    if e.FlushStarts? || e.FlushResumes? {
      FlushKeepsCurrent(s, e);
    }
  }

  // Main result: after an announcement the session is scanned exactly when it was unheard of or tracked
  // before, and either had not been dropped or is revived: by a hook, and only if it is not the current one.
  lemma AnnouncedIsScanned(s: State, sid: Sid, hook: bool)
    requires s.open
    ensures InUse(Step(s, Announces(sid, false, hook)), sid)
       <==> (Unheard(s, sid) || Tracked(s, sid)) && (sid !in s.dead || (hook && s.current != Some(sid)))
  {
    AnnouncedIsCurrent(s, sid, false, hook);
  }

  lemma Prepend(s: State, e: Event, es: seq<Event>)
    requires Enabled(s, e) && Happens(Step(s, e), es)
    ensures Happens(s, [e] + es) && Run(s, [e] + es) == Run(Step(s, e), es)
  {
    assert ([e] + es)[1..] == es;
  }

  // A hook announces a session, and a pass looks for its file...
  function LookedFor(sid: Sid): seq<Event> {
    [PassBooks(0)] + ([Announces(sid, false, true)] + [Reads(0, 0)])
  }

  lemma LookedForRuns(sid: Sid)
    ensures Happens(Start(map[], None), LookedFor(sid))
    ensures var s := Run(Start(map[], None), LookedFor(sid));
            s.open && s.current == Some(sid) && s.passes == [Pass([sid], 1, 0, false, Background, 1)] &&
            s.watchers == [] && s.dead == {} && !s.stopped && !s.rerun
  {
    var s0 := Start(map[], None);
    var s1 := Step(s0, PassBooks(0));
    assert s1.passes == [] && s1.pending == [] && s1.watchers == [];
    var s2 := Step(s1, Announces(sid, false, true));
    assert Collect(s1.(current := Some(sid), running := true, chain := 1)) == [sid];
    assert s2.passes == [Pass([sid], 0, 0, false, Background, 1)];
    Prepend(s2, Reads(0, 0), []);
    Prepend(s1, Announces(sid, false, true), [Reads(0, 0)]);
    Prepend(s0, PassBooks(0), [Announces(sid, false, true)] + [Reads(0, 0)]);
  }

  // ...which is late, so that its watcher gives up.
  function GivenUp(sid: Sid): seq<Event> {
    [PassBooks(0)] + [WatcherGivesUp(sid)]
  }

  // Main result: after a run in which a session's file never appeared, a hook that announces the session once
  // more does not revive it, because it is still the current one.
  lemma DroppedIsNotRevived(sid: Sid)
    ensures Happens(Start(map[], None), LookedFor(sid))
    ensures Happens(Run(Start(map[], None), LookedFor(sid)), GivenUp(sid))
    ensures var s := Run(Run(Start(map[], None), LookedFor(sid)), GivenUp(sid));
            s.open && !InUse(Step(s, Announces(sid, false, true)), sid)
  {
    LookedForRuns(sid);
    var s0 := Run(Start(map[], None), LookedFor(sid));
    var s1 := Step(s0, PassBooks(0));
    Prepend(s1, WatcherGivesUp(sid), []);
    Prepend(s0, PassBooks(0), [WatcherGivesUp(sid)]);
  }

  // --- requests ---

  // The events that ask for a pass.
  predicate Requests(s: State, e: Event) {
    match e
    case Polls => true
    case FlushStarts => true
    case FlushResumes(_) => true
    case Announces(sid, known, _) => Unheard(s, sid) && !known
    case MarkReads(_, _) => true
    case _ => false
  }

  // While the running flag is up there is a pass.
  predicate Busy(s: State) {
    s.running && !s.stopped ==> s.passes != []
  }

  ghost predicate Pending(s: State, x: Sid, n: nat) {
    exists i :: 0 <= i < |s.passes| && WillRead(s.passes[i], x, n)
  }

  // The first n entries of x have been read, or a pass or rerun is going to.
  ghost predicate Due(s: State, x: Sid, n: nat) {
    InUse(s, x) && n <= |File(s.b.disk, x)| && (Known(s.b, x, n) || Pending(s, x, n) || (s.running && s.rerun))
  }

  // Neither the cleanup nor the watcher of x ends the scanning of x.
  predicate Spares(x: Sid, e: Event) {
    !e.CleanupCalled? && !e.CleanupProceeds? && e != WatcherGivesUp(x)
  }

  lemma StartedReads(s: State, owner: Owner, chain: nat, x: Sid)
    requires InUse(s, x)
    ensures Pending(StartPass(s, owner, chain), x, |File(s.b.disk, x)|)
  {
    var t := StartPass(s, owner, chain);
    var p := t.passes[|s.passes|];
    var j :| 0 <= j < |p.sessions| && p.sessions[j] == x;
    assert WillRead(p, x, |File(s.b.disk, x)|);
  }

  lemma BookedInUse(s: State, i: nat, x: Sid)
    requires SingleFlight(s) && Enabled(s, PassBooks(i)) && !s.stopped && InUse(s, x)
    ensures InUse(EndPass(s, i), x)
  {
    assert Guarded(s, s.passes[i]);
  }

  lemma AdoptInUse(s: State, sid: Sid, x: Sid)
    requires InUse(s, x)
    ensures InUse(Adopt(s, sid), x)
  {
  }

  lemma FlushInUse(s: State, e: Event, x: Sid)
    requires Enabled(s, e) && (e.FlushStarts? || e.FlushResumes?) && InUse(s, x)
    ensures InUse(Step(s, e), x)
  {
  }

  lemma EndsBusy(s: State, i: nat)
    requires SingleFlight(s) && Busy(s) && i < |s.passes|
    ensures Busy(EndPass(s, i)) && Busy(Settles(s, i))
  {
    assert Guarded(s, s.passes[i]);
  }

  lemma AdoptBusy(s: State, sid: Sid)
    requires Busy(s)
    ensures Busy(Adopt(s, sid))
  {
  }

  lemma BusyStays(s: State, e: Event)
    requires SingleFlight(s) && Busy(s) && Enabled(s, e)
    ensures Busy(Step(s, e))
  {
    if e.PassBooks? || e.PassSettles? {
      EndsBusy(s, e.i);
    } else if e.Announces? {
      AdoptBusy(if e.hook then s.(dead := s.dead - {e.sid}) else s, e.sid);
    }
  }

  lemma ReadDue(s: State, i: nat, n: nat, x: Sid, low: nat)
    requires SingleFlight(s) && EmittedOnce(s.b) && Enabled(s, Reads(i, n)) && Due(s, x, low)
    ensures Due(ReadReturns(s, i, n), x, low)
  {
    var t, p := ReadReturns(s, i, n), s.passes[i];
    var sid := p.sessions[p.at];
    EmitFromOnce(s.b, sid, File(s.b.disk, sid)[..n], 0);
    GenuineStays(s.b, t.b);
    if Pending(s, x, low) {
      var j :| p.at <= j < |p.sessions| && p.sessions[j] == x && (j == p.at ==> low <= p.low);
      if j > p.at {
        assert t.passes[i].sessions[j] == x;
        assert WillRead(t.passes[i], x, low);
      }
    }
  }

  lemma BookedDue(s: State, i: nat, x: Sid, n: nat)
    requires Sound(s) && Enabled(s, PassBooks(i)) && !s.stopped && Due(s, x, n)
    ensures Due(EndPass(s, i), x, n)
  {
    assert Guarded(s, s.passes[i]);
    BookedInUse(s, i, x);
    AllRead(s.passes[i], x, n);
  }

  lemma SettledDue(s: State, i: nat, x: Sid, n: nat)
    requires Sound(s) && Enabled(s, PassSettles(i)) && !s.stopped && Due(s, x, n)
    ensures Due(Settles(s, i), x, n)
  {
    var p := s.passes[i];
    assert Guarded(s, p) && Attached(s, p);
    DropLast(s);
    AllRead(p, x, n);
    if s.rerun {
      var t := Drop(s, i).(rerun := false);
      StartedReads(t, p.owner, p.chain, x);
      var u := StartPass(t, p.owner, p.chain);
      var k :| 0 <= k < |u.passes| && WillRead(u.passes[k], x, |File(s.b.disk, x)|);
      assert WillRead(u.passes[k], x, n);
    }
  }

  // What is due stays due when passes are only added and no request is dropped.
  lemma MoreDue(s: State, t: State, x: Sid, n: nat)
    requires Due(s, x, n) && InUse(t, x) && s.passes <= t.passes && s.b.processed <= t.b.processed
    requires forall sid :: File(s.b.disk, sid) <= File(t.b.disk, sid)
    requires s.running && s.rerun ==> t.running && t.rerun
    ensures Due(t, x, n)
  {
    GenuineStays(s.b, t.b);
    if Pending(s, x, n) {
      var i :| 0 <= i < |s.passes| && WillRead(s.passes[i], x, n);
      assert WillRead(t.passes[i], x, n);
    }
  }

  lemma AdoptKeepsDue(s: State, sid: Sid, x: Sid, n: nat)
    requires Due(s, x, n)
    ensures Due(Adopt(s, sid), x, n)
  {
    AdoptInUse(s, sid, x);
    MoreDue(s, Adopt(s, sid), x, n);
  }

  lemma AnnounceKeepsDue(s: State, sid: Sid, known: bool, hook: bool, x: Sid, n: nat)
    requires Due(s, x, n)
    ensures Due(Announce(s, sid, known, hook), x, n)
  {
    var s1 := if hook then s.(dead := s.dead - {sid}) else s;
    MoreDue(s, s1, x, n);
    AdoptKeepsDue(s1, sid, x, n);
    MoreDue(s1, s1.(marks := s1.marks + [Mark(sid, |File(s1.b.disk, sid)|)]), x, n);
  }

  lemma MarkedKeepsDue(s: State, m: nat, k: nat, x: Sid, n: nat)
    requires Enabled(s, MarkReads(m, k)) && Due(s, x, n)
    ensures Due(Marked(s, m, k), x, n)
  {
    var sid := s.marks[m].sid;
    var s1 := s.(marks := s.marks[..m] + s.marks[m + 1..], b := MarkKnown(s.b, KeySet(File(s.b.disk, sid)[..k])));
    MoreDue(s, s1, x, n);
    AdoptKeepsDue(s1, sid, x, n);
  }

  lemma FlushDue(s: State, e: Event, x: Sid, n: nat)
    requires Enabled(s, e) && (e.FlushStarts? || e.FlushResumes?) && Due(s, x, n)
    ensures Due(Step(s, e), x, n)
  {
    FlushInUse(s, e, x);
    MoreDue(s, Step(s, e), x, n);
  }

  lemma OthersDue(s: State, e: Event, x: Sid, n: nat)
    requires Enabled(s, e) && (e.Polls? || e.WatcherGivesUp? || e.FileGrows?) && Spares(x, e) && Due(s, x, n)
    ensures Due(Step(s, e), x, n)
  {
    MoreDue(s, Step(s, e), x, n);
  }

  lemma StepDue(s: State, e: Event, x: Sid, n: nat)
    requires Sound(s) && Enabled(s, e) && !s.stopped && Spares(x, e) && Due(s, x, n)
    ensures Due(Step(s, e), x, n)
  {
    if e.Reads? {
      ReadDue(s, e.i, e.n, x, n);
    } else if e.PassBooks? {
      BookedDue(s, e.i, x, n);
    } else if e.PassSettles? {
      SettledDue(s, e.i, x, n);
    } else if e.Announces? {
      AnnounceKeepsDue(s, e.sid, e.known, e.hook, x, n);
    } else if e.MarkReads? {
      MarkedKeepsDue(s, e.m, e.n, x, n);
    } else if e.FlushStarts? || e.FlushResumes? {
      FlushDue(s, e, x, n);
    } else {
      OthersDue(s, e, x, n);
    }
  }

  lemma InvalidateDue(s: State, x: Sid)
    requires !s.stopped && InUse(s, x)
    ensures Due(Invalidate(s), x, |File(s.b.disk, x)|)
  {
    if !s.running {
      StartedReads(s.(running := true, chain := s.chain + 1), Background, s.chain + 1, x);
    }
  }

  lemma TryFlushDue(s: State, f: nat, x: Sid)
    requires f < |s.flushes| && !s.stopped && InUse(s, x)
    ensures Due(TryFlush(s, f), x, |File(s.b.disk, x)|)
  {
    if !s.running {
      var running := s.(flushes := s.flushes[f := Running(s.flushes[f].need)], running := true, chain := s.chain + 1);
      StartedReads(running, Flusher(f), s.chain + 1, x);
    }
  }

  lemma AdoptDue(s: State, sid: Sid, x: Sid)
    requires !s.stopped && InUse(Adopt(s, sid), x)
    ensures Due(Adopt(s, sid), x, |File(s.b.disk, x)|)
  {
    var p := s.pending;
    var pending := if s.current.Some? && s.current.value !in p then p + [s.current.value] else p;
    InvalidateDue(s.(pending := pending, current := Some(sid)), x);
  }

  lemma MarkedDue(s: State, m: nat, n: nat, x: Sid)
    requires Enabled(s, MarkReads(m, n)) && !s.stopped && InUse(Marked(s, m, n), x)
    ensures Due(Marked(s, m, n), x, |File(s.b.disk, x)|)
  {
    var sid := s.marks[m].sid;
    AdoptDue(s.(marks := s.marks[..m] + s.marks[m + 1..], b := MarkKnown(s.b, KeySet(File(s.b.disk, sid)[..n]))),
      sid, x);
  }

  lemma RequestDue(s: State, e: Event, x: Sid)
    requires Enabled(s, e) && !s.stopped && Requests(s, e) && InUse(Step(s, e), x)
    ensures Due(Step(s, e), x, |File(s.b.disk, x)|)
  {
    match e {
      case Polls => InvalidateDue(s, x);
      case FlushStarts => TryFlushDue(s.(flushes := s.flushes + [Waiting(Needs(s))]), |s.flushes|, x);
      case FlushResumes(f) => TryFlushDue(s, f, x);
      case Announces(sid, _, hook) => AdoptDue(if hook then s.(dead := s.dead - {sid}) else s, sid, x);
      case MarkReads(m, n) => MarkedDue(s, m, n, x);
    }
  }

  // --- every run ---

  predicate SparesAll(x: Sid, es: seq<Event>) {
    forall e :: e in es ==> Spares(x, e)
  }

  lemma {:induction false} RunDue(s: State, es: seq<Event>, x: Sid, n: nat)
    requires Sound(s) && Busy(s) && !s.stopped && Happens(s, es) && SparesAll(x, es) && Due(s, x, n)
    ensures var t := Run(s, es); Due(t, x, n) && Busy(t) && !t.stopped
    decreases |es|
  {
    if es != [] {
      assert es[0] in es;
      StepSingle(s, es[0]);
      StepOnce(s, es[0]);
      StepPromised(s, es[0]);
      BusyStays(s, es[0]);
      StepDue(s, es[0], x, n);
      StillUp(s, es[0]);
      assert forall e :: e in es[1..] ==> e in es;
      RunDue(Step(s, es[0]), es[1..], x, n);
    }
  }

  lemma StillUp(s: State, e: Event)
    requires Enabled(s, e) && !e.CleanupCalled?
    ensures Step(s, e).stopped == s.stopped
  {
  }

  lemma {:induction false} RunBusy(s: State, es: seq<Event>)
    requires Sound(s) && Busy(s) && Happens(s, es)
    ensures Busy(Run(s, es))
    decreases |es|
  {
    if es != [] {
      StepSingle(s, es[0]);
      StepOnce(s, es[0]);
      StepPromised(s, es[0]);
      BusyStays(s, es[0]);
      RunBusy(Step(s, es[0]), es[1..]);
    }
  }

  // Main result: let a pass be asked for at any point of any run, by a poll or a watcher, a flush, or an
  // adopted session. Whatever follows, a session tracked then stays tracked as long as its watcher does not
  // give up and nobody cleans up, and whenever the scanner is idle all it had on disk has been processed.
  lemma RequestsAreServed(disk: map<Sid, seq<Key>>, sid: Option<Sid>, es: seq<Event>, e: Event, more: seq<Event>,
                          x: Sid)
    requires Happens(Start(disk, sid), es) && Enabled(Run(Start(disk, sid), es), e)
    requires var s := Run(Start(disk, sid), es);
             !s.stopped && Requests(s, e) && InUse(Step(s, e), x) && Happens(Step(s, e), more) && SparesAll(x, more)
    ensures var s := Run(Start(disk, sid), es);
            var t := Run(Step(s, e), more);
            InUse(t, x) && (t.passes == [] ==> Known(t.b, x, |File(s.b.disk, x)|))
  {
    StartSound(disk, sid);
    RunSound(Start(disk, sid), es);
    RunBusy(Start(disk, sid), es);
    var s := Run(Start(disk, sid), es);
    RequestDue(s, e, x);
    StepSingle(s, e);
    StepOnce(s, e);
    StepPromised(s, e);
    BusyStays(s, e);
    StillUp(s, e);
    RunDue(Step(s, e), more, x, |File(s.b.disk, x)|);
  }
}
