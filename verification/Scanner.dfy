// The transcript scanner (packages/cli/src/claude/scanner.ts): sync passes read append-only session
// files and emit each entry once; polls, watchers, flushes and the cleanup all ask for passes.
module Scanner {
  import opened Wrappers

  type Sid = string
  type Key = string

  // Files hold entry keys, in order. A pass reads its sessions one await at a time: `low` is how much
  // of the current file was on disk when its read began. `chain` numbers the promises that
  // currentSyncPromise has held; reruns belong to the same promise.
  datatype Owner = Opening | Background | Flusher(f: nat) | Closing
  datatype Pass = Pass(sessions: seq<Sid>, at: nat, low: nat, booked: bool, owner: Owner, chain: nat)

  // `need` is what was on disk for each tracked session when the flush was called.
  datatype Flush = Waiting(need: map<Sid, nat>) | Running(need: map<Sid, nat>)
      | Returned(need: map<Sid, nat>, live: bool)

  datatype Emission = Emission(sid: Sid, pos: nat, key: Key)
  datatype Mark = Mark(sid: Sid, low: nat)

  // The files, the processed keys, what was emitted, and the history of keys marked as known.
  datatype Books = Books(disk: map<Sid, seq<Key>>, processed: set<Key>, emitted: seq<Emission>, premarked: set<Key>)

  // `passes` would hold several passes if they could overlap; `marks` are announcements still reading
  // the file they mark as known; `awaits` is the promise the cleanup waits for.
  datatype State = State(
    b: Books, pending: seq<Sid>, current: Option<Sid>, watchers: seq<Sid>, dead: set<Sid>, finished: set<Sid>,
    running: bool, rerun: bool, stopped: bool, open: bool, cleaning: bool,
    passes: seq<Pass>, chain: nat, awaits: nat, flushes: seq<Flush>, marks: seq<Mark>)

  function File(disk: map<Sid, seq<Key>>, sid: Sid): seq<Key> {
    if sid in disk then disk[sid] else []
  }

  // --- reading and emitting ---

  // Entries pos.. of a session, skipping those already processed.
  function EmitFrom(b: Books, sid: Sid, keys: seq<Key>, pos: nat): (r: Books)
    requires pos <= |keys|
    ensures r.disk == b.disk && r.premarked == b.premarked
    decreases |keys| - pos
  {
    if pos == |keys| then b
    else EmitFrom(if keys[pos] in b.processed then b else EmitKey(b, sid, pos, keys[pos]), sid, keys, pos + 1)
  }

  function EmitKey(b: Books, sid: Sid, pos: nat, key: Key): Books {
    b.(processed := b.processed + {key}, emitted := b.emitted + [Emission(sid, pos, key)])
  }

  function KeySet(keys: seq<Key>): set<Key> {
    set k | k in keys
  }

  function MarkKnown(b: Books, keys: set<Key>): Books {
    b.(processed := b.processed + keys, premarked := b.premarked + (keys - b.processed))
  }

  function Append(b: Books, sid: Sid, key: Key): Books {
    b.(disk := b.disk[sid := File(b.disk, sid) + [key]])
  }

  function Without(xs: seq<Sid>, x: Sid): (r: seq<Sid>)
    ensures forall y :: y in r <==> y in xs && y != x
  {
    if xs == [] then [] else if xs[0] == x then Without(xs[1..], x) else [xs[0]] + Without(xs[1..], x)
  }

  function Living(xs: seq<Sid>, dead: set<Sid>, known: seq<Sid>): (r: seq<Sid>)
    ensures forall y :: y in r <==> y in xs && y !in dead && y !in known
  {
    if xs == [] then []
    else (if xs[0] in dead || xs[0] in known then [] else [xs[0]]) + Living(xs[1..], dead, known)
  }

  // The sessions a pass will scan: pending ones, the current one, and watched ones, minus dead ones.
  function Collect(s: State): (r: seq<Sid>)
    ensures forall x :: x in r <==> Tracked(s, x) && x !in s.dead
  {
    var p := Living(s.pending, s.dead, []);
    var unlisted := s.current.Some? && s.current.value !in s.pending && s.current.value !in s.dead;
    var c := if unlisted then p + [s.current.value] else p;
    c + Living(s.watchers, s.dead, c)
  }

  predicate Tracked(s: State, x: Sid) {
    x in s.pending || s.current == Some(x) || x in s.watchers
  }

  function LowAt(disk: map<Sid, seq<Key>>, sessions: seq<Sid>, at: nat): nat {
    if at < |sessions| then |File(disk, sessions[at])| else 0
  }

  function StartPass(s: State, owner: Owner, chain: nat): (r: State)
    ensures r.b == s.b && r.stopped == s.stopped
  {
    var sessions := Collect(s);
    s.(passes := s.passes + [Pass(sessions, 0, LowAt(s.b.disk, sessions, 0), false, owner, chain)])
  }

  // currentSyncPromise = runSyncCoalesced(), under the running flag.
  function StartChain(s: State, owner: Owner): (r: State)
    ensures r.b == s.b && r.stopped == s.stopped
  {
    var s1 := s.(running := true, chain := s.chain + 1);
    if s.stopped then s1 else StartPass(s1, owner, s1.chain)
  }

  // A read returns: some prefix of the file, no shorter than what was there when it began.
  function ReadReturns(s: State, i: nat, n: nat): State
    requires i < |s.passes| && s.passes[i].at < |s.passes[i].sessions|
    requires n <= |File(s.b.disk, s.passes[i].sessions[s.passes[i].at])|
  {
    var p := s.passes[i];
    s.(b := EmitFrom(s.b, p.sessions[p.at], File(s.b.disk, p.sessions[p.at])[..n], 0),
       passes := s.passes[i := p.(at := p.at + 1, low := LowAt(s.b.disk, p.sessions, p.at + 1))])
  }

  // After the reads: pending sessions are finished, and every session gets a watcher.
  function Finish(s: State, sessions: seq<Sid>): (r: State)
    ensures r == s.(pending := r.pending, finished := r.finished)
    ensures forall x :: x in r.pending <==> x in s.pending && x !in sessions
    decreases |sessions|
  {
    if sessions == [] then s
    else if sessions[0] in s.pending then
      Finish(s.(pending := Without(s.pending, sessions[0]), finished := s.finished + {sessions[0]}), sessions[1..])
    else Finish(s, sessions[1..])
  }

  function Watch(s: State, sessions: seq<Sid>): (r: State)
    ensures r == s.(watchers := r.watchers)
    ensures forall x :: x in r.watchers <==> x in s.watchers || (x in sessions && x !in s.dead)
    decreases |sessions|
  {
    if sessions == [] then s
    else if sessions[0] in s.watchers || sessions[0] in s.dead then Watch(s, sessions[1..])
    else Watch(s.(watchers := s.watchers + [sessions[0]]), sessions[1..])
  }

  function Drop(s: State, i: nat): State
    requires i < |s.passes|
  {
    s.(passes := s.passes[..i] + s.passes[i + 1..])
  }

  // The initial and the final pass are not under the running guard: they end here.
  function EndPass(s: State, i: nat): (r: State)
    requires i < |s.passes|
    ensures r.b == s.b && r.stopped == s.stopped
  {
    var p := s.passes[i];
    var s1 := Watch(Finish(s, p.sessions), p.sessions);
    if p.owner.Opening? then Drop(s1, i).(open := true)
    else if p.owner.Closing? then Drop(s1, i).(watchers := [])
    else s1.(passes := s1.passes[i := p.(booked := true)])
  }

  // The end of runSyncCoalesced: one more pass when one was requested, else nothing runs any more.
  function Settles(s: State, i: nat): (r: State)
    requires i < |s.passes|
    ensures r.b == s.b && r.stopped == s.stopped
  {
    var p := s.passes[i];
    if s.rerun && !s.stopped then StartPass(Drop(s, i).(rerun := false), p.owner, p.chain)
    else
      Drop(s, i).(running := false,
                  flushes := if p.owner.Flusher? && p.owner.f < |s.flushes|
                             then s.flushes[p.owner.f := Returned(s.flushes[p.owner.f].need, !s.stopped)]
                             else s.flushes)
  }

  // --- the entry points ---

  function Invalidate(s: State): (r: State)
    ensures r.b == s.b && r.stopped == s.stopped
  {
    if s.stopped then s
    else if s.running then s.(rerun := true)
    else StartChain(s, Background)
  }

  function Needs(s: State): map<Sid, nat> {
    map x | x in Collect(s) :: |File(s.b.disk, x)|
  }

  // flush: called, and resumed each time the pass it waits for has ended.
  function FlushCalled(s: State): (r: State)
    ensures r.b == s.b && r.stopped == s.stopped
  {
    if s.stopped then s.(flushes := s.flushes + [Returned(map[], false)])
    else TryFlush(s.(flushes := s.flushes + [Waiting(Needs(s))]), |s.flushes|)
  }

  function TryFlush(s: State, f: nat): (r: State)
    requires f < |s.flushes|
    ensures r.b == s.b && r.stopped == s.stopped
  {
    if s.running then s.(rerun := true)
    else
      var need := s.flushes[f].need;
      StartChain(s.(flushes := s.flushes[f := if s.stopped then Returned(need, false) else Running(need)]), Flusher(f))
  }

  function Adopt(s: State, sid: Sid): (r: State)
    ensures r.b == s.b && r.stopped == s.stopped
  {
    var p := s.pending;
    var pending := if s.current.Some? && s.current.value !in p then p + [s.current.value] else p;
    Invalidate(s.(pending := pending, current := Some(sid)))
  }

  // announceNewSession, up to its read when the existing entries are to be marked as known.
  function Announce(s: State, sid: Sid, known: bool, hook: bool): (r: State)
    ensures r.b == s.b && r.stopped == s.stopped
  {
    if s.current == Some(sid) then s
    else
      var s1 := if hook then s.(dead := s.dead - {sid}) else s;
      if sid in s1.finished || sid in s1.pending then s1
      else if known then s1.(marks := s1.marks + [Mark(sid, |File(s1.b.disk, sid)|)])
      else Adopt(s1, sid)
  }

  function Marked(s: State, m: nat, n: nat): State
    requires m < |s.marks| && n <= |File(s.b.disk, s.marks[m].sid)|
  {
    var sid := s.marks[m].sid;
    Adopt(s.(marks := s.marks[..m] + s.marks[m + 1..], b := MarkKnown(s.b, KeySet(File(s.b.disk, sid)[..n]))), sid)
  }

  // A session's file never appeared: it is dropped, also from what running flushes owe.
  function GaveUp(s: State, sid: Sid): State {
    s.(watchers := Without(s.watchers, sid), dead := s.dead + {sid}, pending := Without(s.pending, sid),
       flushes := Forgiven(s.flushes, sid))
  }

  function Forgiven(fs: seq<Flush>, sid: Sid): (r: seq<Flush>)
    ensures |r| == |fs|
    ensures forall f :: 0 <= f < |fs| ==> r[f] == fs[f].(need := fs[f].need - {sid})
  {
    seq(|fs|, f requires 0 <= f < |fs| => fs[f].(need := fs[f].need - {sid}))
  }

  // --- one event ---

  datatype Event =
    | Reads(i: nat, n: nat)
    | PassBooks(i: nat)
    | PassSettles(i: nat)
    | Polls
    | FlushStarts
    | FlushResumes(f: nat)
    | Announces(sid: Sid, known: bool, hook: bool)
    | MarkReads(m: nat, n: nat)
    | WatcherGivesUp(sid: Sid)
    | FileGrows(sid: Sid, key: Key)
    | CleanupCalled
    | CleanupProceeds

  predicate Enabled(s: State, e: Event) {
    match e
    case Reads(i, n) =>
      i < |s.passes| && s.passes[i].at < |s.passes[i].sessions| &&
      s.passes[i].low <= n <= |File(s.b.disk, s.passes[i].sessions[s.passes[i].at])|
    case PassBooks(i) => i < |s.passes| && s.passes[i].at >= |s.passes[i].sessions| && !s.passes[i].booked
    case PassSettles(i) => i < |s.passes| && s.passes[i].booked
    case Polls => s.open
    case FlushStarts => s.open
    case FlushResumes(f) => f < |s.flushes| && s.flushes[f].Waiting?
    case Announces(_, _, _) => s.open
    case MarkReads(m, n) => m < |s.marks| && s.marks[m].low <= n <= |File(s.b.disk, s.marks[m].sid)|
    case WatcherGivesUp(sid) => sid in s.watchers
    case FileGrows(_, _) => true
    case CleanupCalled => s.open && !s.stopped
    case CleanupProceeds =>
      s.stopped && !s.cleaning && forall i :: 0 <= i < |s.passes| ==> s.passes[i].chain != s.awaits
  }

  function Step(s: State, e: Event): State
    requires Enabled(s, e)
  {
    match e
    case Reads(i, n) => ReadReturns(s, i, n)
    case PassBooks(i) => EndPass(s, i)
    case PassSettles(i) => Settles(s, i)
    case Polls => Invalidate(s)
    case FlushStarts => FlushCalled(s)
    case FlushResumes(f) => TryFlush(s, f)
    case Announces(sid, known, hook) => Announce(s, sid, known, hook)
    case MarkReads(m, n) => Marked(s, m, n)
    case WatcherGivesUp(sid) => GaveUp(s, sid)
    case FileGrows(sid, key) => s.(b := Append(s.b, sid, key))
    case CleanupCalled => s.(stopped := true, awaits := s.chain)
    case CleanupProceeds => StartPass(s, Closing, s.chain).(cleaning := true)
  }

  predicate Happens(s: State, es: seq<Event>)
    decreases |es|
  {
    es == [] || (Enabled(s, es[0]) && Happens(Step(s, es[0]), es[1..]))
  }

  function Run(s: State, es: seq<Event>): State
    requires Happens(s, es)
    decreases |es|
  {
    if es == [] then s else Run(Step(s, es[0]), es[1..])
  }

  // A new scanner, its initial pass begun; a session given at the start has its entries marked.
  function Start(disk: map<Sid, seq<Key>>, sid: Option<Sid>): State {
    var keys := if sid.Some? then KeySet(File(disk, sid.value)) else {};
    var books := Books(disk, keys, [], keys);
    StartPass(State(books, [], sid, [], {}, {}, false, false, false, false, false, [], 0, 0, [], []), Opening, 0)
  }
}
