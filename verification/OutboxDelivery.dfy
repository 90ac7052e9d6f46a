// What the outbox guarantees over every interleaving of flushes, lost or delayed requests, lost acks,
// crashes and restarts.
module OutboxDelivery {
  import opened Outbox

  // --- the byte cap evicts as little as it can ---

  // Main result: what is kept is the longest suffix ending in the new entry that fits the cap, or
  // that entry alone.
  lemma {:induction false} TrimKeepsLongestSuffix(q: seq<Batch>, cap: nat) returns (k: nat)
    requires q != []
    ensures k < |q| && Trim(q, cap) == q[k..]
    ensures Total(q[k..]) <= cap || k == |q| - 1
    ensures forall j :: 0 <= j < k ==> Total(q[j..]) > cap
  {
    if Total(q) > cap && |q| > 1 {
      var k1 := TrimKeepsLongestSuffix(q[1..], cap);
      k := k1 + 1;
      assert q[1..][k1..] == q[k..];
      forall j | 0 <= j < k
        ensures Total(q[j..]) > cap
      {
        if j == 0 {
          assert q[0..] == q;
        } else {
          assert q[1..][j - 1..] == q[j..];
        }
      }
    } else {
      k := 0;
      assert q[0..] == q;
    }
  }

  // --- what every run keeps, evictions included ---

  function Flatten(batches: seq<Batch>): seq<Content> {
    if batches == [] then [] else Flatten(batches[..|batches| - 1]) + batches[|batches| - 1].content
  }

  // Batch i of the history was sealed with id i.
  predicate Numbered(sealed: seq<Batch>, nextId: nat) {
    |sealed| == nextId && forall i :: 0 <= i < |sealed| ==> sealed[i].localId == i
  }

  // The file mirrors the queue, no envelope is lost or duplicated on its way into a batch, and work
  // that is waiting always has something that will wake it.
  ghost predicate Sound(s: System, cfg: Config) {
    Numbered(s.c.sealed, s.c.nextId) &&
    s.c.survivors == Flatten(s.c.sealed) + s.c.buf &&
    (s.up ==> s.c.queue == s.c.file) && (!s.up ==> s.c.buf == [] && s.c.phase.Resting?) &&
    (s.c.buf != [] ==> s.c.timer && |s.c.buf| < cfg.maxBatch) && (s.c.disposed ==> s.c.buf == [] && !s.c.timer) &&
    (s.up && !s.c.disposed && s.c.queue != [] ==> !s.c.phase.Resting?) &&
    (!s.c.phase.Resting? ==> s.c.phase.b in s.c.posted)
  }

  lemma FlattenLast(batches: seq<Batch>, b: Batch)
    ensures Flatten(batches + [b]) == Flatten(batches) + b.content
  {
    assert (batches + [b])[..|batches|] == batches;
  }

  lemma FlushSealsBuffer(c: Client, bytes: nat, cfg: Config)
    requires Numbered(c.sealed, c.nextId) && c.survivors == Flatten(c.sealed) + c.buf && c.queue == c.file
    requires !c.phase.Resting? ==> c.phase.b in c.posted
    ensures var r := Flush(c, bytes, cfg);
            Numbered(r.sealed, r.nextId) && r.survivors == Flatten(r.sealed) + r.buf && r.buf == [] && !r.timer &&
            r.queue == r.file && r.disposed == c.disposed && (!r.phase.Resting? ==> r.phase.b in r.posted)
  {
    if c.buf != [] {
      FlattenLast(c.sealed, Batch(c.nextId, c.buf, bytes));
      assert Flatten(c.sealed) + c.buf + [] == Flatten(c.sealed) + c.buf;
    }
  }

  lemma EnqueueSound(s: System, events: seq<Content>, bytes: nat, cfg: Config)
    requires Sound(s, cfg) && s.up && !s.c.disposed && events != []
    ensures Sound(s.(c := Enqueue(s.c, events, bytes, cfg)), cfg)
  {
    assert (Flatten(s.c.sealed) + s.c.buf) + events == Flatten(s.c.sealed) + (s.c.buf + events);
    FlushSealsBuffer(s.c.(buf := s.c.buf + events, survivors := s.c.survivors + events), bytes, cfg);
  }

  lemma StepSound(s: System, e: Event, cfg: Config)
    requires Sound(s, cfg) && Enabled(s, e)
    ensures Sound(Step(s, e, cfg), cfg)
  {
    match e {
      case Enqueues(events, bytes) => if !s.c.disposed && events != [] { EnqueueSound(s, events, bytes, cfg); }
      case Flushes(bytes) => FlushSealsBuffer(s.c, bytes, cfg);
      case TimerFires(bytes) => FlushSealsBuffer(s.c, bytes, cfg);
      case Disposes(bytes) => FlushSealsBuffer(s.c, bytes, cfg);
      case Crashes => assert s.c.survivors[..|s.c.survivors| - |s.c.buf|] == Flatten(s.c.sealed);
      case _ =>
    }
  }

  lemma {:induction false} RunSound(s: System, es: seq<Event>, cfg: Config)
    requires Sound(s, cfg) && Happens(s, es, cfg)
    ensures Sound(Run(s, es, cfg), cfg)
    decreases |es|
  {
    if es != [] {
      StepSound(s, es[0], cfg);
      RunSound(Step(s, es[0], cfg), es[1..], cfg);
    }
  }

  // Main result: every accepted envelope that no crash caught unsealed is in exactly one batch, in
  // order, or still buffered; and an outbox that is up and not disposed is never stuck.
  lemma NothingLostBeforeSealing(es: seq<Event>, cfg: Config)
    requires Happens(START, es, cfg)
    ensures var s := Run(START, es, cfg);
            s.c.survivors == Flatten(s.c.sealed) + s.c.buf &&
            (s.c.buf != [] ==> s.c.timer && |s.c.buf| < cfg.maxBatch) &&
            (s.up ==> s.c.queue == s.c.file && (!s.c.disposed && s.c.queue != [] ==> !s.c.phase.Resting?))
  {
    RunSound(START, es, cfg);
  }

  // --- exactly once, in order ---

  predicate FlushEvicts(c: Client, bytes: nat, cfg: Config) {
    c.buf != [] && Total(c.queue + [Batch(c.nextId, c.buf, bytes)]) > cfg.cap && c.queue != []
  }

  // The step pushes some batch out of the queue to stay under the cap.
  predicate Evicts(s: System, e: Event, cfg: Config) {
    match e
    case Enqueues(events, bytes) =>
      !s.c.disposed && events != [] && |s.c.buf + events| >= cfg.maxBatch &&
      FlushEvicts(s.c.(buf := s.c.buf + events), bytes, cfg)
    case Flushes(bytes) => FlushEvicts(s.c, bytes, cfg)
    case TimerFires(bytes) => FlushEvicts(s.c, bytes, cfg)
    case Disposes(bytes) => FlushEvicts(s.c, bytes, cfg)
    case _ => false
  }

  predicate NeverEvicts(s: System, es: seq<Event>, cfg: Config)
    requires Happens(s, es, cfg)
    decreases |es|
  {
    es == [] || (!Evicts(s, es[0], cfg) && NeverEvicts(Step(s, es[0], cfg), es[1..], cfg))
  }

  // The sealed batches are the acked ones followed by the file; the server holds the acked ones, and
  // perhaps the head of the file; every request ever posted is for one of those.
  ghost predicate Faithful(s: System) {
    var sealed, n, m := s.c.sealed, |s.acked|, |s.server|;
    Numbered(sealed, s.c.nextId) &&
    n <= |sealed| && s.acked == sealed[..n] && s.c.file == sealed[n..] && (s.up ==> s.c.queue == s.c.file) &&
    n <= m <= n + 1 && m <= |sealed| && s.server == sealed[..m] &&
    (forall b :: b in s.c.posted ==> b.localId <= n && b.localId < |sealed| && b == sealed[b.localId]) &&
    (!s.up ==> s.c.phase.Resting?) &&
    (!s.c.phase.Resting? ==> n < |sealed| && s.c.phase.b == sealed[n])
  }

  lemma DrainLoopFaithful(s: System)
    requires s.up && Faithful(s.(c := s.c.(phase := Resting)))
    ensures Faithful(s.(c := DrainLoop(s.c)))
  {
  }

  // The state in which a new batch has been sealed and queued as q, before the drain is kicked.
  function Sealing(c: Client, bytes: nat, q: seq<Batch>): Client {
    c.(buf := [], timer := false, queue := q, file := q, nextId := c.nextId + 1,
       sealed := c.sealed + [Batch(c.nextId, c.buf, bytes)])
  }

  lemma SealFaithful(s: System, bytes: nat)
    requires Faithful(s) && s.up
    ensures Faithful(s.(c := Sealing(s.c, bytes, s.c.queue + [Batch(s.c.nextId, s.c.buf, bytes)])))
  {
    var b := Batch(s.c.nextId, s.c.buf, bytes);
    assert (s.c.sealed + [b])[|s.acked|..] == s.c.file + [b];
    assert (s.c.sealed + [b])[..|s.acked|] == s.acked;
    assert (s.c.sealed + [b])[..|s.server|] == s.server;
  }

  lemma FlushFaithful(s: System, bytes: nat, cfg: Config)
    requires Faithful(s) && s.up && !FlushEvicts(s.c, bytes, cfg)
    ensures Faithful(s.(c := Flush(s.c, bytes, cfg)))
  {
    if s.c.buf != [] {
      var b := Batch(s.c.nextId, s.c.buf, bytes);
      assert AppendWithCap(s.c.queue, b, cfg.cap) == s.c.queue + [b];
      SealFaithful(s, bytes);
      if s.c.phase.Resting? {
        DrainLoopFaithful(s.(c := Sealing(s.c, bytes, s.c.queue + [b])));
      }
    }
  }

  // An eviction loses a sealed batch that was never acked.
  lemma FlushUnfaithful(s: System, bytes: nat, cfg: Config)
    requires Faithful(s) && s.up && FlushEvicts(s.c, bytes, cfg)
    ensures var c := Flush(s.c, bytes, cfg); |c.file| < |c.sealed| - |s.acked|
  {
    var q := s.c.queue + [Batch(s.c.nextId, s.c.buf, bytes)];
    var k := TrimKeepsLongestSuffix(q, cfg.cap);
    assert k != 0 by { assert q[0..] == q; }
  }

  lemma DeliverFaithful(s: System, b: Batch)
    requires Faithful(s) && b in s.c.posted
    ensures Faithful(s.(server := Store(s.server, b)))
  {
  }

  lemma AckFaithful(s: System)
    requires Faithful(s) && Enabled(s, AckArrives)
    ensures Faithful(s.(c := Acked(s.c), acked := s.acked + [s.c.phase.b]))
  {
    var n := |s.acked|;
    assert s.acked + [s.c.phase.b] == s.c.sealed[..n + 1];
    assert s.c.file[1..] == s.c.sealed[n + 1..];
    var rest := s.c.file[1..];
    var t := s.(c := s.c.(queue := rest, file := rest), acked := s.acked + [s.c.phase.b]);
    assert Faithful(t.(c := t.c.(phase := Resting)));
    DrainLoopFaithful(t);
  }

  // One step keeps delivery faithful exactly when it evicts nothing.
  lemma StepFaithful(s: System, e: Event, cfg: Config)
    requires Faithful(s) && Enabled(s, e)
    ensures Faithful(Step(s, e, cfg)) <==> !Evicts(s, e, cfg)
  {
    if Evicts(s, e, cfg) {
      match e {
        case Enqueues(events, bytes) =>
          FlushUnfaithful(s.(c := s.c.(buf := s.c.buf + events, survivors := s.c.survivors + events)), bytes, cfg);
        case Flushes(bytes) => FlushUnfaithful(s, bytes, cfg);
        case TimerFires(bytes) => FlushUnfaithful(s, bytes, cfg);
        case Disposes(bytes) => FlushUnfaithful(s, bytes, cfg);
      }
    } else {
      match e {
        case Enqueues(events, bytes) =>
          if !s.c.disposed && events != [] && |s.c.buf + events| >= cfg.maxBatch {
            FlushFaithful(s.(c := s.c.(buf := s.c.buf + events, survivors := s.c.survivors + events)), bytes, cfg);
          }
        case Flushes(bytes) => FlushFaithful(s, bytes, cfg);
        case TimerFires(bytes) => FlushFaithful(s, bytes, cfg);
        case Disposes(bytes) => FlushFaithful(s, bytes, cfg);
        case Delivers(b) => DeliverFaithful(s, b);
        case AckArrives => AckFaithful(s);
        case Restarts => DrainLoopFaithful(s.(up := true, c := s.c.(queue := s.c.file)));
        case SendFails =>
        case Wakes =>
        case Crashes =>
      }
    }
  }

  lemma {:induction false} RunFaithful(s: System, es: seq<Event>, cfg: Config)
    requires Faithful(s) && Happens(s, es, cfg) && NeverEvicts(s, es, cfg)
    ensures Faithful(Run(s, es, cfg))
    decreases |es|
  {
    if es != [] {
      StepFaithful(s, es[0], cfg);
      RunFaithful(Step(s, es[0], cfg), es[1..], cfg);
    }
  }

  // Main result: as long as the cap evicts nothing, the server's log is a prefix of the batches in
  // the order they were sealed, each stored once, and at most one batch ahead of the acks.
  lemma ExactlyOnceInOrder(es: seq<Event>, cfg: Config)
    requires Happens(START, es, cfg) && NeverEvicts(START, es, cfg)
    ensures var s := Run(START, es, cfg);
            s.server <= s.c.sealed && s.c.sealed == s.acked + s.c.file &&
            (s.server == s.acked || (s.c.file != [] && s.server == s.acked + [s.c.file[0]]))
  {
    RunFaithful(START, es, cfg);
  }

  // How far the batch in flight is from its ack.
  function Remaining(s: System): nat {
    if s.c.phase.Sleeping? then 2 else if s.c.phase.InFlight? && !HasId(s.server, s.c.phase.b.localId) then 1 else 0
  }

  ghost predicate Drainable(s: System, cfg: Config) {
    Faithful(s) && Sound(s, cfg) && s.up && !s.c.disposed
  }

  // What has to happen next for the queue's head to be acked.
  function NextUseful(s: System): Event
    requires !s.c.phase.Resting?
  {
    if s.c.phase.Sleeping? then Wakes
    else if HasId(s.server, s.c.phase.b.localId) then AckArrives
    else Delivers(s.c.phase.b)
  }

  lemma UsefulKeeps(s: System, cfg: Config)
    requires Drainable(s, cfg) && s.c.queue != []
    ensures Enabled(s, NextUseful(s)) && Drainable(Step(s, NextUseful(s), cfg), cfg)
  {
    StepFaithful(s, NextUseful(s), cfg);
    StepSound(s, NextUseful(s), cfg);
  }

  lemma UsefulProgress(s: System, cfg: Config)
    requires Drainable(s, cfg) && s.c.queue != [] && Enabled(s, NextUseful(s))
    ensures var t := Step(s, NextUseful(s), cfg);
            t.c.sealed == s.c.sealed && |t.c.queue| <= |s.c.queue| &&
            (|t.c.queue| == |s.c.queue| ==> Remaining(t) < Remaining(s))
  {
    StoredHasId(s.server, s.c.phase.b);
  }

  lemma {:induction false} CanDrain(s: System, cfg: Config) returns (es: seq<Event>)
    requires Drainable(s, cfg)
    ensures Happens(s, es, cfg) && Run(s, es, cfg).server == s.c.sealed && Run(s, es, cfg).c.queue == []
    decreases |s.c.queue|, Remaining(s)
  {
    es := [];
    if s.c.queue != [] {
      UsefulKeeps(s, cfg);
      UsefulProgress(s, cfg);
      var e := NextUseful(s);
      var rest := CanDrain(Step(s, e, cfg), cfg);
      es := [e] + rest;
      assert es[1..] == rest;
    }
  }

  // Main result: after every run that evicts nothing, an outbox that is up and not disposed and a server
  // that answers can deliver everything that was sealed.
  lemma CanAlwaysDrain(es: seq<Event>, cfg: Config) returns (more: seq<Event>)
    requires Happens(START, es, cfg) && NeverEvicts(START, es, cfg)
    requires Run(START, es, cfg).up && !Run(START, es, cfg).c.disposed
    ensures var s := Run(START, es, cfg);
            Happens(s, more, cfg) && Run(s, more, cfg).server == s.c.sealed && Run(s, more, cfg).c.queue == []
  {
    RunFaithful(START, es, cfg);
    RunSound(START, es, cfg);
    more := CanDrain(Run(START, es, cfg), cfg);
  }

  lemma StoredHasId(log: seq<Batch>, b: Batch)
    ensures HasId(Store(log, b), b.localId)
  {
    if !HasId(log, b.localId) {
      assert (log + [b])[|log|].localId == b.localId;
    }
  }

  // --- disposal ---

  lemma DisposedPostsNothing(s: System, e: Event, cfg: Config)
    requires Enabled(s, e) && !e.Restarts? && (s.up ==> s.c.disposed)
    ensures var t := Step(s, e, cfg); t.c.posted == s.c.posted && (t.up ==> t.c.disposed)
  {
  }

  // Main result: a disposed outbox posts no further batch, whatever happens short of a restart.
  lemma {:induction false} DisposedForGood(s: System, es: seq<Event>, cfg: Config)
    requires (s.up ==> s.c.disposed) && Happens(s, es, cfg) && Restarts !in es
    ensures Run(s, es, cfg).c.posted == s.c.posted
    decreases |es|
  {
    if es != [] {
      assert es[0] in es && forall e :: e in es[1..] ==> e in es;
      DisposedPostsNothing(s, es[0], cfg);
      DisposedForGood(Step(s, es[0], cfg), es[1..], cfg);
    }
  }
}
