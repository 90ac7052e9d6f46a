// The order in which the server holds the batches: when it is the sealing order although the cap evicts
// and processes crash and restart, and what breaks it.
module OutboxOrder {
  import opened Outbox
  import opened OutboxDelivery

  // Each entry is the batch sealed under its id, and the ids ascend: a subsequence of the sealed
  // batches, without duplicates and in order.
  predicate InSealingOrder(log: seq<Batch>, sealed: seq<Batch>) {
    (forall b :: b in log ==> IsSealed(b, sealed)) &&
    (forall i, j :: 0 <= i < j < |log| ==> log[i].localId < log[j].localId)
  }

  predicate IsSealed(b: Batch, sealed: seq<Batch>) {
    b.localId < |sealed| && b == sealed[b.localId]
  }

  predicate Below(log: seq<Batch>, id: nat) {
    forall b :: b in log ==> b.localId < id
  }

  predicate From(queue: seq<Batch>, id: nat) {
    forall b :: b in queue ==> id <= b.localId
  }

  predicate Ahead(log: seq<Batch>, queue: seq<Batch>) {
    forall x, y :: x in log && y in queue ==> x.localId < y.localId
  }

  function Last(posted: seq<Batch>): Batch
    requires posted != []
  {
    posted[|posted| - 1]
  }

  // Only the batch posted last may still be missing on the server; the queue lies after all others.
  ghost predicate Ordered(s: System) {
    Numbered(s.c.sealed, s.c.nextId) && InSealingOrder(s.server, s.c.sealed) && InSealingOrder(s.c.file, s.c.sealed) &&
    (if s.c.posted == [] then s.server == [] && s.c.phase.Resting?
     else
       IsSealed(Last(s.c.posted), s.c.sealed) && From(s.c.file, Last(s.c.posted).localId) &&
       (forall x :: x in s.c.posted ==> x in s.server || x == Last(s.c.posted)) &&
       Below(s.server, Last(s.c.posted).localId + if Last(s.c.posted) in s.server then 1 else 0)) &&
    (!s.c.phase.Resting? ==> s.up && s.c.phase.b == Last(s.c.posted)) && (!s.up ==> !s.c.disposed) &&
    (s.up ==> s.c.queue == s.c.file && (s.c.phase.Resting? && !s.c.disposed ==> Done(s)))
  }

  predicate Done(s: System) {
    (s.c.posted != [] ==> Last(s.c.posted) in s.server) && Ahead(s.server, s.c.file)
  }

  lemma DrainLoopOrdered(s: System)
    requires Ordered(s) && s.up && s.c.phase.Resting? && Done(s)
    ensures Ordered(s.(c := DrainLoop(s.c)))
  {
  }

  lemma SuffixOrdered(q: seq<Batch>, k: nat, sealed: seq<Batch>)
    requires InSealingOrder(q, sealed) && k <= |q|
    ensures InSealingOrder(q[k..], sealed) && forall x :: x in q[k..] ==> x in q
  {
  }

  lemma LastOrdered(q: seq<Batch>, b: Batch, sealed: seq<Batch>)
    requires InSealingOrder(q, sealed) && b.localId == |sealed|
    ensures InSealingOrder(q + [b], sealed + [b])
  {
    forall x | x in q + [b]
      ensures IsSealed(x, sealed + [b])
    {
      assert x in q ==> IsSealed(x, sealed);
    }
    forall i, j | 0 <= i < j < |q + [b]|
      ensures (q + [b])[i].localId < (q + [b])[j].localId
    {
      assert q[i] in q;
    }
  }

  lemma AppendOrdered(q: seq<Batch>, b: Batch, cap: nat, sealed: seq<Batch>)
    requires InSealingOrder(q, sealed) && b.localId == |sealed|
    ensures InSealingOrder(AppendWithCap(q, b, cap), sealed + [b])
    ensures forall x :: x in AppendWithCap(q, b, cap) ==> x in q || x == b
  {
    var k := TrimKeepsLongestSuffix(q + [b], cap);
    LastOrdered(q, b, sealed);
    SuffixOrdered(q + [b], k, sealed + [b]);
  }

  lemma SealOrdered(s: System, bytes: nat, cfg: Config)
    requires Ordered(s) && s.up
    ensures var b := Batch(s.c.nextId, s.c.buf, bytes);
            Ordered(s.(c := Sealing(s.c, bytes, AppendWithCap(s.c.queue, b, cfg.cap))))
  {
    AppendOrdered(s.c.queue, Batch(s.c.nextId, s.c.buf, bytes), cfg.cap, s.c.sealed);
  }

  lemma FlushOrdered(s: System, bytes: nat, cfg: Config)
    requires Ordered(s) && s.up
    ensures Ordered(s.(c := Flush(s.c, bytes, cfg)))
  {
    if s.c.buf != [] {
      SealOrdered(s, bytes, cfg);
      var q := AppendWithCap(s.c.queue, Batch(s.c.nextId, s.c.buf, bytes), cfg.cap);
      var t := s.(c := Sealing(s.c, bytes, q));
      if s.c.phase.Resting? && !s.c.disposed {
        DrainLoopOrdered(t);
      }
    }
  }

  lemma DeliverOrdered(s: System, b: Batch)
    requires Ordered(s) && b in s.c.posted
    ensures Ordered(s.(server := Store(s.server, b)))
  {
  }

  lemma StoredUnderItsId(s: System)
    requires Ordered(s) && Enabled(s, AckArrives)
    ensures s.c.phase.b in s.server
  {
  }

  lemma TailAfter(q: seq<Batch>, id: nat, sealed: seq<Batch>)
    requires q != [] && InSealingOrder(q, sealed) && From(q, id)
    ensures InSealingOrder(q[1..], sealed) && forall x :: x in q[1..] ==> id < x.localId
  {
    assert q[0] in q;
    SuffixOrdered(q, 1, sealed);
  }

  lemma AckOrdered(s: System)
    requires Ordered(s) && Enabled(s, AckArrives)
    ensures Ordered(s.(c := Acked(s.c)))
  {
    StoredUnderItsId(s);
    var rest := if s.c.queue == [] then [] else s.c.queue[1..];
    if s.c.queue != [] {
      TailAfter(s.c.queue, s.c.phase.b.localId, s.c.sealed);
    }
    RestOrdered(s, rest);
    DrainLoopOrdered(s.(c := s.c.(queue := rest, file := rest, phase := Resting)));
  }

  lemma RestOrdered(s: System, rest: seq<Batch>)
    requires Ordered(s) && s.c.phase.InFlight? && s.c.phase.b in s.server
    requires InSealingOrder(rest, s.c.sealed) && forall x :: x in rest ==> s.c.phase.b.localId < x.localId
    ensures var t := s.(c := s.c.(queue := rest, file := rest, phase := Resting)); Ordered(t) && Done(t)
  {
  }

  // An ack takes the acked batch off the queue exactly when it is still there. When the cap has
  // evicted it, the ack drops the oldest queued batch instead, one that was never posted.
  lemma AckDropsOther(s: System)
    requires Ordered(s) && Enabled(s, AckArrives) && s.c.queue != []
    ensures s.c.phase.b in s.c.queue <==> s.c.queue == [s.c.phase.b] + Acked(s.c).queue
    ensures s.c.phase.b !in s.c.queue ==>
              s.c.queue[0] !in s.c.posted && s.c.queue[0] !in Acked(s.c).posted && s.c.queue[0] !in Acked(s.c).queue
  {
  }

  lemma EnqueueOrdered(s: System, events: seq<Content>, bytes: nat, cfg: Config)
    requires Ordered(s) && s.up
    ensures Ordered(s.(c := Enqueue(s.c, events, bytes, cfg)))
  {
    var t := s.(c := s.c.(buf := s.c.buf + events, survivors := s.c.survivors + events));
    assert Ordered(t);
    FlushOrdered(t, bytes, cfg);
  }

  // A restart lets new requests overtake one from before the crash: the batch posted last is neither
  // stored nor what the restart posts again.
  predicate Overtakes(s: System) {
    s.c.posted != [] && Last(s.c.posted) !in s.server && (s.c.file == [] || s.c.file[0] != Last(s.c.posted))
  }

  lemma RestartInOrder(s: System)
    requires Ordered(s) && !s.up && !Overtakes(s)
    ensures Ordered(s.(up := true, c := Recover(s.c)))
  {
    var t := s.(up := true, c := Recover(s.c));
    if s.c.file != [] {
      var head := s.c.file[0];
      assert head in s.c.file && IsSealed(head, s.c.sealed) && Last(t.c.posted) == head;
      assert From(s.c.file, head.localId);
    }
  }

  lemma RestartOutOfOrder(s: System)
    requires Ordered(s) && !s.up && Overtakes(s)
    ensures !Ordered(s.(up := true, c := Recover(s.c)))
  {
    var t := s.(up := true, c := Recover(s.c));
    if s.c.file != [] {
      assert Last(s.c.posted) in t.c.posted && Last(t.c.posted) == s.c.file[0];
    }
  }

  lemma CrashOrdered(s: System)
    requires Ordered(s)
    ensures Ordered(s.(up := false, c := Crash(s.c)))
  {
  }

  // Main result: one step keeps the order exactly when it is no restart that overtakes.
  lemma StepOrdered(s: System, e: Event, cfg: Config)
    requires Ordered(s) && Enabled(s, e)
    ensures Ordered(Step(s, e, cfg)) <==> !(e.Restarts? && Overtakes(s))
  {
    match e {
      case Enqueues(events, bytes) => EnqueueOrdered(s, events, bytes, cfg);
      case Flushes(bytes) => FlushOrdered(s, bytes, cfg);
      case TimerFires(bytes) => FlushOrdered(s, bytes, cfg);
      case Disposes(bytes) => DisposeOrdered(s, bytes, cfg);
      case Delivers(b) => DeliverOrdered(s, b);
      case AckArrives => AckOrdered(s);
      case SendFails => SendFailedOrdered(s);
      case Wakes => WokenOrdered(s);
      case Crashes => CrashOrdered(s);
      case Restarts => if Overtakes(s) { RestartOutOfOrder(s); } else { RestartInOrder(s); }
    }
  }

  lemma SendFailedOrdered(s: System)
    requires Ordered(s) && s.c.phase.InFlight?
    ensures Ordered(s.(c := SendFailed(s.c)))
  {
  }

  lemma DisposeOrdered(s: System, bytes: nat, cfg: Config)
    requires Ordered(s) && s.up
    ensures Ordered(s.(c := Dispose(s.c, bytes, cfg)))
  {
    FlushOrdered(s, bytes, cfg);
  }

  lemma WokenOrdered(s: System)
    requires Ordered(s) && s.c.phase.Sleeping?
    ensures Ordered(s.(c := Woken(s.c)))
  {
  }

  predicate NeverOvertakes(s: System, es: seq<Event>, cfg: Config)
    requires Happens(s, es, cfg)
    decreases |es|
  {
    es == [] || (!(es[0].Restarts? && Overtakes(s)) && NeverOvertakes(Step(s, es[0], cfg), es[1..], cfg))
  }

  lemma {:induction false} RunOrdered(s: System, es: seq<Event>, cfg: Config)
    requires Ordered(s) && Happens(s, es, cfg) && NeverOvertakes(s, es, cfg)
    ensures Ordered(Run(s, es, cfg))
    decreases |es|
  {
    if es != [] {
      StepOrdered(s, es[0], cfg);
      RunOrdered(Step(s, es[0], cfg), es[1..], cfg);
    }
  }

  // Main result: on every run in which no restart overtakes, the server's log is a duplicate-free,
  // order-preserving subsequence of the sealed batches, whatever the cap evicts.
  lemma NeverOutOfOrder(es: seq<Event>, cfg: Config)
    requires Happens(START, es, cfg) && NeverOvertakes(START, es, cfg)
    ensures InSealingOrder(Run(START, es, cfg).server, Run(START, es, cfg).c.sealed)
  {
    RunOrdered(START, es, cfg);
  }

  // Without evictions a restart never overtakes.
  lemma FaithfulResumes(s: System)
    requires Faithful(s)
    ensures !Overtakes(s)
  {
    if s.c.posted != [] {
      var b := Last(s.c.posted);
      assert b in s.c.posted && b == s.c.sealed[b.localId];
      if b.localId < |s.acked| {
        assert s.server[b.localId] == b;
      } else {
        assert s.c.file[0] == b;
      }
    }
  }

  lemma {:induction false} FaithfulNeverOvertakes(s: System, es: seq<Event>, cfg: Config)
    requires Faithful(s) && Happens(s, es, cfg) && NeverEvicts(s, es, cfg)
    ensures NeverOvertakes(s, es, cfg)
    decreases |es|
  {
    if es != [] {
      FaithfulResumes(s);
      StepFaithful(s, es[0], cfg);
      FaithfulNeverOvertakes(Step(s, es[0], cfg), es[1..], cfg);
    }
  }

  predicate OneLifetime(es: seq<Event>) {
    forall i :: 0 <= i < |es| ==> !es[i].Restarts?
  }

  lemma {:induction false} OneLifetimeOvertakesNothing(s: System, es: seq<Event>, cfg: Config)
    requires Happens(s, es, cfg) && OneLifetime(es)
    ensures NeverOvertakes(s, es, cfg)
    decreases |es|
  {
    if es != [] {
      OneLifetimeOvertakesNothing(Step(s, es[0], cfg), es[1..], cfg);
    }
  }

  // Main result: a lifetime that resumes whatever an eviction-free past left on disk and in the network
  // keeps the sealing order, whatever the cap evicts from now on.
  lemma ResumedLifetimeInOrder(past: seq<Event>, es: seq<Event>, cfg: Config)
    requires Happens(START, past, cfg) && NeverEvicts(START, past, cfg)
    requires Happens(Run(START, past, cfg), es, cfg) && OneLifetime(es)
    ensures var s := Run(Run(START, past, cfg), es, cfg); InSealingOrder(s.server, s.c.sealed)
  {
    FaithfulNeverOvertakes(START, past, cfg);
    RunOrdered(START, past, cfg);
    OneLifetimeOvertakesNothing(Run(START, past, cfg), es, cfg);
    RunOrdered(Run(START, past, cfg), es, cfg);
  }

  // A later batch is stored first, and then the late one.
  lemma StoresLateFirst(s: System, later: Batch, late: Batch, cfg: Config)
    requires later in s.c.posted && late in s.c.posted && late.localId < later.localId && Below(s.server, late.localId)
    ensures var es := [Delivers(later), Delivers(late)];
            Happens(s, es, cfg) && Run(s, es, cfg) == s.(server := s.server + [later, late])
  {
    var s1 := Step(s, Delivers(later), cfg);
    assert s1.server == s.server + [later];
    var s2 := Step(s1, Delivers(late), cfg);
    assert s2.server == (s.server + [later]) + [late] == s.server + [later, late];
    assert [Delivers(later), Delivers(late)][1..] == [Delivers(late)] && [Delivers(late)][1..] == [];
    assert Run(s, [Delivers(later), Delivers(late)], cfg) == Run(s1, [Delivers(late)], cfg) == Run(s2, [], cfg);
  }

  lemma LateBreaksOrder(log: seq<Batch>, later: Batch, late: Batch, sealed: seq<Batch>)
    requires late.localId < later.localId
    ensures !InSealingOrder(log + [later, late], sealed)
  {
    var n := |log|;
    assert (log + [later, late])[n] == later && (log + [later, late])[n + 1] == late;
  }

  // A restart posts something new: the head of the file, or else the next batch flushed.
  lemma PostsHead(s: System, cfg: Config)
    requires Ordered(s) && !s.up && Overtakes(s) && s.c.file != []
    ensures var t := Run(s, [Restarts], cfg);
            && t.server == s.server && t.c.posted == s.c.posted + [s.c.file[0]]
            && Last(s.c.posted).localId < s.c.file[0].localId
  {
    assert s.c.file[0] in s.c.file;
    assert [Restarts][1..] == [];
  }

  lemma PostsFresh(s: System, b: Batch, cfg: Config)
    requires Ordered(s) && !s.up && s.c.file == [] && s.c.buf == [] && b == Batch(s.c.nextId, ["x"], 0)
    ensures var es := [Restarts, Enqueues(["x"], 0), Flushes(0)];
            && Happens(s, es, cfg)
            && Run(s, es, cfg).server == s.server && Run(s, es, cfg).c.posted == s.c.posted + [b]
  {
    var es := [Restarts, Enqueues(["x"], 0), Flushes(0)];
    assert [] + ["x"] == ["x"] && [] + [b] == [b];
    assert es[1..] == [Enqueues(["x"], 0), Flushes(0)] && es[1..][1..] == [Flushes(0)] && es[1..][1..][1..] == [];
    var t := Step(s, Restarts, cfg);
    var t1 := Step(t, Enqueues(["x"], 0), cfg);
    assert Run(s, es, cfg) == Run(t, es[1..], cfg) == Run(t1, [Flushes(0)], cfg);
    assert Run(t1, [Flushes(0)], cfg) == Run(Step(t1, Flushes(0), cfg), [], cfg);
  }

  // A restart, and the lifetime it begins.
  predicate Resumes(es: seq<Event>) {
    es != [] && es[0] == Restarts && OneLifetime(es[1..])
  }

  lemma PostsNew(s: System, cfg: Config) returns (es: seq<Event>, b: Batch)
    requires Ordered(s) && !s.up && Overtakes(s) && s.c.buf == []
    ensures Resumes(es) && Happens(s, es, cfg) &&
            var t := Run(s, es, cfg);
            t.server == s.server && t.c.posted == s.c.posted + [b] && Last(s.c.posted).localId < b.localId
  {
    if s.c.file != [] {
      es, b := [Restarts], s.c.file[0];
      PostsHead(s, cfg);
    } else {
      es, b := [Restarts, Enqueues(["x"], 0), Flushes(0)], Batch(s.c.nextId, ["x"], 0);
      PostsFresh(s, b, cfg);
    }
  }

  // Main result: the condition is exact. After any restart that overtakes there is a run in the same
  // lifetime at whose end the server holds the batches out of order.
  lemma OvertakingBreaksOrder(s: System, cfg: Config) returns (es: seq<Event>)
    requires Ordered(s) && !s.up && Overtakes(s) && s.c.buf == []
    ensures Resumes(es) && Happens(s, es, cfg) &&
            !InSealingOrder(Run(s, es, cfg).server, Run(s, es, cfg).c.sealed)
  {
    var first, b := PostsNew(s, cfg);
    var t, late := Run(s, first, cfg), Last(s.c.posted);
    StoresLateFirst(t, b, late, cfg);
    LateBreaksOrder(s.server, b, late, t.c.sealed);
    es := first + [Delivers(b), Delivers(late)];
    RunConcat(s, first, [Delivers(b), Delivers(late)], cfg);
    assert es[1..] == first[1..] + [Delivers(b), Delivers(late)];
  }

  lemma {:induction false} RunConcat(s: System, a: seq<Event>, b: seq<Event>, cfg: Config)
    requires Happens(s, a, cfg) && Happens(Run(s, a, cfg), b, cfg)
    ensures Happens(s, a + b, cfg) && Run(s, a + b, cfg) == Run(Run(s, a, cfg), b, cfg)
    decreases |a|
  {
    if a == [] {
      assert a + b == b;
    } else {
      assert (a + b)[1..] == a[1..] + b && (a + b)[0] == a[0];
      RunConcat(Step(s, a[0], cfg), a[1..], b, cfg);
    }
  }

  // --- what eviction breaks ---

  const TIGHT := Config(1, 1)
  const FIRST := Batch(0, ["a"], 1)
  const SECOND := Batch(1, ["b"], 1)
  const IN_FLIGHT_EVICTED := [Enqueues(["a"], 1), Enqueues(["b"], 1)]

  // The state with the first batch still in flight and no longer queued.
  const EVICTED := System(
    true,
    Client([], false, [SECOND], InFlight(FIRST), false, [SECOND], [FIRST], 2, [FIRST, SECOND], ["a", "b"]),
    [], [])

  lemma TightTotals()
    ensures Total([FIRST]) == 1 && Total([SECOND]) == 1 && Total([FIRST, SECOND]) == 2
    ensures Trim([FIRST], 1) == [FIRST] && Trim([FIRST, SECOND], 1) == [SECOND]
  {
  }

  // The second batch evicts the first while it is in flight.
  lemma EvictedInFlight()
    ensures Happens(START, IN_FLIGHT_EVICTED, TIGHT) && Run(START, IN_FLIGHT_EVICTED, TIGHT) == EVICTED
  {
    TightTotals();
    assert [] + ["a"] == ["a"] && [] + ["b"] == ["b"] && ["a"] + ["b"] == ["a", "b"];
    assert [] + [FIRST] == [FIRST] && [FIRST] + [SECOND] == [FIRST, SECOND];
    var s1 := Step(START, Enqueues(["a"], 1), TIGHT);
    var c1 := Client([], false, [FIRST], InFlight(FIRST), false, [FIRST], [FIRST], 1, [FIRST], ["a"]);
    assert s1 == System(true, c1, [], []);
    assert Step(s1, Enqueues(["b"], 1), TIGHT) == EVICTED;
    assert IN_FLIGHT_EVICTED[1..] == [Enqueues(["b"], 1)] && IN_FLIGHT_EVICTED[1..][1..] == [];
  }

  // Then the first batch's ack drops the second one: it was small enough to stay, and is never sent.
  lemma AckLosesQueuedBatch()
    ensures Happens(EVICTED, [Delivers(FIRST), AckArrives], TIGHT)
    ensures var t := Run(EVICTED, [Delivers(FIRST), AckArrives], TIGHT);
            t.c.sealed == [FIRST, SECOND] && t.server == [FIRST] && t.c.queue == [] && t.c.phase.Resting? &&
            t.c.posted == [FIRST]
  {
    var s1 := Step(EVICTED, Delivers(FIRST), TIGHT);
    StoredHasId(EVICTED.server, FIRST);
    assert s1.server == [FIRST];
    assert [Delivers(FIRST), AckArrives][1..] == [AckArrives] && [AckArrives][1..] == [];
  }

  const OVERTAKING := [Crashes, Restarts, Delivers(SECOND), Delivers(FIRST)]

  // And over two lifetimes a late request may overtake: the server stores the second batch first.
  lemma LateRequestOvertakes()
    ensures Happens(EVICTED, OVERTAKING, TIGHT) && Run(EVICTED, OVERTAKING, TIGHT).server == [SECOND, FIRST]
  {
    var s2 := Step(Step(EVICTED, Crashes, TIGHT), Restarts, TIGHT);
    assert s2.c.posted == [FIRST] + [SECOND] && s2.server == [];
    StoresLateFirst(s2, SECOND, FIRST, TIGHT);
    assert [] + [SECOND, FIRST] == [SECOND, FIRST];
    assert OVERTAKING[1..][1..] == [Delivers(SECOND), Delivers(FIRST)];
  }

}
