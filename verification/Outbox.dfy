// The durable outbox (packages/cli/src/api/outbox.ts and queue.ts): envelopes are coalesced into
// batches, each batch is queued on disk, and a FIFO drain posts the queue's head until it is acked.
module Outbox {

  // Sealing is an invertible function of the batch, so a batch's content stands for its ciphertext.
  type Content = string

  datatype Batch = Batch(localId: nat, content: seq<Content>, bytes: nat)

  // `draining` in the program is `phase != Resting`; a running drain holds the batch it is sending.
  datatype Phase = Resting | InFlight(b: Batch) | Sleeping(b: Batch)

  // Memory of one process (buf, timer, queue, phase, disposed), what outlives it (the queue file, the
  // requests handed to the network, the id supply), and two histories: every batch ever sealed, and
  // every accepted envelope except those a crash caught unsealed.
  datatype Client = Client(
    buf: seq<Content>, timer: bool, queue: seq<Batch>, phase: Phase, disposed: bool,
    file: seq<Batch>, posted: seq<Batch>, nextId: nat, sealed: seq<Batch>, survivors: seq<Content>)

  datatype Config = Config(maxBatch: nat, cap: nat)

  const FRESH := Client([], false, [], Resting, false, [], [], 0, [], [])

  // --- the byte cap ---

  function Total(q: seq<Batch>): nat {
    if q == [] then 0 else q[0].bytes + Total(q[1..])
  }

  // appendWithCap: the oldest entries go until the rest fits; the newest always stays.
  function Trim(q: seq<Batch>, cap: nat): seq<Batch> {
    if Total(q) > cap && |q| > 1 then Trim(q[1..], cap) else q
  }

  function AppendWithCap(q: seq<Batch>, b: Batch, cap: nat): seq<Batch> {
    Trim(q + [b], cap)
  }

  // --- the drain, one await to the next ---

  function Post(c: Client, b: Batch): Client {
    c.(phase := InFlight(b), posted := c.posted + [b])
  }

  function DrainLoop(c: Client): Client {
    if !c.disposed && c.queue != [] then Post(c, c.queue[0]) else c.(phase := Resting)
  }

  function Kick(c: Client): Client {
    if c.phase.Resting? then DrainLoop(c) else c
  }

  // A 2xx: the queue loses its first entry, whatever that entry is by now.
  function Acked(c: Client): Client {
    var rest := if c.queue == [] then [] else c.queue[1..];
    DrainLoop(c.(queue := rest, file := rest))
  }

  function SendFailed(c: Client): Client
    requires c.phase.InFlight?
  {
    c.(phase := Sleeping(c.phase.b))
  }

  function Woken(c: Client): Client
    requires c.phase.Sleeping?
  {
    if c.disposed then c.(phase := Resting) else Post(c, c.phase.b)
  }

  // --- the public operations ---

  function Flush(c: Client, bytes: nat, cfg: Config): Client {
    if c.buf == [] then c.(timer := false)
    else
      var b := Batch(c.nextId, c.buf, bytes);
      var q := AppendWithCap(c.queue, b, cfg.cap);
      Kick(c.(buf := [], timer := false, queue := q, file := q, nextId := c.nextId + 1, sealed := c.sealed + [b]))
  }

  function Enqueue(c: Client, events: seq<Content>, bytes: nat, cfg: Config): Client {
    if c.disposed || events == [] then c
    else
      var c1 := c.(buf := c.buf + events, survivors := c.survivors + events);
      if |c1.buf| >= cfg.maxBatch then Flush(c1, bytes, cfg) else c1.(timer := true)
  }

  function Dispose(c: Client, bytes: nat, cfg: Config): Client {
    var c1 := if c.buf != [] then Flush(c, bytes, cfg) else c;
    c1.(disposed := true, timer := false)
  }

  // A crash keeps only what outlives the process; the constructor reads the file back and resends.
  function Crash(c: Client): Client {
    Client([], false, [], Resting, false, c.file, c.posted, c.nextId, c.sealed,
           c.survivors[..if |c.buf| <= |c.survivors| then |c.survivors| - |c.buf| else 0])
  }

  function Recover(c: Client): Client {
    DrainLoop(c.(queue := c.file))
  }

  // --- client, network and server together ---

  // The server's log of stored batches; `acked` is the history of batches whose 2xx arrived.
  datatype System = System(up: bool, c: Client, server: seq<Batch>, acked: seq<Batch>)

  const START := System(true, FRESH, [], [])

  datatype Event =
    | Enqueues(events: seq<Content>, bytes: nat)
    | Flushes(bytes: nat)
    | TimerFires(bytes: nat)
    | Disposes(bytes: nat)
    | Delivers(b: Batch)
    | AckArrives
    | SendFails
    | Wakes
    | Crashes
    | Restarts

  predicate HasId(log: seq<Batch>, id: nat) {
    exists i :: 0 <= i < |log| && log[i].localId == id
  }

  // A request may be delivered at any time after it was posted, any number of times; an ack needs the
  // server to hold the batch in flight, and may be lost (SendFails) at any moment.
  predicate Enabled(s: System, e: Event) {
    match e
    case TimerFires(_) => s.up && s.c.timer
    case Delivers(b) => b in s.c.posted
    case AckArrives => s.up && s.c.phase.InFlight? && HasId(s.server, s.c.phase.b.localId)
    case SendFails => s.up && s.c.phase.InFlight?
    case Wakes => s.up && s.c.phase.Sleeping?
    case Restarts => !s.up
    case _ => s.up
  }

  // The server stores a batch once per localId.
  function Store(log: seq<Batch>, b: Batch): seq<Batch> {
    if HasId(log, b.localId) then log else log + [b]
  }

  function Step(s: System, e: Event, cfg: Config): System
    requires Enabled(s, e)
  {
    match e
    case Enqueues(events, bytes) => s.(c := Enqueue(s.c, events, bytes, cfg))
    case Flushes(bytes) => s.(c := Flush(s.c, bytes, cfg))
    case TimerFires(bytes) => s.(c := Flush(s.c, bytes, cfg))
    case Disposes(bytes) => s.(c := Dispose(s.c, bytes, cfg))
    case Delivers(b) => s.(server := Store(s.server, b))
    case AckArrives => s.(c := Acked(s.c), acked := s.acked + [s.c.phase.b])
    case SendFails => s.(c := SendFailed(s.c))
    case Wakes => s.(c := Woken(s.c))
    case Crashes => s.(up := false, c := Crash(s.c))
    case Restarts => s.(up := true, c := Recover(s.c))
  }

  predicate Happens(s: System, es: seq<Event>, cfg: Config)
    decreases |es|
  {
    es == [] || (Enabled(s, es[0]) && Happens(Step(s, es[0], cfg), es[1..], cfg))
  }

  function Run(s: System, es: seq<Event>, cfg: Config): System
    requires Happens(s, es, cfg)
    decreases |es|
  {
    if es == [] then s else Run(Step(s, es[0], cfg), es[1..], cfg)
  }
}
