// The outbox as the program runs it: mutable fields, a drain resumed at each await, and the cap
// loop. Every method is tied to its specification in Outbox.
module OutboxObject {
  import O = Outbox
  import D = OutboxDelivery

  method AppendWithCap(entries: seq<O.Batch>, entry: O.Batch, maxBytes: nat) returns (updated: seq<O.Batch>)
    ensures updated == O.AppendWithCap(entries, entry, maxBytes)
    ensures updated != [] && updated[|updated| - 1] == entry
  {
    updated := entries + [entry];
    var total := Sum(updated);
    while total > maxBytes && |updated| > 1
      invariant total == O.Total(updated) && O.Trim(updated, maxBytes) == O.AppendWithCap(entries, entry, maxBytes)
      invariant updated != [] && updated[|updated| - 1] == entry
    {
      total := total - updated[0].bytes;
      updated := updated[1..];
    }
  }

  method Sum(batches: seq<O.Batch>) returns (total: nat)
    ensures total == O.Total(batches)
  {
    total := 0;
    var i := 0;
    while i < |batches|
      invariant i <= |batches| && total + O.Total(batches[i..]) == O.Total(batches)
    {
      assert batches[i..][1..] == batches[i + 1..];
      total := total + batches[i].bytes;
      i := i + 1;
    }
  }

  class Outbox {
    const maxBatchSize: nat
    const maxQueueBytes: nat
    var buf: seq<O.Content>
    var timer: bool
    var queue: seq<O.Batch>
    // `draining` in the program, with the batch the drain is sending.
    var phase: O.Phase
    var disposed: bool
    // Outside the process: the queue file, the requests posted, and the id supply.
    var file: seq<O.Batch>
    var posted: seq<O.Batch>
    var nextId: nat
    ghost var sealed: seq<O.Batch>
    ghost var survivors: seq<O.Content>

    ghost function St(): O.Client
      reads this
    {
      O.Client(buf, timer, queue, phase, disposed, file, posted, nextId, sealed, survivors)
    }

    function Cfg(): O.Config {
      O.Config(maxBatchSize, maxQueueBytes)
    }

    // A new process on what an earlier one left behind.
    constructor (cfg: O.Config, found: seq<O.Batch>, sent: seq<O.Batch>, next: nat,
                 ghost history: seq<O.Batch>, ghost kept: seq<O.Content>)
      ensures Cfg() == cfg
      ensures St() == O.Recover(O.Client([], false, [], O.Resting, false, found, sent, next, history, kept))
    {
      maxBatchSize, maxQueueBytes := cfg.maxBatch, cfg.cap;
      buf, timer, phase, disposed := [], false, O.Resting, false;
      queue, file, posted, nextId, sealed, survivors := found, found, sent, next, history, kept;
      new;
      if queue != [] {
        Drain();
      }
    }

    method Post(b: O.Batch)
      modifies this
      ensures St() == O.Post(old(St()), b)
    {
      phase := O.InFlight(b);
      posted := posted + [b];
    }

    // The drain's loop, from its head to the next await.
    method DrainLoop()
      modifies this
      ensures St() == O.DrainLoop(old(St()))
    {
      if !disposed && queue != [] {
        Post(queue[0]);
      } else {
        phase := O.Resting;
      }
    }

    method Drain()
      modifies this
      ensures St() == O.Kick(old(St()))
    {
      if phase.Resting? {
        DrainLoop();
      }
    }

    method Persist(entries: seq<O.Batch>)
      modifies this
      ensures St() == old(St()).(queue := entries, file := entries)
    {
      queue := entries;
      file := entries;
    }

    method Flush(bytes: nat)
      modifies this
      ensures St() == O.Flush(old(St()), bytes, Cfg())
    {
      timer := false;
      if buf == [] {
        return;
      }
      var batch := O.Batch(nextId, buf, bytes);
      buf := [];
      nextId := nextId + 1;
      sealed := sealed + [batch];
      var entries := AppendWithCap(queue, batch, maxQueueBytes);
      Persist(entries);
      Drain();
    }

    method Enqueue(events: seq<O.Content>, bytes: nat)
      modifies this
      ensures St() == O.Enqueue(old(St()), events, bytes, Cfg())
    {
      if disposed || events == [] {
        return;
      }
      buf := buf + events;
      survivors := survivors + events;
      if |buf| >= maxBatchSize {
        Flush(bytes);
        return;
      }
      timer := true;
    }

    method Dispose(bytes: nat)
      modifies this
      ensures St() == O.Dispose(old(St()), bytes, Cfg())
    {
      if buf != [] {
        Flush(bytes);
      }
      disposed := true;
      timer := false;
    }

    // The drain resumes with a 2xx.
    method OnAck()
      requires phase.InFlight?
      modifies this
      ensures St() == O.Acked(old(St()))
    {
      Persist(if queue == [] then [] else queue[1..]);
      DrainLoop();
    }

    // A non-2xx or a thrown error: back off.
    method OnFailure()
      requires phase.InFlight?
      modifies this
      ensures St() == O.SendFailed(old(St()))
    {
      phase := O.Sleeping(phase.b);
    }

    method OnBackoffOver()
      requires phase.Sleeping?
      modifies this
      ensures St() == O.Woken(old(St()))
    {
      if disposed {
        phase := O.Resting;
        return;
      }
      Post(phase.b);
    }
  }
}
