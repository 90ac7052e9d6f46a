// The metadata writer as the program runs it: three closure variables and a retry loop, resumed at
// each await. Every method is tied to its specification in MetadataCas.
module MetadataObject {
  import opened Wrappers
  import M = MetadataCas

  class Updater {
    var currentMetadata: M.Meta
    var currentVersion: nat
    var queue: seq<M.Patch>
    var task: M.Task

    ghost function St(): M.Writer
      reads this
    {
      M.Writer(currentMetadata, currentVersion, queue, task)
    }

    constructor (metadata: M.Meta, version: nat)
      ensures St() == M.Writer(M.Normalize(metadata), version, [], M.Idle)
    {
      currentMetadata, currentVersion, queue, task := M.Normalize(metadata), version, [], M.Idle;
    }

    method Update(p: M.Patch)
      modifies this`queue
      ensures queue == old(queue) + [p]
    {
      queue := queue + [p];
    }

    method Attempt(p: M.Patch, conflicts: nat, first: nat)
      modifies this`task
      ensures St() == M.Attempt(old(St()), p, conflicts, first)
    {
      var next := M.Apply(p, currentMetadata);
      if next.None? {
        task := M.Idle;
        return;
      }
      task := M.Waiting(M.Request(currentVersion, next.value, p), conflicts, first);
    }

    method Begin()
      requires task.Idle? && queue != []
      modifies this
      ensures St() == M.Begin(old(St()))
    {
      var p := queue[0];
      queue := queue[1..];
      Attempt(p, 0, 0);
    }

    method OnCommitted(version: nat)
      requires task.Waiting?
      modifies this
      ensures St() == M.OnReply(old(St()), M.Committed(version))
    {
      currentMetadata := task.r.value;
      currentVersion := version;
      task := M.Idle;
    }

    method OnConflict(version: nat, stored: M.Stored)
      requires task.Waiting?
      modifies this
      ensures St() == M.OnReply(old(St()), M.Conflict(version, stored))
    {
      var p, conflicts := task.r.patch, task.conflicts + 1;
      var first := if task.conflicts == 0 then version else task.first;
      currentVersion := version;
      match stored {
        case Readable(m) =>
          currentMetadata := M.Normalize(m);
        case Missing =>
        case Unreadable =>
          task := M.Idle;
          return;
      }
      Attempt(p, conflicts, first);
    }

    method OnError()
      modifies this`task
      ensures St() == M.OnFailure(old(St()))
    {
      task := M.Idle;
    }
  }
}
