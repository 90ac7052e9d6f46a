// The scanner as the program runs it: closure variables updated by loops and callbacks, resumed at
// each await. Every method is tied to its specification in Scanner.
module ScannerObject {
  import opened Wrappers
  import opened Scanner

  // Sessions of xs that are neither dead nor collected already.
  method CollectLiving(xs: seq<Sid>, dead: set<Sid>, known: seq<Sid>) returns (r: seq<Sid>)
    ensures r == Living(xs, dead, known)
  {
    r := [];
    var i := 0;
    while i < |xs|
      invariant i <= |xs| && r + Living(xs[i..], dead, known) == Living(xs, dead, known)
    {
      var keep := if xs[i] in dead || xs[i] in known then [] else [xs[i]];
      assert xs[i..][1..] == xs[i + 1..];
      Reassociate(r, keep, Living(xs[i + 1..], dead, known));
      r := r + keep;
      i := i + 1;
    }
    assert xs[i..] == [] && r + [] == r;
  }

  class SessionScanner {
    var processedEntryKeys: set<Key>
    var emitted: seq<Emission>
    var pendingSessions: seq<Sid>
    var currentSessionId: Option<Sid>
    var watchers: seq<Sid>
    var deadSessions: set<Sid>
    var finishedSessions: set<Sid>
    var running: bool
    var rerunRequested: bool
    var stopped: bool
    var open: bool
    var cleaning: bool
    var passes: seq<Pass>
    var chain: nat
    var awaits: nat
    var flushes: seq<Flush>
    var marks: seq<Mark>
    // The transcript files, written by others.
    var disk: map<Sid, seq<Key>>
    ghost var premarked: set<Key>

    ghost function St(): State
      reads this
    {
      State(Books(disk, processedEntryKeys, emitted, premarked), pendingSessions, currentSessionId, watchers,
                      deadSessions, finishedSessions, running, rerunRequested, stopped, open, cleaning,
                      passes, chain, awaits, flushes, marks)
    }

    // The loop over one session's entries.
    method EmitEntries(sid: Sid, keys: seq<Key>)
      modifies this`processedEntryKeys, this`emitted
      ensures St() == old(St()).(b := EmitFrom(old(St()).b, sid, keys, 0))
    {
      var pos := 0;
      while pos < |keys|
        invariant pos <= |keys| && EmitFrom(St().b, sid, keys, pos) == EmitFrom(old(St()).b, sid, keys, 0)
        invariant St() == old(St()).(b := St().b)
      {
        if keys[pos] !in processedEntryKeys {
          processedEntryKeys := processedEntryKeys + {keys[pos]};
          emitted := emitted + [Emission(sid, pos, keys[pos])];
        }
        pos := pos + 1;
      }
    }

    method CollectSessions() returns (sessions: seq<Sid>)
      ensures sessions == Collect(St())
    {
      sessions := CollectLiving(pendingSessions, deadSessions, []);
      if currentSessionId.Some? && currentSessionId.value !in pendingSessions &&
          currentSessionId.value !in deadSessions {
        sessions := sessions + [currentSessionId.value];
      }
      var watched := CollectLiving(watchers, deadSessions, sessions);
      sessions := sessions + watched;
    }

    // runSync, up to its first await.
    method BeginSync(owner: Owner, promise: nat)
      modifies this`passes
      ensures St() == StartPass(old(St()), owner, promise)
    {
      var sessions := CollectSessions();
      passes := passes + [Pass(sessions, 0, LowAt(disk, sessions, 0), false, owner, promise)];
    }

    method BeginChain(owner: Owner)
      modifies this
      ensures St() == StartChain(old(St()), owner)
    {
      running := true;
      chain := chain + 1;
      if !stopped {
        BeginSync(owner, chain);
      }
    }

    method OnRead(i: nat, n: nat)
      requires i < |passes| && passes[i].at < |passes[i].sessions|
      requires n <= |File(disk, passes[i].sessions[passes[i].at])|
      modifies this
      ensures St() == ReadReturns(old(St()), i, n)
    {
      var p := passes[i];
      EmitEntries(p.sessions[p.at], File(disk, p.sessions[p.at])[..n]);
      passes := passes[i := p.(at := p.at + 1, low := LowAt(disk, p.sessions, p.at + 1))];
    }

    method FinishPending(sessions: seq<Sid>)
      modifies this`pendingSessions, this`finishedSessions
      ensures St() == Finish(old(St()), sessions)
    {
      var i := 0;
      assert sessions[0..] == sessions;
      while i < |sessions|
        invariant i <= |sessions| && Finish(St(), sessions[i..]) == Finish(old(St()), sessions)
      {
        assert sessions[i..][1..] == sessions[i + 1..];
        if sessions[i] in pendingSessions {
          pendingSessions := Without(pendingSessions, sessions[i]);
          finishedSessions := finishedSessions + {sessions[i]};
        }
        i := i + 1;
      }
    }

    method StartWatchers(sessions: seq<Sid>)
      modifies this`watchers
      ensures St() == Watch(old(St()), sessions)
    {
      var i := 0;
      assert sessions[0..] == sessions;
      while i < |sessions|
        invariant i <= |sessions| && Watch(St(), sessions[i..]) == Watch(old(St()), sessions)
      {
        assert sessions[i..][1..] == sessions[i + 1..];
        if sessions[i] !in watchers && sessions[i] !in deadSessions {
          watchers := watchers + [sessions[i]];
        }
        i := i + 1;
      }
    }

    method Remove(i: nat)
      requires i < |passes|
      modifies this`passes
      ensures St() == Drop(old(St()), i)
    {
      passes := passes[..i] + passes[i + 1..];
    }

    // runSync, after its last read.
    method OnSyncEnds(i: nat)
      requires i < |passes|
      modifies this
      ensures St() == EndPass(old(St()), i)
    {
      var p := passes[i];
      FinishPending(p.sessions);
      StartWatchers(p.sessions);
      match p.owner {
        case Opening =>
          Remove(i);
          open := true;
        case Closing =>
          Remove(i);
          watchers := [];
        case _ =>
          passes := passes[i := p.(booked := true)];
      }
    }

    // The rest of runSyncCoalesced.
    method OnCoalescedEnds(i: nat)
      requires i < |passes|
      modifies this
      ensures St() == Settles(old(St()), i)
    {
      var p := passes[i];
      Remove(i);
      if rerunRequested && !stopped {
        rerunRequested := false;
        BeginSync(p.owner, p.chain);
        return;
      }
      running := false;
      if p.owner.Flusher? && p.owner.f < |flushes| {
        flushes := flushes[p.owner.f := Returned(flushes[p.owner.f].need, !stopped)];
      }
    }

    method DoInvalidate()
      modifies this
      ensures St() == Invalidate(old(St()))
    {
      if stopped {
        return;
      }
      if running {
        rerunRequested := true;
        return;
      }
      BeginChain(Background);
    }

    // One turn of flush's waiting loop, or the pass it starts when nothing runs.
    method ResumeFlush(f: nat)
      requires f < |flushes|
      modifies this
      ensures St() == TryFlush(old(St()), f)
    {
      if running {
        rerunRequested := true;
        return;
      }
      flushes := flushes[f := if stopped then Returned(flushes[f].need, false) else Running(flushes[f].need)];
      BeginChain(Flusher(f));
    }

    method AdoptSession(sid: Sid)
      modifies this
      ensures St() == Adopt(old(St()), sid)
    {
      if currentSessionId.Some? && currentSessionId.value !in pendingSessions {
        pendingSessions := pendingSessions + [currentSessionId.value];
      }
      currentSessionId := Some(sid);
      DoInvalidate();
    }

    method AnnounceNewSession(sid: Sid, known: bool, hook: bool)
      modifies this
      ensures St() == Announce(old(St()), sid, known, hook)
    {
      if currentSessionId == Some(sid) {
        return;
      }
      if hook {
        deadSessions := deadSessions - {sid};
      }
      if sid in finishedSessions || sid in pendingSessions {
        return;
      }
      if known {
        marks := marks + [Mark(sid, |File(disk, sid)|)];
        return;
      }
      AdoptSession(sid);
    }

    method MarkAsKnown(keys: set<Key>)
      modifies this`processedEntryKeys, this`premarked
      ensures St() == old(St()).(b := MarkKnown(old(St()).b, keys))
    {
      premarked := premarked + (keys - processedEntryKeys);
      processedEntryKeys := processedEntryKeys + keys;
    }

    method OnMarkRead(m: nat, n: nat)
      requires m < |marks| && n <= |File(disk, marks[m].sid)|
      modifies this
      ensures St() == Marked(old(St()), m, n)
    {
      var sid := marks[m].sid;
      MarkAsKnown(KeySet(File(disk, sid)[..n]));
      marks := marks[..m] + marks[m + 1..];
      AdoptSession(sid);
    }

    method OnGaveUp(sid: Sid)
      modifies this`watchers, this`deadSessions, this`pendingSessions, this`flushes
      ensures St() == GaveUp(old(St()), sid)
    {
      watchers := Without(watchers, sid);
      deadSessions := deadSessions + {sid};
      pendingSessions := Without(pendingSessions, sid);
      flushes := Forgiven(flushes, sid);
    }
  }
}
