// The injection controller and the busy edge as the program runs them: mutable fields and timer
// callbacks. Every method is tied to its specification in Injection or PtySession.
module InjectionObject {
  import opened Wrappers
  import opened FetchSignal
  import opened Injection
  import P = PtySession

  class InjectionController {
    var queue: seq<Message>
    var ready: bool
    var busy: bool
    var injecting: bool
    var cooldown: bool
    var promptOpen: bool
    var localDraft: bool
    var disposed: bool
    var submitTimer: Option<Message>
    var cooldownTimer: bool
    var failsafeTimer: bool
    var out: seq<Output>
    ghost var accepted: seq<Message>

    ghost function St(): Controller
      reads this
    {
      Controller(queue, ready, busy, injecting, cooldown, promptOpen, localDraft, disposed,
                 submitTimer, cooldownTimer, failsafeTimer, out, accepted)
    }

    constructor ()
      ensures St() == FRESH
    {
      queue, out, accepted := [], [], [];
      ready, busy, injecting, cooldown, promptOpen, localDraft, disposed := false, false, false, false, false,
          false, false;
      submitTimer, cooldownTimer, failsafeTimer := None, false, false;
    }

    method Flush()
      modifies this
      ensures St() == TryFlush(old(St()))
    {
      if disposed || !ready || busy || injecting || cooldown || promptOpen || localDraft || queue == [] {
        return;
      }
      var message := queue[0];
      queue := queue[1..];
      injecting := true;
      out := out + [Wrote(message.text)];
      submitTimer := Some(message);
    }

    method Take(message: Message)
      modifies this
      ensures St() == Step(old(St()), Enqueue(message))
    {
      if disposed {
        return;
      }
      queue := queue + [message];
      accepted := accepted + [message];
      Flush();
    }

    method ChangeBusy(next: bool)
      modifies this
      ensures St() == Step(old(St()), SetBusy(next))
    {
      if disposed || busy == next {
        return;
      }
      busy := next;
      if !next {
        Flush();
      }
    }

    method BecomeReady()
      modifies this
      ensures St() == Step(old(St()), MarkReady)
    {
      if disposed || ready {
        return;
      }
      ready := true;
      Flush();
    }

    method ChangePromptOpen(open: bool)
      modifies this
      ensures St() == PromptGate(old(St()), open)
    {
      if disposed || promptOpen == open {
        return;
      }
      promptOpen := open;
      if open {
        failsafeTimer := true;
      } else {
        failsafeTimer := false;
        Flush();
      }
    }

    method ChangeLocalDraft(active: bool)
      modifies this
      ensures St() == Step(old(St()), SetLocalDraft(active))
    {
      if disposed || localDraft == active {
        return;
      }
      localDraft := active;
      if !active {
        Flush();
      }
    }

    method Close() returns (dropped: seq<Message>)
      modifies this
      ensures St() == DisposeNow(old(St()))
      ensures dropped == if old(disposed) then [] else old(queue)
    {
      if disposed {
        return [];
      }
      disposed := true;
      cooldownTimer, failsafeTimer := false, false;
      dropped := queue;
      queue := [];
      if dropped != [] {
        out := out + [Dropped(dropped)];
      }
    }

    method OnSubmitTimer()
      requires submitTimer.Some?
      modifies this
      ensures St() == Submit(old(St()))
    {
      var message := submitTimer.value;
      submitTimer := None;
      if disposed {
        out := out + [Dropped([message])];
        return;
      }
      out := out + [Submitted];
      injecting := false;
      out := out + [Injected(message.id)];
      assert out == old(out) + [Submitted, Injected(message.id)];
      cooldown := true;
      cooldownTimer := true;
    }

    method OnCooldownTimer()
      requires cooldownTimer
      modifies this
      ensures St() == Step(old(St()), CooldownFires)
    {
      cooldownTimer := false;
      if disposed {
        return;
      }
      cooldown := false;
      Flush();
    }

    method OnFailsafeTimer()
      requires failsafeTimer
      modifies this
      ensures St() == Step(old(St()), FailsafeFires)
    {
      failsafeTimer := false;
      ChangePromptOpen(false);
    }
  }

  class BusySignal {
    const controller: InjectionController
    var activeFetches: set<int>
    var idleTimer: bool

    ghost function St(): P.Session
      reads this, controller
    {
      P.Session(activeFetches, idleTimer, controller.St())
    }

    constructor (c: InjectionController)
      ensures controller == c && St() == P.Session({}, false, c.St())
    {
      controller := c;
      activeFetches, idleTimer := {}, false;
    }

    method OnFetchEvent(event: FetchEvent)
      modifies this, controller
      ensures St() == P.OnFetch(old(St()), event)
    {
      match event {
        case FetchStart(id) =>
          activeFetches := activeFetches + {id};
          idleTimer := false;
          controller.ChangeBusy(true);
        case FetchEnd(id) =>
          activeFetches := activeFetches - {id};
          if activeFetches == {} && !idleTimer {
            idleTimer := true;
          }
      }
    }

    method OnIdleTimer()
      requires idleTimer
      modifies this, controller
      ensures St() == P.OnIdle(old(St()))
    {
      idleTimer := false;
      if activeFetches == {} {
        controller.ChangeBusy(false);
      }
    }
  }
}
