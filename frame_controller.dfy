// The animation-frame loop: an active flag, the ticks scheduled with the
// browser, and the order in which a tick schedules the next one and runs
// the callback.
module Frames {

  /** What one tick does, in order. */
  datatype FrameEvent = Scheduled | Called

  /** `k` ticks' worth of events: each tick schedules its successor, then runs the callback. */
  function Ticks(k: nat): (es: seq<FrameEvent>)
    ensures |es| == 2 * k
    ensures forall i :: 0 <= i < k ==> es[2 * i] == Scheduled && es[2 * i + 1] == Called
  {
    if k == 0 then [] else Ticks(k - 1) + [Scheduled, Called]
  }

  /** The number of callback runs in a sequence of events. */
  function Calls(es: seq<FrameEvent>): nat
  {
    if es == [] then 0 else Calls(es[..|es| - 1]) + (if es[|es| - 1] == Called then 1 else 0)
  }

  lemma {:induction false} CallsAppend(a: seq<FrameEvent>, b: seq<FrameEvent>)
    ensures Calls(a + b) == Calls(a) + Calls(b)
    decreases |b|
  {
    if b == [] {
      assert a + b == a;
    } else {
      assert (a + b)[..|a + b| - 1] == a + b[..|b| - 1];
      CallsAppend(a, b[..|b| - 1]);
    }
  }

  /** `k` ticks run the callback exactly `k` times. */
  lemma {:induction false} TicksCalls(k: nat)
    ensures Calls(Ticks(k)) == k
  {
    if k > 0 {
      TicksCalls(k - 1);
      CallsAppend(Ticks(k - 1), [Scheduled, Called]);
      assert [Scheduled, Called][..1] == [Scheduled];
      assert [Scheduled][..0] == [];
    }
  }

  class FrameController {
    var active: bool
    /** Ticks requested with `requestAnimationFrame` that have not fired yet. */
    var pending: nat
    /** Everything the controller has done, in order. */
    var events: seq<FrameEvent>

    /** A new controller is inactive and has nothing scheduled. */
    constructor()
      ensures !active && pending == 0 && events == []
    {
      active := false;
      pending := 0;
      events := [];
    }

    function IsActive(): bool
      reads this
    {
      active
    }

    /** `_loop()`: while active, schedule the next tick, then run the callback; otherwise nothing. */
    method Loop()
      modifies this
      ensures active == old(active)
      ensures active ==> pending == old(pending) + 1 && events == old(events) + Ticks(1)
      ensures !active ==> pending == old(pending) && events == old(events)
    {
      if active {
        pending := pending + 1;
        events := events + [Scheduled];
        events := events + [Called];
      }
    }

    /**
     * `start()`: no guard against being active already; each call starts
     * one more chain of ticks.
     */
    method Start()
      modifies this
      ensures active && pending == old(pending) + 1
      ensures events == old(events) + Ticks(1)
    {
      active := true;
      Loop();
    }

    /** `pause()`: clears the flag only; ticks already scheduled still fire. */
    method Pause()
      modifies this
      ensures !active && pending == old(pending) && events == old(events)
    {
      active := false;
    }

    /**
     * The browser's next animation frame: every scheduled tick fires once.
     * While active each one reschedules and runs the callback, so `n` chains
     * run the callback `n` times per frame; after a pause they end.
     */
    method NextFrame()
      modifies this
      ensures active == old(active)
      ensures active ==> pending == old(pending) && events == old(events) + Ticks(old(pending))
      ensures !active ==> pending == 0 && events == old(events)
    {
      var k := pending;
      var i := 0;
      while i < k
        invariant 0 <= i <= k && active == old(active)
        invariant active ==> pending == k && events == old(events) + Ticks(i)
        invariant !active ==> pending == k - i && events == old(events)
      {
        pending := pending - 1;
        Loop();
        i := i + 1;
      }
    }
  }
}
