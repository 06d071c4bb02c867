/** Runs of the state machine over sequences of hardware events. A button
    edge latches the button's pending bit and runs the edge handler; a timer
    time-out latches the timer's flag and runs the timer handler. Each handler
    run is one atomic step. */
module Events {
  import opened Patterns
  import opened Debounce

  datatype Event = ButtonEdge | TimerExpiry

  /** The edge handler will accept this event: both handles are present and
      the gate is armed. */
  predicate Accepts(s: State, e: Event) {
    e == ButtonEdge && s.hasButton && s.hasTimer && s.armed
  }

  /** One event: the hardware raises the flag, then the handler runs. */
  function Deliver(s: State, e: Event): (r: State)
    ensures r.hasButton == s.hasButton && r.hasTimer == s.hasTimer
    ensures r.pattern == if Accepts(s, e) then Succ(s.pattern) else s.pattern
    // the gate closes only on an accepted edge, and opens only on a time-out
    ensures s.armed && !r.armed <==> Accepts(s, e)
    ensures !s.armed && r.armed ==> e == TimerExpiry && s.hasTimer
    ensures e == TimerExpiry && s.hasTimer ==> r.armed
    // with a slot empty the pending bit stays set, so the interrupt fires again
    ensures e == ButtonEdge ==> (r.buttonPending <==> !(s.hasButton && s.hasTimer))
    ensures Consistent(s) ==> Consistent(r)
  {
    match e
    case ButtonEdge => Exti0Step(s.(buttonPending := true))
    case TimerExpiry => Tim2Step(s.(timerPending := true))
  }

  function Run(s: State, events: seq<Event>): (r: State)
    decreases |events|
  {
    if events == [] then s else Run(Deliver(s, events[0]), events[1..])
  }

  /** How many events of the run the edge handler accepts. */
  function Accepted(s: State, events: seq<Event>): (count: nat)
    decreases |events|
  {
    if events == [] then 0
    else (if Accepts(s, events[0]) then 1 else 0) + Accepted(Deliver(s, events[0]), events[1..])
  }

  /** n (edge, time-out) pairs, as used by the round-trip property. */
  function Pairs(n: nat): (evs: seq<Event>)
    ensures |evs| == 2 * n
  {
    if n == 0 then [] else [ButtonEdge, TimerExpiry] + Pairs(n - 1)
  }

  lemma {:induction false} RunAppend(s: State, a: seq<Event>, b: seq<Event>)
    ensures Run(s, a + b) == Run(Run(s, a), b)
    decreases |a|
  {
    if a != [] {
      assert (a + b)[0] == a[0];
      assert (a + b)[1..] == a[1..] + b;
      RunAppend(Deliver(s, a[0]), a[1..], b);
    } else {
      assert a + b == b;
    }
  }

  /** Whatever the events, the selected pattern has moved forward exactly once
      per accepted edge; the handle slots are never emptied or filled by a
      handler. */
  lemma {:induction false} RunPattern(s: State, events: seq<Event>)
    ensures Run(s, events).pattern == Iterate(s.pattern, Accepted(s, events))
    ensures Run(s, events).hasButton == s.hasButton
    ensures Run(s, events).hasTimer == s.hasTimer
    decreases |events|
  {
    if events != [] {
      RunPattern(Deliver(s, events[0]), events[1..]);
    }
  }

  /** Every reachable state keeps the timer listening exactly while the gate
      is closed. */
  lemma {:induction false} RunConsistent(s: State, events: seq<Event>)
    requires Consistent(s)
    ensures Consistent(Run(s, events))
    decreases |events|
  {
    if events != [] {
      RunConsistent(Deliver(s, events[0]), events[1..]);
    }
  }

  /** Edges with no time-out between them advance the pattern at most once:
      exactly once when the gate is armed and both handles are present, and
      not at all otherwise. */
  lemma {:induction false} EdgesAdvanceAtMostOnce(s: State, events: seq<Event>)
    requires forall i :: 0 <= i < |events| ==> events[i] == ButtonEdge
    ensures Accepted(s, events) == if events != [] && s.hasButton && s.hasTimer && s.armed then 1 else 0
    ensures Accepted(s, events) <= 1
    ensures Run(s, events).pattern == if Accepted(s, events) == 1 then Succ(s.pattern) else s.pattern
    decreases |events|
  {
    if events != [] {
      var t := Deliver(s, events[0]);
      assert !t.armed || !(t.hasButton && t.hasTimer);
      EdgesAdvanceAtMostOnce(t, events[1..]);
    }
    RunPattern(s, events);
  }

  /** n (edge, time-out) pairs from an armed state with both handles advance
      the pattern n steps and leave the gate armed again. */
  lemma {:induction false} RunPairs(s: State, n: nat)
    requires s.hasButton && s.hasTimer && s.armed
    ensures Run(s, Pairs(n)).pattern == Iterate(s.pattern, n)
    ensures Run(s, Pairs(n)).armed
    ensures Run(s, Pairs(n)).hasButton && Run(s, Pairs(n)).hasTimer
    decreases n
  {
    if n > 0 {
      var t := Run(s, [ButtonEdge, TimerExpiry]);
      assert t.pattern == Succ(s.pattern) && t.armed && t.hasButton && t.hasTimer;
      RunAppend(s, [ButtonEdge, TimerExpiry], Pairs(n - 1));
      RunPairs(t, n - 1);
    }
  }

  /** Five accepted presses, each followed by its time-out, bring the
      selection back to where it started, with the gate armed. */
  lemma FivePairsReturn(s: State)
    requires s.hasButton && s.hasTimer && s.armed
    ensures Run(s, Pairs(5)).pattern == s.pattern
    ensures Run(s, Pairs(5)).armed
  {
    RunPairs(s, 5);
    SuccPeriodFive(s.pattern);
  }

  /** The power-up state once startup has stored both handles. */
  function Started(): (s: State)
    ensures s.pattern == Hammer && s.armed && Consistent(s)
    ensures s.hasButton && s.hasTimer
  {
    Initial().(hasButton := true, hasTimer := true)
  }

  /** An edge that arrives before the handles are stored (the interrupts are
      unmasked first) changes nothing but leaves the pending bit raised. */
  lemma EarlyEdgeIgnored()
    ensures Run(Initial(), [ButtonEdge]) == Initial().(buttonPending := true)
  {
  }

  /** Edge, time-out, edge from power-up: Hammer, then Circle disarmed,
      Circle re-armed, Zigzag disarmed. */
  lemma ScenarioPressExpiryPress()
    ensures Run(Started(), [ButtonEdge]).pattern == Circle
    ensures !Run(Started(), [ButtonEdge]).armed
    ensures Run(Started(), [ButtonEdge, TimerExpiry]).pattern == Circle
    ensures Run(Started(), [ButtonEdge, TimerExpiry]).armed
    ensures Run(Started(), [ButtonEdge, TimerExpiry, ButtonEdge]).pattern == Zigzag
    ensures !Run(Started(), [ButtonEdge, TimerExpiry, ButtonEdge]).armed
  {
    RunAppend(Started(), [ButtonEdge, TimerExpiry], [ButtonEdge]);
  }

  /** Five (edge, time-out) pairs from power-up come back to Hammer. */
  lemma ScenarioFivePairsFromHammer()
    ensures Run(Started(), Pairs(5)).pattern == Hammer
    ensures Run(Started(), Pairs(5)).armed
  {
    FivePairsReturn(Started());
  }

  /** Two edges with no time-out from Cross, armed: only the first counts. */
  lemma ScenarioDoubleEdgeFromCross(s: State)
    requires s.pattern == Cross && s.armed && s.hasButton && s.hasTimer
    ensures Run(s, [ButtonEdge, ButtonEdge]).pattern == Hammer
    ensures !Run(s, [ButtonEdge, ButtonEdge]).armed
  {
    EdgesAdvanceAtMostOnce(s, [ButtonEdge, ButtonEdge]);
  }
}
