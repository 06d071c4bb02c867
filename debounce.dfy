/** The shared state of the two interrupt handlers: the selected pattern,
    the debounce gate, the two hardware handle slots and the hardware flags
    the handlers touch through those handles. */
module Debounce {
  import opened Patterns

  /** One snapshot of the shared state.
      armed          -- the debounce gate (G_TIM2_EXPIRED)
      timerListening -- whether the timer's time-out interrupt is enabled
      buttonPending  -- the button line's interrupt-pending bit
      timerPending   -- the timer's time-out flag
      hasButton, hasTimer -- whether each handle slot holds its handle */
  datatype State = State(
    pattern: LedPattern,
    armed: bool,
    timerListening: bool,
    buttonPending: bool,
    timerPending: bool,
    hasButton: bool,
    hasTimer: bool)

  /** The state as the statics declare it, before startup stores the handles. */
  function Initial(): (s: State)
    ensures s.pattern == Hammer && s.armed
    ensures !s.hasButton && !s.hasTimer
  {
    State(Hammer, true, false, false, false, false, false)
  }

  /** The timer interrupt is enabled exactly while the gate is disarmed, so a
      closed gate always has a pending re-arm. */
  predicate Consistent(s: State) {
    s.armed != s.timerListening
  }

  /** What one run of the button-edge handler does to the state. */
  function Exti0Step(s: State): (r: State)
    ensures r.hasButton == s.hasButton && r.hasTimer == s.hasTimer
    ensures r.timerPending == s.timerPending
    ensures !(s.hasButton && s.hasTimer) ==> r == s
    ensures s.hasButton && s.hasTimer ==> !r.buttonPending
    // armed: one step forward, gate closed, timer listening
    ensures s.hasButton && s.hasTimer && s.armed ==>
      r.pattern == Succ(s.pattern) && !r.armed && r.timerListening
    // gate closed: only the pending bit is cleared
    ensures s.hasButton && s.hasTimer && !s.armed ==> r == s.(buttonPending := false)
    ensures r.pattern == s.pattern || r.pattern == Succ(s.pattern)
    ensures r.pattern != s.pattern <==> s.armed && !r.armed
    ensures r.armed ==> s.armed
    ensures Consistent(s) ==> Consistent(r)
  {
    if s.hasButton && s.hasTimer then
      var cleared := s.(buttonPending := false);
      if s.armed then
        cleared.(armed := false, pattern := Succ(s.pattern), timerListening := true)
      else
        cleared
    else
      s
  }

  /** What one run of the timer handler does to the state. */
  function Tim2Step(s: State): (r: State)
    ensures r.pattern == s.pattern
    ensures r.hasButton == s.hasButton && r.hasTimer == s.hasTimer
    ensures r.buttonPending == s.buttonPending
    ensures r.armed <==> s.armed || s.hasTimer
    ensures !s.hasTimer ==> r == s
    ensures s.hasTimer ==> Consistent(r) && !r.timerPending
    ensures Consistent(s) ==> Consistent(r)
  {
    if s.hasTimer then
      s.(timerPending := false, timerListening := false, armed := true)
    else
      s
  }

  /** The process-wide cells of the firmware, updated in place by the handlers. */
  class Debouncer {
    var pattern: LedPattern
    var armed: bool
    var timerListening: bool
    var buttonPending: bool
    var timerPending: bool
    var hasButton: bool
    var hasTimer: bool

    function Snapshot(): State
      reads this
    {
      State(pattern, armed, timerListening, buttonPending, timerPending, hasButton, hasTimer)
    }

    /** The invariant every handler call preserves: the timer listens exactly
        while the gate is closed, so a closed gate is always re-armed by the
        next time-out. */
    ghost predicate Valid()
      reads this
    {
      Consistent(Snapshot())
    }

    /** The statics at power-up: Hammer selected, gate armed, both handle
        slots empty, no flag raised and the timer not listening. */
    constructor ()
      ensures Snapshot() == Initial()
      ensures Valid()
    {
      pattern := Hammer;
      armed := true;
      timerListening := false;
      buttonPending := false;
      timerPending := false;
      hasButton := false;
      hasTimer := false;
    }

    /** Startup stores the button and the timer in their slots. */
    method InstallHandles()
      modifies this
      ensures Snapshot() == old(Snapshot()).(hasButton := true, hasTimer := true)
      ensures old(Valid()) ==> Valid()
    {
      hasButton := true;
      hasTimer := true;
    }

    /** The button-edge interrupt handler. */
    method Exti0()
      modifies this
      ensures Snapshot() == Exti0Step(old(Snapshot()))
      ensures old(Valid()) ==> Valid()
      // a slot is empty: nothing changes, not even the pending bit
      ensures !(old(hasButton) && old(hasTimer)) ==> Snapshot() == old(Snapshot())
      // gate armed: one step forward, gate closed, timer listening, bit cleared
      ensures old(hasButton) && old(hasTimer) && old(armed) ==>
        Snapshot() == old(Snapshot()).(pattern := Succ(old(pattern)), armed := false,
                                       timerListening := true, buttonPending := false)
      // gate closed: only the pending bit is cleared
      ensures old(hasButton) && old(hasTimer) && !old(armed) ==>
        Snapshot() == old(Snapshot()).(buttonPending := false)
    {
      if hasButton && hasTimer {
        buttonPending := false;
        if armed {
          armed := false;
          pattern := Succ(pattern);
          timerListening := true;
        }
      }
    }

    /** The timer time-out interrupt handler. */
    method Tim2()
      modifies this
      ensures Snapshot() == Tim2Step(old(Snapshot()))
      ensures old(hasTimer) ==> Valid()
      ensures old(Valid()) ==> Valid()
      // under the invariant, a time-out while nothing listens finds the gate
      // already armed and changes neither the gate nor the pattern
      ensures old(Valid()) && !old(timerListening) ==> armed == old(armed) && pattern == old(pattern)
      // timer slot filled: flag cleared, listening off, gate re-armed, pattern kept
      ensures old(hasTimer) ==>
        Snapshot() == old(Snapshot()).(timerPending := false, timerListening := false, armed := true)
      // timer slot empty: nothing changes
      ensures !old(hasTimer) ==> Snapshot() == old(Snapshot())
    {
      if hasTimer {
        timerPending := false;
        timerListening := false;
        armed := true;
      }
    }
  }
}
