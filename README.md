# LED pattern selector with a debounced button

A model of the interrupt-driven pattern selector of an STM32F407 discovery
board firmware. Four LEDs blink one of five fixed patterns (Hammer, Circle,
Zigzag, CrissCross, Cross). A rising edge on the user button runs the `EXTI0`
handler, which steps the selected pattern to the next one in a fixed circular
order. It does so only while the debounce gate `G_TIM2_EXPIRED` is armed; a
step closes the gate and makes the timer listen for its time-out. The `TIM2`
handler then clears the time-out flag, stops listening and re-arms the gate.

The model has three modules:

- `Patterns` (`patterns.dfy`): the `LedPattern` enum and its successor
  `Succ`. `Index` gives each pattern its position in the listed order; it is
  the reference against which `Succ` and its iterate `Iterate` are proved to
  form a permutation of period exactly five.
- `Debounce` (`debounce.dfy`): the shared state. The statics and the
  hardware flags the handlers touch are the fields of the class `Debouncer`.
  Its methods `Exti0` and `Tim2` are the two handlers, and each call is one
  atomic step. The pure functions `Exti0Step` and `Tim2Step` on the value
  type `State` specify them. `Consistent` is the invariant that the timer
  listens exactly while the gate is closed.
- `Events` (`events.dfy`): runs over sequences of hardware events. A
  `ButtonEdge` raises the button's pending bit and runs the edge handler. A
  `TimerExpiry` raises the timer's time-out flag and runs the timer handler.
  The lemmas here cover the debounce guarantee and the end-to-end scenarios.

The two handle slots (`Mutex<RefCell<Option<…>>>`) are the booleans
`hasButton` and `hasTimer`. The statics start with both slots empty, and
`InstallHandles` is the startup step that fills them (src/main.rs:51-54).
Startup unmasks the interrupts before it stores the handles
(src/main.rs:47-54), so the empty-slot branches are real branches here.

## Model

| member | source | states |
|---|---|---|
| `Patterns.Index` | src/led_pattern.rs:17-23 | each of the five patterns has a position below five in the declared order |
| `Patterns.Succ` | src/led_pattern.rs:127-133 | the next pattern is one position further in the declared order, modulo five (so Cross goes to Hammer), and is never the same pattern |
| `Patterns.IterateIndex` | src/led_pattern.rs:127-133 | n successor steps move a pattern n positions forward, modulo five |
| `Patterns.SuccPeriodFive` | src/led_pattern.rs:127-133 | five successor steps return every pattern to itself, and one to four steps never do |
| `Patterns.SuccBijective` | src/led_pattern.rs:127-133 | four further steps undo one step in both orders, so the successor is a permutation of the five patterns |
| `Debounce.Initial` | src/led_pattern.rs:112-115 | at power-up Hammer is selected, the gate is armed and both handle slots are empty |
| `Debounce.Exti0Step` | src/led_pattern.rs:117-139 | the edge handler changes nothing with a slot empty; with both handles and the gate armed it advances the pattern one step, closes the gate, starts the timer listening and clears the pending bit; with the gate closed it only clears the pending bit; it never opens the gate, never touches the slots or the timer flag, and keeps the listening-iff-closed invariant |
| `Debounce.Tim2Step` | src/led_pattern.rs:140-150 | the timer handler never changes the pattern; with the timer slot filled it clears the time-out flag, stops listening and arms the gate; with it empty nothing changes |
| `Debounce.Debouncer.constructor` | src/led_pattern.rs:112-115 | the cells start as Hammer, armed, slots empty, no flag raised, timer not listening |
| `Debounce.Debouncer.InstallHandles` | src/main.rs:51-54 | startup fills both handle slots and changes nothing else |
| `Debounce.Debouncer.Exti0` | src/led_pattern.rs:117-139 | with both handles and the gate armed: one step forward, gate closed, timer listening, pending bit cleared; with the gate closed only the pending bit is cleared; with a slot empty nothing changes at all |
| `Debounce.Debouncer.Tim2` | src/led_pattern.rs:140-150 | with the timer handle: time-out flag cleared, listening off, gate armed, pattern kept; without it nothing changes; under the invariant a time-out while nothing listens changes neither gate nor pattern |
| `Events.Deliver` | src/led_pattern.rs:117-150 | one event advances the pattern exactly when the edge is accepted; the gate closes only on an accepted edge and opens only on a time-out with the timer handle present; an edge with a slot empty leaves the pending bit raised |
| `Events.RunPattern` | src/led_pattern.rs:125-133 | after any event sequence the pattern is the start pattern stepped once per accepted edge, and the handle slots are unchanged |
| `Events.RunConsistent` | src/led_pattern.rs:125-147 | every state reached from a consistent one keeps the timer listening exactly while the gate is closed |
| `Events.EdgesAdvanceAtMostOnce` | src/led_pattern.rs:125-127 | a run of edges with no time-out advances the pattern at most once: exactly once if it is non-empty, the gate is armed and both handles are present |
| `Events.RunPairs` | src/led_pattern.rs:125-147 | n edge/time-out pairs from an armed state with both handles advance the pattern n steps and leave the gate armed |
| `Events.FivePairsReturn` | src/led_pattern.rs:125-147 | five edge/time-out pairs return the pattern to its start and leave the gate armed |
| `Events.Started` | src/main.rs:51-54 | after startup stores the handles the state is Hammer, armed, with both slots filled |
| `Events.EarlyEdgeIgnored` | src/led_pattern.rs:120-123 | an edge before the handles are stored changes nothing but leaves the pending bit raised |
| `Events.ScenarioPressExpiryPress` | src/led_pattern.rs:125-147 | from startup: edge gives Circle disarmed, time-out gives Circle armed, edge gives Zigzag disarmed |
| `Events.ScenarioFivePairsFromHammer` | src/led_pattern.rs:125-147 | from startup five edge/time-out pairs come back to Hammer, armed |
| `Events.ScenarioDoubleEdgeFromCross` | src/led_pattern.rs:125-133 | two edges with no time-out from Cross, armed, give Hammer, disarmed |

## Left out

- The five renderers `hammer_pattern`, `circle_pattern`, `zigzag_pattern`, `crisscross_pattern` and `cross_pattern` (src/led_pattern.rs:25-109): straight-line LED on/off calls and delays through the board support crate, with no decisions in them.
- The main loop (src/main.rs:58-68) only reads the selected pattern once per render cycle and calls that renderer; it never writes the shared state, so the model has no step for it.
- Peripheral acquisition, clock, GPIO, EXTI and NVIC setup and timer construction (src/main.rs:22-50) are hardware I/O through crates that are not part of this model. Only their effect on the shared state is modelled: the slots filled by `InstallHandles`. The state before that assumes the timer does not listen until the edge handler asks it to.
- Interrupt masking (`cortex_m::interrupt::free`), the `Mutex<RefCell<…>>` borrows and interrupt priorities: each handler run is one atomic step.
- Time: there is no clock, no 1 Hz period and no latency. A time-out is just a `TimerExpiry` event. The event sequences are arbitrary, so the lemmas also hold for time-outs that the hardware would deliver only while the timer listens. The timer is free-running at 1 Hz (src/main.rs:43) and its time-out flag may already be raised when the edge handler calls `listen` (src/led_pattern.rs:135), so the timer handler can run at once and the debounce window has no guaranteed length; the arbitrary event sequences include that case, but no property here bounds the window. Likewise an edge that finds a slot empty leaves the button's pending bit raised (`Events.EarlyEdgeIgnored`), so the edge handler may run again straight away.
- The commented-out `hprintln!` diagnostics (src/led_pattern.rs:134, 144).
