# XenoBlade2-Autofeed macro sequencer in Dafny

This project models the core of a Nintendo Switch controller emulator that replays fixed button macros: the sequencer `GetNextReport` in `Joystick.c`. The device's USB task calls it once per polling interval. Each call builds a neutral controller report and presses whatever the current script step names. It then counts the call against the step's duration. When the step is done it moves to the next step, and at the end of a script it moves to the next phase.

The four phases are SYNC_CONTROLLER, BUY_ITEM, FEED_ITEM and AFTER_FEED. Each phase walks its own constant script of `(button, duration)` steps. The order is SYNC → BUY → FEED → AFTER_FEED → BUY → …. FEED replays its script `feed_time` (10) times before it moves on. Every phase change complements `portsval`, the value the program writes to its indicator LEDs and buzzer.

Files:

- `Controller.dfy` (module `Controller`): the symbols of `Buttons_t`, a script step (`command`), and the input report with `NeutralReport`.
- `Scripts.dfy` (module `Scripts`): the four script tables, and `Ticks`, the number of calls one pass of a script lasts.
- `Automaton.dfy` (module `Automaton`): the sequencer as a pure state machine.
  - `State` holds the phase and the globals `bufindex`, `duration_count`, `feed_time` and `portsval`.
  - `Emit` is the report one call fills in. `Advance` is how the call leaves the globals.
  - Both take the four tables as a `Program`, so the general lemmas hold for any non-empty tables. `Macro` is the program the C file ships.
  - The module also holds the per-call properties and the invariant `Valid`.
- `Timing.dfy` (module `Timing`): exact call counts.
  - Each step is held duration + 1 calls, and a script pass lasts `Ticks` calls.
  - FEED repeats its pass 10 times.
  - From power-up, SYNC lasts 822 calls. Then BUY lasts 4298, FEED 10 × 921 and AFTER_FEED 1228.
- `Sequencer.dfy` (module `Sequencer`): the imperative form.
  - The class `Sequencer` has the C globals as fields. Its constructor sets their initial values.
  - `Tick` is `GetNextReport`, dispatching on the phase to one method per `case` of the C `switch`. Each of these updates the fields in place.
  - Each is proved to return `Emit` of the old state and to leave the fields at `Advance` of the old state.

## Model

| member | source | states |
|---|---|---|
| `Controller.NeutralReport` | Joystick.c:237-243 | the report prepared before the switch has all four axes at the stick centre, the hat centred and no button bit set |
| `Controller.Recentre` | Joystick.c:259-265 | the NOTHING branch re-centres all axes and the hat and leaves the button bits alone |
| `Scripts.ScriptsWellFormed` | Joystick.c:47-106 | the tables `SyncControllerSteps`, `BuyItemSteps`, `FeedItemSteps` and `AfterFeedSteps` (`sync_controller`, `buy_item`, `feed_item` and `after_feed` in C) have 7, 28, 6 and 8 steps and every step lasts between 5 and 300 |
| `Scripts.BuyItemAlternates` | Joystick.c:57-86 | the buy script alternates action steps of duration 5 at even positions with NOTHING pauses of 300 at odd positions |
| `Scripts.TicksPairs` | Joystick.c:57-106 | a script of n (5, 300) pairs lasts 307·n calls |
| `Scripts.TicksConcat` | Joystick.c:267-280 | the calls of two consecutive runs of steps add up |
| `Scripts.SyncControllerTicks` | Joystick.c:47-55 | one pass of the sync script lasts 822 calls |
| `Scripts.BuyItemTicks` | Joystick.c:57-86 | one pass of the buy script lasts 4298 calls |
| `Scripts.FeedItemTicks` | Joystick.c:88-95 | one pass of the feed script lasts 921 calls |
| `Scripts.AfterFeedTicks` | Joystick.c:97-106 | one pass of the after-feed script lasts 1228 calls |
| `Automaton.MacroWellFormed` | Joystick.c:47-106 | the shipped tables are all non-empty, with lengths 7, 28, 6, 8 |
| `Automaton.MacroUsesHandledSymbols` | Joystick.c:47-106 | every step of the shipped tables names a symbol its phase has a case for |
| `Automaton.MacroBounds` | Joystick.c:47-106 | in every state satisfying the invariant over the shipped tables, `duration_count` is in 0..300, `bufindex` below 28 and `feed_time` in 1..10 |
| `Automaton.Init` | Joystick.c:218-232 | the globals start at SYNC_CONTROLLER, index 0, count 0 and `portsval` 0, with `feed_time` 10 as declared at Joystick.c:45 |
| `Automaton.Valid` | Joystick.c:218-232 | the invariant implies that the index lies inside the current table and the count is not negative |
| `Automaton.Successor` | Joystick.c:274-402 | the phase after a completed visit is never SYNC_CONTROLLER and never the same phase |
| `Automaton.Not` | Joystick.c:275 | `~` swaps 0 and -1, the two values `portsval` takes |
| `Automaton.Press` | Joystick.c:251-386 | the per-phase switch never moves a stick; the hat is LEFT exactly for LEFT in BUY_ITEM and centred otherwise; NOTHING gives exactly the neutral report |
| `Automaton.PressMatchesTable` | Joystick.c:251-386 | a symbol has its own effect (TRIGGERS → L and R, A → A, B → B, PLUS → PLUS, LEFT → hat left) when the current phase has a case for it, and leaves the report neutral otherwise |
| `Automaton.PressNeutralIff` | Joystick.c:251-386 | the report differs from neutral if and only if the phase handles the symbol and it is not NOTHING |
| `Automaton.Emit` | Joystick.c:237-266 | the report of a call has all sticks centred, and differs from the neutral report exactly when the current step's symbol is handled by the phase and is not NOTHING |
| `Automaton.Wrap` | Joystick.c:274-280 | the end-of-script branch resets the index to 0 and keeps the count; it either moves to the successor phase and complements `portsval`, or stays (only in FEED_ITEM) with one repeat fewer, at least 1 left, and `portsval` unchanged |
| `Automaton.Advance` | Joystick.c:267-402 | a call leaves `bufindex` inside the table of the phase it leaves the machine in, so the next lookup is in bounds |
| `Automaton.Iterate` | Joystick.c:235-406 | after any number of calls the table index is in bounds |
| `Automaton.AdvanceCounts` | Joystick.c:267-280 | every call increments `duration_count`; only when it exceeds the step's duration does the index advance with the count reset to 0, and past the last step the end-of-script branch runs |
| `Automaton.AdvancePhase` | Joystick.c:274-402 | a call keeps the phase or moves to its successor, and never enters SYNC_CONTROLLER from another phase |
| `Automaton.PortsvalTogglesOnPhaseChange` | Joystick.c:274-402 | `portsval` is complemented on exactly the calls that change phase and untouched otherwise |
| `Automaton.FeedCountdown` | Joystick.c:357-368 | in FEED_ITEM, a completed pass decrements `feed_time` and stays in FEED while it is still above 1; when it drops below 1 the phase becomes AFTER_FEED, `feed_time` is reset to 10 and the port flashes; any other call leaves phase, `feed_time` and port alone |
| `Automaton.InitValid` | Joystick.c:218-232 | the initial values satisfy the invariant: index and count in range, `feed_time` in 1..10 and 10 outside FEED, `portsval` 0 or -1 |
| `Automaton.AdvanceValid` | Joystick.c:235-406 | every call preserves that invariant |
| `Automaton.IterateValid` | Joystick.c:235-406 | the invariant holds after any number of calls |
| `Automaton.NeverResynchronises` | Joystick.c:274-402 | once SYNC_CONTROLLER is left, no number of calls returns to it |
| `Timing.HoldStep` | Joystick.c:267-273 | while the count stays within the step's duration a call changes nothing but the count |
| `Timing.StepDone` | Joystick.c:267-280 | a step entered with count c moves on after exactly duration − c + 1 calls, so a fresh step is held duration + 1 calls |
| `Timing.Position` | Joystick.c:267-280 | a pass entered at step 0 with a fresh count is at step i with count c after the calls of steps 0..i-1 plus c more, with phase, `feed_time` and `portsval` unchanged |
| `Timing.Traverse` | Joystick.c:267-402 | walking a script from step i with a fresh count reaches the end-of-script branch after exactly the calls of steps i to the end |
| `Timing.MidScript` | Joystick.c:267-402 | before a pass ends, phase, `feed_time` and `portsval` are unchanged and the index never goes back |
| `Timing.Pass` | Joystick.c:274-402 | a pass of a phase's script lasts `Ticks` calls and then leaves the successor phase with the port flashed, or for FEED one less repeat or AFTER_FEED |
| `Timing.SyncPhase` | Joystick.c:249-281 | from power-up, the first 821 calls stay in SYNC and call 822 leaves BUY_ITEM with index and count 0 and `portsval` -1 |
| `Timing.BuyPhase` | Joystick.c:283-330 | BUY_ITEM lasts exactly 4298 calls and then hands over to FEED_ITEM with the port flashed |
| `Timing.FeedPasses` | Joystick.c:332-370 | FEED entered with `feed_time` f is back at step 0 with f − j repeats left after j < f passes, and in AFTER_FEED with `feed_time` 10 after f passes |
| `Timing.InsideFeedPass` | Joystick.c:332-370 | during pass j of FEED the phase is FEED with f − j repeats left and the port untouched |
| `Timing.FeedPhase` | Joystick.c:332-370 | a visit of FEED is ten passes of 921 calls: inside pass j it is still FEED with 10 − j repeats left, and after 9210 calls it is AFTER_FEED |
| `Timing.AfterFeedPhase` | Joystick.c:372-404 | AFTER_FEED lasts exactly 1228 calls and then hands back to BUY_ITEM |
| `Timing.Cycle` | Joystick.c:283-404 | BUY, FEED and AFTER_FEED together take 14736 calls and return to the start of BUY with `portsval` complemented |
| `Timing.SyncOpensNeutral` | Joystick.c:48 | the first 251 reports are neutral |
| `Timing.SyncThenTriggers` | Joystick.c:48-49 | the 252nd report presses L and R |
| `Sequencer.Sequencer.constructor` | Joystick.c:218-232 | the fields start at SYNC_CONTROLLER, index 0, count 0, `feed_time` 10, `portsval` 0 |
| `Sequencer.Sequencer.Tick` | Joystick.c:235-406 | one call returns the report of the current step and leaves the fields at the automaton's next state |
| `Sequencer.Sequencer.SyncStep` | Joystick.c:249-281 | the SYNC_CONTROLLER case, proved to be one automaton step |
| `Sequencer.Sequencer.BuyStep` | Joystick.c:283-330 | the BUY_ITEM case, proved to be one automaton step |
| `Sequencer.Sequencer.FeedStep` | Joystick.c:332-370 | the FEED_ITEM case, proved to be one automaton step |
| `Sequencer.Sequencer.AfterFeedStep` | Joystick.c:372-404 | the AFTER_FEED case, proved to be one automaton step |
| `Sequencer.FirstReport` | Joystick.c:235-266 | the first call on a freshly initialised sequencer returns the neutral report |

## Left out

- `main`, `SetupHardware`, watchdog and clock setup, and the port-direction writes (Joystick.c:109-146) are hardware I/O.
- The USB event callbacks and `HID_Task` (Joystick.c:149-216) are endpoint I/O through the USB library. Inbound data is read and discarded there. That library is not part of this model, and `Tick` stands for the call `HID_Task` makes.
- The writes of `portsval` to the PORTD and PORTB registers, including their truncation to 8 bits, are not modelled. Only the complement of `portsval` is.
- The unused globals `last_report` and `report_count` (Joystick.c:227-229) are left out, and so is the commented-out DONE and inking code (Joystick.c:410-426).
- The report constants come from `Joystick.h`, which is not part of this model.
  - The stick centre is taken as 128. No proof depends on its value.
  - The hat is an enumeration, and the button bitmask is a set of the five bits the scripts can press. The other bits are never set by this code.
- C `int` on the AVR target is 16 bits, but the counters here are unbounded integers. `Valid` shows that in every reachable state `duration_count` stays in 0..300, `bufindex` below 28, `feed_time` in 1..10 and `portsval` in {0, -1}, and `MacroBounds` gives the numeric bounds for the shipped tables, so no counter overflows.
- The C comparison `duration_count > duration` mixes `int` with `uint16_t`. It agrees with the mathematical comparison because the count is never negative.
- `Tick` requires `bufindex` to be inside the current table. The C code does not check this; outside the table its lookup is undefined. The invariant shows it always holds from the initial state.
- `Advance` requires all four tables to be non-empty (`WellFormed`). The C code relies on this without a check, and the shipped tables satisfy it. Zero durations are allowed, as in the C type.
- FEED complements `portsval` only when it moves to AFTER_FEED (Joystick.c:361-366), not after each of its passes.
- The buy script has 14 actions of duration 5 and 14 pauses of 300 (Joystick.c:57-86).
- Nothing in the code rejects an empty table or a zero duration.
- Strict `>` in the duration test holds each step one call longer than its duration. This is kept as written, and `Timing.StepDone` states it.
