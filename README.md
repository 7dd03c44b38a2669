# Boot screen state machine of a 1990s console recreation

This project models the timed screen logic of a web recreation of a game console's start-up: a power button, a boot animation with a startup chime, a black "no disk" pause, and a system configuration menu with two entries (Memory Card, CD Player). Time is integer milliseconds. Every sound, and the console acknowledgement of a menu choice, is an abstract event appended to a trace.

Modules:

- `Wrappers` (`wrappers.dfy`): the `Option` type used for the pending disk-check deadline and the power-on time.
- `AppStates` (`app_state.dfy`): the six session states of `types.ts`.
- `Startup` (`startup_sequence.dfy`): the boot animation component as a class, `StartupSequence`. It has a phase (logo, text, fadeout), the start time of the current effect run, the set of registered timers and an event trace. The effect (`RunEffect`) plays the startup sound and registers three timers at absolute offsets of 1000, 6000 and 7500 ms. `Tick(now)` fires the due timers in deadline order. `Cleanup` clears them. `Rerun` is cleanup followed by a fresh run, which is what happens when the completion callback changes. The class invariant ties the phase, the pending timers and the run's events to the elapsed time: `PhaseFrom`, `Pending` and `RunTrace`.
- `Menu` (`bios_menu.dfy`): the menu component as a class, `BiosMenu`. It has the selection index and an event trace. `Items` is the fixed entry table: 0 is "Memory Card" / `MemoryCard`, 1 is "CD Player" / `CdPlayer`. `KeyAction` is the keydown dispatch. The ghost functions `RunKeys` and `RunEffects` fold the key policy over any sequence of key presses, so that properties about every input sequence can be stated. `Scenarios.KeyDowns` proves that the component, fed the keys one by one, ends in exactly that fold's selection and events.
- `Overlay` (`controller_overlay.dfy`): only the table of keys the on-screen buttons send. It is the menu's input alphabet.
- `Session` (`app.dfy`): the `App` component as a class. It holds the state, the pending disk-check deadline and the child component objects it has mounted. A ghost `poweredOnAt` lets the invariant state that, after power-on, the session state is a function of time alone (`ScreenAt`): logo until 7500 ms, black screen until 10000 ms, menu from then on.
- `Scenarios` (`scenarios.dfy`): client methods that drive the components through the boot timeline, the menu input, any sequence of key presses, one late tick, cancellation and a re-run, using only the contracts above. This module models no source file of its own.

Timers fire exactly at their deadlines. A callback runs "at" its deadline. So the completion callback at 7500 ms schedules the disk-check timer for 10000 ms even when one `Tick` jumps past both.

The model follows the code as written, including these behaviours a reader might not expect:

- The 2500 ms disk-check timer is never cleared (App.tsx:17-19). Nothing cancels it.
- Confirming a menu entry only plays the select sound and logs the entry's label. The menu never calls its state callback, so `MemoryCard` and `CdPlayer` are never entered and nothing leaves `BiosMenu`.
- Clicking an entry sets the selection and then runs the select handler of the current render. That handler still sees the old selection, so the acknowledged label is the one selected before the click (`Menu.BiosMenu.Click`, `Menu.ClickAcknowledgesPrevious`).
- The phase is component state and is not reset when the effect re-runs. A re-run after the fade lets the new text timer move the phase back to the text (`Startup.RerunAfterFadeRegresses`). Within the app the effect never re-runs: the parent does not re-render while the boot animation is mounted, and each animation is mounted fresh on the logo. So there the phase only moves forward (`Startup.StartupSequence.Tick`, `Session.App.Tick`).

## Model

| member | source | states |
|---|---|---|
| `Startup.BootTimeline` | components/StartupSequence.tsx:17-25 | in a run starting on the logo, the phase is the logo before 1000 ms, the text from 1000 ms to before 6000 ms, and the fade from 6000 ms on; offsets are from the run's start |
| `Startup.PhaseOnlyAdvances` | components/StartupSequence.tsx:17-25 | in a run that starts before the fade, a later time never shows an earlier phase |
| `Startup.RerunAfterFadeRegresses` | components/StartupSequence.tsx:17-37 | a run that starts in the fade phase goes back to the text at its 1000 ms timer, because the phase survives a re-run |
| `Startup.PendingShrinks` | components/StartupSequence.tsx:17-30 | registered timers only leave the pending set as time passes, and none is pending exactly from 7500 ms on |
| `Startup.CompletesOnce` | components/StartupSequence.tsx:12-30 | a run plays the startup sound once, as its first event, and calls the completion callback exactly once from 7500 ms on and never before |
| `Startup.StartupSequence.constructor` | components/StartupSequence.tsx:10-30 | mounting starts on the logo, plays the startup sound once and registers all three timers from the mount time |
| `Startup.StartupSequence.RunEffect` | components/StartupSequence.tsx:12-30 | the effect appends one startup sound, registers all three timers measured from now, and leaves the phase as it was |
| `Startup.StartupSequence.Cleanup` | components/StartupSequence.tsx:32-36 | cleanup clears every pending timer and changes neither the phase nor the events |
| `Startup.StartupSequence.Rerun` | components/StartupSequence.tsx:32-37 | a re-run clears the old timers first and then registers a fresh set from the new start; the phase is kept |
| `Startup.StartupSequence.Tick` | components/StartupSequence.tsx:17-30 | after time `now`, a live run's phase is the one for `now` minus its start; the phase never moves back in a run that began before the fade; the completion callback fires exactly when the completion offset is crossed; after cleanup nothing fires and nothing changes |
| `Startup.StartupSequence.Render` | components/StartupSequence.tsx:40-51 | the manufacturer text is visible iff the phase is not the logo, and the screen is faded iff the phase is the fade; in a run from the logo these are the times from 1000 ms and from 6000 ms |
| `Menu.MoveTarget` | components/BiosMenu.tsx:18-22 | a move sets an index inside the table: left gives 0, right gives 1 |
| `Menu.NextIndex` | components/BiosMenu.tsx:18-36 | after any key the index stays in the table, and only a move key can change it |
| `Menu.RunKeys` | components/BiosMenu.tsx:10-36 | from a valid index, the selection after any sequence of key presses is still 0 or 1 |
| `Menu.NoMoveKeepsSelection` | components/BiosMenu.tsx:24-36 | key presses that are not moves leave the selection unchanged |
| `Menu.LastMoveDecides` | components/BiosMenu.tsx:18-22 | after any key sequence the selection is fixed by the last move in it, whatever came before: moves set the index, they do not step it |
| `Menu.IgnoredKeysAreInert` | components/BiosMenu.tsx:31-36 | keys outside the dispatch table produce no event and no change of selection |
| `Menu.SoundsMatchKeys` | components/BiosMenu.tsx:18-36 | over any key sequence, the move sounds equal the move keys, the select sounds equal the confirm keys, and there are no other events except one acknowledgement per confirm key |
| `Menu.MoveIsAbsolute` | components/BiosMenu.tsx:18-22 | repeating a move changes nothing, and a move's result does not depend on the prior index |
| `Menu.ClickAcknowledgesPrevious` | components/BiosMenu.tsx:24-29 | confirming acknowledges the entry the render saw, so a click on another entry acknowledges a label other than the clicked one |
| `Menu.RightThenConfirm` | components/BiosMenu.tsx:13-35 | from the first entry, ArrowRight then Enter selects entry 1 and emits a move sound, a select sound and the "CD Player" acknowledgement |
| `Menu.BiosMenu.constructor` | components/BiosMenu.tsx:10 | a freshly mounted menu selects entry 0 and has emitted nothing |
| `Menu.BiosMenu.HandleMove` | components/BiosMenu.tsx:18-22 | a move emits one move sound and sets the index to the direction's end |
| `Menu.BiosMenu.HandleSelect` | components/BiosMenu.tsx:24-29 | select emits the select sound and then the acknowledgement of the rendered entry's label, and leaves the index unchanged |
| `Menu.BiosMenu.KeyDown` | components/BiosMenu.tsx:31-39 | a keydown changes the index and the events exactly as the key policy prescribes for the current index |
| `Scenarios.KeyDowns` | components/BiosMenu.tsx:31-39 | a sequence of keydowns on a mounted menu leaves the selection and appends the events that the key policy folded over the whole sequence gives, so the fold lemmas hold for the component |
| `Menu.BiosMenu.Click` | components/BiosMenu.tsx:84-99 | a click on entry i sets the index to i with no move sound and acknowledges the entry selected before the click; a click on an entry other than the selected one never acknowledges the clicked entry's label |
| `Overlay.ButtonsThatReachMenu` | components/ControllerOverlay.tsx:15-27 | only the left, right and cross buttons send keys the menu acts on; up, down and square send keys it ignores |
| `Session.ExactlyOneScreen` | App.tsx:32-62 | every state mounts exactly one of the four screens, and the controller overlay is mounted iff the power button is not |
| `Session.SessionMovesForward` | App.tsx:11-24 | the session is only ever power-off, logo, black screen or menu, it never goes back, and nothing leaves the menu |
| `Session.PowerOnTimeline` | App.tsx:11-20 | power-on at 0 gives the text at 1000 ms, the fade at 6000 ms, the black screen at 7500 ms and the menu at 10000 ms |
| `Session.App.constructor` | App.tsx:8 | the app starts powered off with no child mounted and no timer pending |
| `Session.App.HandlePowerOn` | App.tsx:22-24 | power-on, offered only on the power-off screen, sets the logo state and mounts a fresh boot animation starting now |
| `Session.App.HandleStartupComplete` | App.tsx:11-20 | completion, delivered only by the fired completion timer at its deadline, sets the black screen at once and schedules the menu 2500 ms after that deadline; the boot animation is unmounted and its timers cleared |
| `Session.App.DiskCheckElapsed` | App.tsx:17-19 | the disk-check timer, once registered and due, sets the menu state unconditionally and mounts a menu on entry 0 |
| `Session.App.Tick` | App.tsx:11-20 | after time `now` the session state is the one for the time since power-on; the boot animation is mounted only while in the logo state, its completion is delivered once, and the menu, once mounted, stays |
| `Session.App.KeyDown` | App.tsx:57-58 | only a mounted menu reacts to keys, and the session state never changes |
| `Session.App.ClickMenuItem` | App.tsx:57-58 | a click on a menu entry updates the menu as its click handler does and leaves the session state unchanged |
| `Session.App.Render` | App.tsx:32-62 | what is mounted is what the state asks for; the boot animation and menu objects exist exactly when mounted; the black screen shows exactly while the disk-check timer is pending; the state is one of the four reachable ones |

## Left out

- Sound synthesis (utils/sound.ts): the oscillators, filters, gain envelopes, the random noise buffer and the 8000 ms auto-close. The three sounds are abstract events. A missing audio capability only means the event has no audible effect, so it is not modelled separately.
- The controller overlay's creation and dispatch of keyboard events: only its button-to-key table is kept. Its keys reach `App.KeyDown` like physical keys.
- All markup, styling and CSS transition durations (the 1500 ms fade and the 1000 ms text transition are presentation).
- The text of the console line: `Ack` carries the label that follows "Selected:".
- React scheduling beyond one point: state updates are immediate assignments. The one exception is the stale read in the click handlers, which is kept. Attaching and detaching the keydown listener is modelled as "only a mounted menu receives keys".
- Real clocks and event-loop delays: timers fire exactly at their deadlines through explicit `Tick` calls.
- Unmounting the app itself: the root component is never torn down, and its disk-check timer is never cancelled.
- The `NavItem` type in types.ts is unused by the code. The entries' `id` fields are kept in the table but nothing reads them.
