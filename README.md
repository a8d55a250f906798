# Game-length menu of nata-and-nena, in Dafny

This project models the game-length menu of the two-player platformer
nata-and-nena (`src/menu.rs`). The menu shows a header and three options:
180, 240 and 300 seconds. A cursor (`selection_index`, 1 to 3) moves up or down
at most once per 0.2 s. A one-shot timer provides the rate limit and restarts after
each move. The cursor is clamped back onto the options after every move. The
marker `▶` is then put on the selected option's text section and removed from
every other option. The header, section 0, is left alone. A confirm press sets
the round length for the selected option and requests the game screen.

Modules:

- `Timers` (`timer.dfy`) models the engine's one-shot timer as a value. It has
  the elapsed time and the duration in nanoseconds, the stored `finished` flag
  and the "just finished" edge. `Tick` saturates at the duration, and `Reset`
  restarts the timer.
- `MarkerText` (`marker_text.dfy`) models marker removal (a string `replace`
  of `▶` by nothing) and marker prefixing (only when the section lacks one). It
  also gives the per-section rewrite, the rewrite of all sections, and the
  marker invariant.
- `Menu` (`menu.dfy`) holds the menu state and the spawned initial values. It
  has `Step`, a pure specification of one run of the per-frame system, and
  `Run`, which applies it to a run of frames. The scroll-control component, the
  text component and the two resources (round length, pending screen switch)
  are classes. `MenuSelectionSystem` is the imperative system: it updates those
  objects in place, and the loop over the text sections is in
  `RefreshSections`. Its postcondition ties the new object state to `Step` of
  the old one.

The cursor is an unsigned integer in the source. The model keeps it a `nat`, so
the decrement on an up press must be proved not to go below zero. It needs only
the cursor to be at least 1 before the move, and every step keeps that true.

## Model

| member | source | states |
|---|---|---|
| `Timers.NewTimer` | src/menu.rs:74 | a new timer has nothing elapsed, is not finished and keeps the timer invariant |
| `Timers.Tick` | src/menu.rs:196 | the duration is unchanged; the timer is finished afterwards exactly when it already was or the elapsed time plus the delta reaches the duration; the "just finished" edge is set exactly on the tick that finishes it; elapsed time never decreases and equals the sum while unfinished; the timer invariant is kept |
| `Timers.Reset` | src/menu.rs:203 | a reset timer keeps its duration, has nothing elapsed and has neither flag set |
| `Timers.ExpiredIsFinished` | src/menu.rs:198-199 | on a valid timer the gate "finished or just finished" is the same as "finished" |
| `Timers.TickAllFinishes` | src/menu.rs:196-199 | over a run of ticks, a timer of positive duration finishes exactly when the deltas add up to the time that was left; until then the elapsed time is the running sum |
| `MarkerText.RemoveMarker` | src/menu.rs:221 | the result holds no marker, and its characters are those of the input with every marker taken out (as multisets) |
| `MarkerText.RemoveMarkerAppend` | src/menu.rs:221 | marker removal distributes over concatenation, so the characters that remain stay in their order |
| `MarkerText.RemoveMarkerUnchanged` | src/menu.rs:221 | marker removal leaves a string unchanged if and only if it holds no marker |
| `MarkerText.EnsureMarker` | src/menu.rs:223-224 | the result holds a marker; a string that already has one is returned unchanged; otherwise the marker is prefixed once |
| `MarkerText.EnsureMarkerKeepsText` | src/menu.rs:223-224 | prefixing the marker changes nothing but markers |
| `MarkerText.RefreshSection` | src/menu.rs:216-226 | section 0 is returned unchanged; the selected section holds a marker and is the section with the marker prefixed only if it lacked one; every other option section is the section with all markers removed and holds none; the non-marker text is kept in every case |
| `MarkerText.Refreshed` | src/menu.rs:216-227 | the sections keep their number; the header is unchanged; the marker invariant holds for the selection (the selected option is marked and no other option is); each section keeps its non-marker text |
| `MarkerText.RefreshedFixedPoint` | src/menu.rs:216-227 | the refresh leaves the sections unchanged if and only if they already satisfy the marker invariant for the selection |
| `MarkerText.RefreshedIdempotent` | src/menu.rs:223-224 | refreshing twice with the same selection gives the same text as refreshing once |
| `Menu.Initial` | src/menu.rs:73-115 | the spawned menu keeps the invariant; the cursor is on option 1; the round length is the one carried into the menu (180 s on the first entry, the last confirmed length afterwards), since set-up does not touch it; no screen switch is pending; the first option carries the marker; the timer is fresh |
| `Menu.InitialIsRefreshed` | src/menu.rs:88-107 | the spawned text already follows the marker rule for the spawned cursor, so the first refresh does not change it |
| `Menu.SecondsFor` | src/menu.rs:231-237 | the round length is 180 exactly for option 1, 240 exactly for option 2 and 300 exactly for any other index |
| `Menu.Moved` | src/menu.rs:201-214 | the cursor ends on an option (1 to 3); up moves it one up unless it is already at 1; down alone moves it one down unless it is already at 3; no key leaves it; a cursor beyond 3 is clamped to 3 whatever key is held |
| `Menu.Step` | src/menu.rs:196-240 | the invariant (valid 0.2 s timer, cursor on an option, a text section for every option, marker on the selection only) is kept and the number of sections is unchanged; while the ticked timer has not run out, the cursor and the text are unchanged; once it has, the cursor moves as `Moved` says and the text is refreshed for the new cursor; inside the open gate any held key restarts the timer, even when the clamp keeps the cursor where it was; with no key held the timer stays as ticked; a confirm press, whether or not the gate is open, sets the round length for the new cursor and requests the game screen; without confirm the round length and the pending switch are unchanged |
| `Menu.Run` | src/menu.rs:24-27 | running the system frame after frame keeps the cursor at least 1, the number of sections and the invariant |
| `Menu.SelectedMarkedAfterRun` | src/menu.rs:216-226 | after set-up and any run of frames there are four sections, the cursor is on an option, the selected option carries the marker and no other option does |
| `Menu.RefreshIsStable` | src/menu.rs:216-227 | an open gate with no key held leaves the text of a valid menu unchanged |
| `Menu.MoveCooldown` | src/menu.rs:196-207 | after a move restarts the timer, the cursor and the text stay put through any frames whose time steps add up to less than the rest of the 0.2 s, whatever keys are held |
| `Menu.MenuScrollControl.constructor` | src/menu.rs:73-76 | the scroll control starts with a fresh 0.2 s one-shot timer and the cursor on option 1 |
| `Menu.TotalSeconds.constructor` | src/menu.rs:23 | the round length resource starts at 180 s |
| `Menu.MenuSetup` | src/menu.rs:71-115 | the spawned scroll control and text are new objects; together with the untouched round length and the empty pending switch they make up exactly `Initial` of the current round length |
| `Menu.RefreshSections` | src/menu.rs:216-227 | the in-place loop leaves the sections equal to `Refreshed` of the old sections for the selection |
| `Menu.MenuSelectionSystem` | src/menu.rs:169-241 | the in-place system leaves the timer, cursor, sections, round length and pending switch equal to `Step` of their old values; the cursor decrement is proved not to underflow |

## Left out

- Input reading is left out: the first gamepad or gamepad 0, the left stick's ±0.10 deadzone, the arrow keys, and the South button or Space as "just pressed" (src/menu.rs:179-192). The model takes `up`, `down` and `confirm` as booleans, and the frame time step `delta` as a number of nanoseconds.
- The system's query takes the text and scroll control of the single menu entity; the engine panics when there is not exactly one. The model passes the two objects in directly.
- Rendering and spawning in `menu_setup` are left out: the camera, images, fonts, styles, layout, the clear colour and the sprites. Despawning the screen on exit is left out too. Only the values of the scroll control and the section strings are kept.
- The round length is an `f32` in the source. The model uses whole seconds. The three values (180, 240, 300) are exact in `f32`, so nothing is lost.
- The 0.2 s limit is taken as exactly 200 000 000 ns. The rounding the engine applies when it turns an `f32` number of seconds into a `Duration` is not modelled.
- Of the engine timer, only what a one-shot timer does is modelled: tick, reset and the two flags. Pausing, repeating mode and the timer's other queries are not used by the menu and are left out.
- `NextState` records only the last screen requested in the frame. The engine's later switch to that screen, and the per-frame scheduling that runs the system only on the menu screen, are not modelled. `Run` stands for a run of frames on the menu screen.
- Timers.TickAllFinishes: requires a positive duration. A zero-duration timer is not finished before its first tick (the stored flag), so the "if and only if" would fail for an empty run of ticks. The menu's timer is 0.2 s.
- The other source files are not part of this model. These are the camera spring tracker (floating-point), the game, splash and game-over screens, and the app, window and camera set-up.
