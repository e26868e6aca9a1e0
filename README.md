# Horse Runner and contact form — a Dafny model

This project models the two pieces of logic in a personal portfolio site that go beyond display code.

* **Horse Runner** (`personalWebsite/src/HorseRunner.jsx`) is a canvas side-scroller with three states: idle, running and over. On each animation frame it does these steps in order:
  * applies gravity to the hero, then clamps the hero to the ground;
  * advances a spawn timer, which adds at most one obstacle at random sizes;
  * scrolls the obstacles left and culls those that have left the field;
  * tests the inset hero box against each ground-anchored obstacle box.

  A collision ends the session, and a new best score is kept only when it is strictly higher. Otherwise the score grows by 0.02 per elapsed millisecond. Space and ArrowUp start a session or jump. Enter only starts one.
* **Page shell** (`personalWebsite/src/App.jsx`) covers four things:
  * the English/Arabic toggle and its stored default;
  * the contact form's single-field update;
  * the loose e-mail pattern `^[^\s@]+@[^\s@]+\.[^\s@]+$`;
  * the submit rule: reject on a bad e-mail first, then reject on an empty field, otherwise clear the form and raise the success flag.

Layout:

* `options.dfy` — module `Options`: the `Option` type, for storage reads and the frame clock.
* `horse_runner.dfy` — module `HorseRunner`:
  * the constants and the entities `Obstacle`, `Rect`, `Snapshot` and `World`;
  * one pure function per step (`ResetWorld`, `StartWorld`, `EndWorld`, `JumpWorld`, `KeyDownWorld`, `Advance`, `TickWorld`, `FrameDelta`), with lemmas about them;
  * class `Game`, which holds the component's refs and state as mutable fields. Each of its methods changes those fields step by step, as the component does, and is proved to produce exactly the corresponding step function's result.
* `contact_form.dfy` — module `App`:
  * the validator, proved equal to an explicit "one '@', no whitespace, inner dot" description;
  * the submit decision and the field update;
  * class `ContactPage` with the stateful handlers.

Quantities are `real`: floating-point rounding is not modelled. Every `Math.random()` draw is a parameter `u` with `0 <= u < 1` (`IsDraw`).

## Model

| member | source | states |
|---|---|---|
| `HorseRunner.SpawnThreshold` | personalWebsite/src/HorseRunner.jsx:14-18 | a spawn threshold drawn from `u` lies in [900, 1600) |
| `HorseRunner.SpawnedObstacle` | personalWebsite/src/HorseRunner.jsx:126-130 | a new obstacle enters at x = 900 (field width + 40), 28 to 58 wide and 35 to 85 tall |
| `HorseRunner.Speed` | personalWebsite/src/HorseRunner.jsx:114 | for a non-negative score the scroll speed is at least the base speed 5.4 |
| `HorseRunner.SpeedMonotone` | personalWebsite/src/HorseRunner.jsx:114 | speed is non-decreasing in the score and strictly increasing |
| `HorseRunner.Fall` | personalWebsite/src/HorseRunner.jsx:116-122 | after gravity the hero is never below the ground; when the clamp fires it sits on the ground with zero velocity, otherwise velocity grew by 0.8 and position by the new velocity |
| `HorseRunner.JumpWorld` | personalWebsite/src/HorseRunner.jsx:82-86 | from within one pixel of the ground the velocity becomes -14 and nothing else changes; in the air the state is unchanged (no double jump) |
| `HorseRunner.Shifted` | personalWebsite/src/HorseRunner.jsx:136-139 | every obstacle keeps its place in the list, moves left by exactly the speed, and keeps its width and height |
| `HorseRunner.Survivors` | personalWebsite/src/HorseRunner.jsx:140 | the kept obstacles are exactly the input's obstacles whose right edge is past 0 |
| `HorseRunner.SurvivorsAppend` | personalWebsite/src/HorseRunner.jsx:140 | filtering a concatenation is the concatenation of the filtered parts (order is kept) |
| `HorseRunner.Scrolled` | personalWebsite/src/HorseRunner.jsx:135-140 | an obstacle is in the result iff it is some input obstacle shifted by the speed and still in the field; the list never grows |
| `HorseRunner.ScrolledAppend` | personalWebsite/src/HorseRunner.jsx:135-140 | scrolling commutes with concatenation, so relative order is preserved |
| `HorseRunner.ScrolledSingle` | personalWebsite/src/HorseRunner.jsx:135-140 | a single obstacle survives the scroll iff its shifted right edge is past 0, and then appears shifted |
| `HorseRunner.HeroBox` | personalWebsite/src/HorseRunner.jsx:142-147 | the hero hitbox is x = 95, width 80, y = heroY - 65, height 60 |
| `HorseRunner.ObstacleBox` | personalWebsite/src/HorseRunner.jsx:150-155 | an obstacle's box has the obstacle's x, width and height, and its bottom on the ground (y = 230 - height) |
| `HorseRunner.OverlapsIffCommonPoint` | personalWebsite/src/HorseRunner.jsx:157-161 | for boxes of positive size the four strict inequalities hold iff some point lies strictly inside both boxes |
| `HorseRunner.HitsIff` | personalWebsite/src/HorseRunner.jsx:142-161 | a hero at or above ground collides with an obstacle iff the obstacle overlaps columns 95..175 and is taller than 5 pixels plus the hero's height above ground |
| `HorseRunner.FindCollision` | personalWebsite/src/HorseRunner.jsx:149-167 | the collision loop, which stops at the first hit, reports a hit iff some obstacle overlaps the hero box |
| `HorseRunner.ResetWorld` | personalWebsite/src/HorseRunner.jsx:59-67 | reset puts the hero at (230, 0), empties the obstacles, zeroes timer and score, draws a threshold in range, restores the initial snapshot and clears the frame clock, keeping status and best score |
| `HorseRunner.StartWorld` | personalWebsite/src/HorseRunner.jsx:69-72 | start is reset plus status running: hero on the ground, no obstacles, zero timer and score, the initial snapshot, a cleared frame clock and the best score kept; the result satisfies the session invariant `WellFormed` |
| `HorseRunner.EndWorld` | personalWebsite/src/HorseRunner.jsx:74-80 | status becomes over; the best score changes iff the final score is strictly higher, and then becomes that score; nothing else changes |
| `HorseRunner.KeyDownWorld` | personalWebsite/src/HorseRunner.jsx:88-104 | Space/ArrowUp start a session that is not running and jump in a running one; Enter starts only a session that is not running; other keys change nothing |
| `HorseRunner.WithSpawn` | personalWebsite/src/HorseRunner.jsx:124-130 | the list before scrolling is the old list unchanged as a prefix, plus one obstacle exactly when the advanced timer strictly exceeds the threshold; that obstacle is at x = 900 and spawn-sized |
| `HorseRunner.Advance` | personalWebsite/src/HorseRunner.jsx:113-140 | the hero follows `Fall`, the obstacles are the scrolled list after the optional spawn at the pre-tick speed, and only hero, timer, threshold and obstacles change |
| `HorseRunner.TickWorld` | personalWebsite/src/HorseRunner.jsx:111-178 | one tick: the hero stays at or above ground; at most one spawn, only when the timer strictly exceeds the threshold, after which the timer is 0 and the threshold is back in [900, 1600); on a collision the status is over, score and snapshot value are unchanged, and the best score follows the end-of-session rule (replaced iff strictly exceeded); otherwise the score grows by exactly delta * 0.02 and the snapshot shows the floored score; the score never drops for delta >= 0 and the best score never drops |
| `HorseRunner.FrameDelta` | personalWebsite/src/HorseRunner.jsx:189-194 | the elapsed time given to a tick is at most 32, is 0 on a session's first frame, is non-negative for a forward clock, equals the real gap when that gap is at most 32, and is exactly 32 when the gap is larger |
| `HorseRunner.TickPreservesWellFormed` | personalWebsite/src/HorseRunner.jsx:111-178 | a tick with 0 <= delta <= 32 keeps the session invariant: hero not below ground, timer within its threshold, threshold in range, score non-negative and published floored, and every obstacle spawn-sized, left of the spawn line and still in the field |
| `HorseRunner.JumpPreservesWellFormed` | personalWebsite/src/HorseRunner.jsx:82-86 | a jump keeps the session invariant |
| `HorseRunner.EndPreservesWellFormed` | personalWebsite/src/HorseRunner.jsx:74-80 | ending the session keeps the session invariant |
| `HorseRunner.KeyDownPreservesWellFormed` | personalWebsite/src/HorseRunner.jsx:88-104 | every key press, whether it starts, jumps or does nothing, keeps the session invariant |
| `HorseRunner.JumpArc` | personalWebsite/src/HorseRunner.jsx:116-122 | k ticks (1..33) after a jump from the ground the hero is at 230 - 14k + 0.4k(k+1) with velocity -14 + 0.8k, more than one pixel above the ground |
| `HorseRunner.JumpLands` | personalWebsite/src/HorseRunner.jsx:116-122 | the 34th tick after a jump from the ground lands the hero on the ground with zero velocity |
| `HorseRunner.NoDoubleJump` | personalWebsite/src/HorseRunner.jsx:82-86 | during the whole flight after a jump, a jump request changes nothing |
| `HorseRunner.Game.constructor` | personalWebsite/src/HorseRunner.jsx:28-40 | a new component is idle, hero on the ground, no obstacles, zero timer and score, a threshold in range, the stored best score, and satisfies the invariant |
| `HorseRunner.Game.Reset` | personalWebsite/src/HorseRunner.jsx:59-67 | the fields afterwards are exactly `ResetWorld` of the fields before, and satisfy the invariant |
| `HorseRunner.Game.Start` | personalWebsite/src/HorseRunner.jsx:69-72 | the fields afterwards are exactly `StartWorld` of the fields before, and satisfy the invariant |
| `HorseRunner.Game.End` | personalWebsite/src/HorseRunner.jsx:74-80 | the fields afterwards are exactly `EndWorld` of the fields before; the invariant is kept |
| `HorseRunner.Game.Jump` | personalWebsite/src/HorseRunner.jsx:82-86 | the fields afterwards are exactly `JumpWorld` of the fields before; the invariant is kept |
| `HorseRunner.Game.KeyDown` | personalWebsite/src/HorseRunner.jsx:88-104 | the fields afterwards are exactly `KeyDownWorld` of the fields before, with the status read before the key was handled; the invariant is kept |
| `HorseRunner.Game.Move` | personalWebsite/src/HorseRunner.jsx:113-140 | the in-place gravity, clamp, timer, push and scroll updates yield exactly `Advance` of the fields before |
| `HorseRunner.Game.Tick` | personalWebsite/src/HorseRunner.jsx:111-178 | the in-place update, with its early return on a collision, yields exactly `TickWorld` of the fields before, and keeps the invariant for delta >= 0 |
| `HorseRunner.Game.Frame` | personalWebsite/src/HorseRunner.jsx:189-195 | one animation frame records the timestamp and ticks by `FrameDelta`, and keeps the invariant for a clock that does not run backwards |
| `App.InitialLanguage` | personalWebsite/src/App.jsx:16-19 | the first language is the stored one when it is present and non-empty, else "Eng"; it is never empty |
| `App.Toggled` | personalWebsite/src/App.jsx:35-37 | the toggle always yields "Eng" or "Arb", and yields "Arb" exactly when the input is "Eng" |
| `App.ToggleInvolution` | personalWebsite/src/App.jsx:35-37 | toggling twice returns "Eng" or "Arb" unchanged, and turns any other value into "Arb" |
| `App.IsValidEmail` | personalWebsite/src/App.jsx:54-57 | the pattern match holds iff the string splits as segment '@' segment '.' segment with no whitespace or '@' in any segment; an accepted address is at least 5 characters long |
| `App.ValidEmailIsLoose` | personalWebsite/src/App.jsx:54-57 | a matching address has exactly one '@', no whitespace, and a '.' strictly inside the part after the '@' |
| `App.LooseEmailIsValid` | personalWebsite/src/App.jsx:54-57 | one '@' with something before it, no whitespace and an inner '.' after it is enough for the pattern to match |
| `App.ValidEmailIffLoose` | personalWebsite/src/App.jsx:54-57 | the pattern accepts exactly the loose local@domain.tld shape |
| `App.SetField` | personalWebsite/src/App.jsx:45-51 | the field named by the id takes the new value and the other two keep theirs; any other id changes none of the three |
| `App.SubmitOutcome` | personalWebsite/src/App.jsx:60-85 | the decision is an invalid e-mail iff the e-mail fails the pattern; a missing field iff the e-mail passes and the name or message is empty; sent iff all checks pass (the e-mail's own emptiness test never decides) |
| `App.ContactPage.constructor` | personalWebsite/src/App.jsx:16-29 | the page starts in the initial language, with an empty form and no success message |
| `App.ContactPage.ToggleLanguage` | personalWebsite/src/App.jsx:35-37 | the language becomes `Toggled` of the old one; form and flag are unchanged |
| `App.ContactPage.InputChange` | personalWebsite/src/App.jsx:45-51 | the form becomes `SetField` of the old form; language and flag are unchanged |
| `App.ContactPage.Submit` | personalWebsite/src/App.jsx:60-91 | the outcome is `SubmitOutcome` of the old form; a rejection leaves form and flag unchanged; a send empties all three fields and raises the flag |

## Left out

- Canvas drawing and theme-colour lookup (HorseRunner.jsx lines 210-255): these are calls into a 2D context and have no effect on the game.
- requestAnimationFrame scheduling and cancellation (HorseRunner.jsx lines 180-208): only the body of one frame is modelled (`Game.Frame`, with the 32 ms cap). Which frames run, and when the effect's cleanup clears the frame clock, are not modelled. `Reset` clears the frame clock in any case.
- `Math.random()`: every draw is a parameter constrained to [0, 1).
- Browser storage: the initial best score is a constructor argument, and the stored language is an `Option<string>`. The `Number(...) || 0` coercion, the `toFixed(0)` write of the best score and the language write are not modelled.
- `Game.End`: the best score kept in memory is the unrounded final score, as in the source. The rounded copy written to storage is not modelled.
- React batching and stale closures: state updates are immediate. In particular, `endGame` compares against the current best score, not one captured when the callback was created.
- Aliasing of the obstacle array: in the source, the published snapshot holds the same array as the obstacle ref (HorseRunner.jsx line 173), and the next tick's `push` (line 126) appends to it before `map`/`filter` replace the ref. So on a collision tick that also spawns, the last snapshot's list gains the new obstacle at x = 900. The model's snapshot is a value and keeps its old list. Nothing visible follows, because the canvas redraws only when a new snapshot object is set and x = 900 is off-canvas.
- Key-listener registration (HorseRunner.jsx lines 106-109): `Game.KeyDown` takes the key code directly.
- The start button (HorseRunner.jsx lines 286-292) is not modelled. It is disabled while a session is running, so its `jump` handler cannot fire there. A click while not running is a start, the same as `StartWorld`.
- All JSX, the bilingual string tables and the score formatting with `padStart`.
- `App.ContactPage.Submit`: the `alert` dialogs become the returned `Rejected` reason, and the 3-second timeout that hides the success message is not modelled.
- `App.SetField`: in the source, an id other than name, email or message adds an extra key to the form object. The model has only the three fields, so such an update leaves them unchanged. Nothing reads the extra key.
- Tab switching, the GitHub repository list and the countdown are not part of this model.
- Floating point: all quantities are exact reals, so rounding in the source's doubles is not captured.
