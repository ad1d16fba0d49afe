# Combat turn and NPC dialogue controllers, modelled in Dafny

This project models the two per-frame state machines of a small 2D narrative
game written in Rust on the tetra engine.

- **The combat turn controller** (`src/scenes/combat.rs`, `update`, acting on
  `CombatData` from `src/combat.rs`). An encounter with Sans has five phases:
  `Menu`, `Fighting`, `Acting`, `Mercy` and `SansTurn`. In the Menu, Left and
  Right move a cursor over FIGHT / ACT / MERCY, clamped to 0..2. A confirm
  (Z, Enter or F) starts the chosen action. A confirm in Fighting or Acting
  starts Sans's turn. That turn counts frames and returns to the Menu after
  120 of them. A confirm in Mercy leaves combat: the scene becomes `Desktop`
  and the player is moved to x = 700. A shake value set by a Fight decays by
  0.5 every frame while positive.
- **The NPC proximity dialogue controller** (`src/scenes/eilish.rs`,
  `update`). It only runs on stage 4. Pressing F within 120 units of Eilish
  opens a bubble with one of eight fixed lines for 300 frames. Walking out of
  range closes it at once.

Files and modules:

- `defs.dfy` (`Defs`): the scene identifier.
- `input.dfy` (`Input`): the keys pressed this frame, and `Confirm` (Z, Enter or F).
- `game_state.dfy` (`Game`): `Vec2` and the class `GameState`. The class holds
  only the fields the two updates read or write. `src/game_state.rs` is not
  part of this model.
- `combat.rs` → `combat.dfy` (`Combat`): `CombatTurn`, the `CombatData` record,
  `New()` and the invariant `Valid` that every encounter keeps.
- `src/scenes/combat.rs` → `combat_scene.dfy` (`CombatScene`). `Update` is the
  imperative frame on a `GameState`. It mutates the encounter branch by branch,
  as the source does. Its contract ties the new encounter to the function
  `Step` of the old one. `Step` carries the transition table and the preserved
  invariant. `Run` iterates `Step` over many frames, and lemmas about `Run`
  state the multi-frame timing.
- `src/scenes/eilish.rs` → `eilish_scene.dfy` (`EilishScene`): the same shape,
  with `Update`, `Step`, `Run` and lemmas about `Run`.

Representation choices:

- The Rust `CombatData` struct is held by value inside the game state. It is a
  datatype here, and `Update` reassigns the `combatData` field one field at a time.
- `CombatTurn` is a datatype with exactly the five variants. Dafny datatype
  equality is structural, like the derived `PartialEq`.
- Both timers are `f32` in the source. They are only ever set to 0.0 or 300.0
  or stepped by 1.0, so they are exact integers and are modelled as `int`.
- `sans_shake` only takes the values 10.0 − 0.5·k and 0. It is modelled as
  `sansShakeHalves`, counted in steps of 0.5, so 10.0 is 20.
- Positions are `real`. The distance test `sqrt(dx²+dy²) < 120` is stated as
  `dx²+dy² < 14400`, which is the same test over the reals.
- The random pick `gen_range(0..8)` becomes a parameter of type `LineIndex`
  (an integer in 0..7). `is_key_pressed` becomes a `Keys` record of booleans
  for the frame.

## Model

| member | source | states |
|---|---|---|
| `Combat.New` | src/combat.rs:28-42 | A fresh encounter is in the Menu with the cursor on Fight, has 20 of 20 HP for the player and 1 of 1 for Sans, timer and shake at 0, the "bad time" dialogue line and an empty action text, and satisfies the invariant `Valid` |
| `CombatScene.MoveCursor` | src/scenes/combat.rs:20-29 | Starting in 0..2, the cursor stays in 0..2. Left is applied before Right: Left takes it to max(c−1, 0), then Right to min(c+1, 2). With neither key pressed it does not move |
| `CombatScene.Decay` | src/scenes/combat.rs:72-74 | The shake drops by exactly one half-step while positive. It is left alone at or below 0, so from a non-negative value it never goes negative |
| `CombatScene.Step` | src/scenes/combat.rs:13-77 | One frame. HP fields are never written and `Valid` is preserved. Menu without confirm moves only the cursor. Menu with confirm acts on the already moved cursor: Fight sets timer 0, the MISS text and a shake that ends the frame at 19 half-steps (9.5). Act and Mercy set their texts and leave the timer. A confirm in Fighting or Acting enters SansTurn with timer 0 and "heh heh heh...". Mercy's confirm and phases without a confirm leave everything but the shake. SansTurn adds 1 to the timer and turns to Menu with the "sins" line once it exceeds 120 |
| `CombatScene.Update` | src/scenes/combat.rs:13-77 | The imperative frame on the game state. It writes only the encounter, the scene and the player position, and the encounter becomes `Step` of the old one. A confirm in Mercy sets the scene to Desktop and the player's x to 700 and keeps y. Otherwise scene and position are unchanged |
| `CombatScene.OneButtonHighlighted` | src/scenes/combat.rs:120-132 | In the Menu exactly one of the three buttons is drawn highlighted. In any other phase none is |
| `CombatScene.ShownTextAfterStep` | src/scenes/combat.rs:106-109 | The text box shows the MISS line right after a Fight starts, the taunt right after the enemy turn begins, and the "sins" line when the Menu returns |
| `CombatScene.Run` | src/scenes/combat.rs:13-77 | Over any number of frames the invariant `Valid` holds and no HP value changes |
| `CombatScene.EnemyTurnHolds` | src/scenes/combat.rs:63-69 | While the timer has not passed 120, the enemy turn goes on whatever is pressed. Each frame adds exactly 1 to the timer and leaves cursor and texts alone |
| `CombatScene.EnemyTurnEnds` | src/scenes/combat.rs:63-69 | Entered with timer 0, the phase is still SansTurn after each of the first 120 frames. The 121st frame brings the Menu back with the "sins" line and the cursor where it was |
| `CombatScene.RightRepeated` | src/scenes/combat.rs:25-29 | Pressing Right n times in the Menu puts the cursor at min(c+n, 2) |
| `CombatScene.LeftRepeated` | src/scenes/combat.rs:20-24 | Pressing Left n times in the Menu puts the cursor at max(c−n, 0) |
| `CombatScene.WaitingDecaysShake` | src/scenes/combat.rs:50-62 | In Fighting, Acting or Mercy, frames without a confirm change nothing but the shake, which ends at max(s−n, 0) |
| `CombatScene.ShakeRunsOut` | src/scenes/combat.rs:63-74 | During the enemy turn the shake drops half a step per frame and rests at 0 |
| `CombatScene.FightRound` | src/scenes/combat.rs:30-69 | Phase order of a Fight round: confirm on Fight, confirm again, then 121 enemy-turn frames. This gives the Menu again with the cursor on Fight, the "sins" line shown, the MISS action text, the shake spent and HP unchanged |
| `EilishScene.Step` | src/scenes/eilish.rs:11-51 | One frame. Off stage 4 nothing changes. An in-range F press opens the bubble even if already open: it is talking with timer 299 (300 less the same frame's tick) and the picked line from the pool. Out of range it is closed, with timer and line untouched. In range without F, an open bubble ticks down by 1 and closes exactly when the timer reaches 0, and a closed one is unchanged. The line changes only on a trigger. The invariant "open implies 1..299 frames left" is preserved |
| `EilishScene.Update` | src/scenes/eilish.rs:11-51 | The imperative frame on the game state. It writes only the three dialogue fields, never the positions or the stage, and they become `Step` of the old ones |
| `EilishScene.Run` | src/scenes/eilish.rs:11-51 | Over any number of frames, off stage 4 nothing changes. The open-bubble invariant holds, and the line shown is the old one or one of the eight pool lines |
| `EilishScene.Countdown` | src/scenes/eilish.rs:45-50 | An open bubble with t frames left, with the player in range and no F, loses exactly one frame per update and stays open until the t-th update closes it |
| `EilishScene.TalkLastsDialogueFrames` | src/scenes/eilish.rs:20-50 | After one trigger and staying in range without F, the bubble shows the picked line. It is open after each of the first 299 updates, and the 300th update, counting the trigger, closes it |
| `EilishScene.IdleStaysIdle` | src/scenes/eilish.rs:20-50 | While closed, frames without an in-range F press change nothing: no line is picked and no timer runs |
| `EilishScene.LeavingCloses` | src/scenes/eilish.rs:38-43 | Out of range, an open bubble closes at once whatever time it had left, and timer and line keep their values |

## Left out

- Both `draw` functions (src/scenes/combat.rs:79-170, src/scenes/eilish.rs:53-111) are mesh, text and texture calls at fixed screen coordinates. Only the choice of shown text (`ShownText`) and the button highlight (`Highlighted`) are kept.
- The fade overlay `fade_alpha -= 0.02` at the top of the combat update (src/scenes/combat.rs:14-16) is float-only presentation and is not modelled. Nothing in the turn logic reads it.
- The random shake jitter (`gen_range(-5.0..5.0)`) and the HP-percent bar are presentation and floating point.
- `rand::thread_rng` in the dialogue update is replaced by the `pick` parameter in 0..7. Uniformity of the pick is not modelled.
- `tetra::input::is_key_pressed` is replaced by the `Keys` record of the frame. Debouncing is the input layer's job and is not modelled.
- `f32` rounding is not modelled. The timers and the shake only take values that `f32` represents exactly. The distance test ignores rounding of `dx*dx + dy*dy`.
- `sub_menu_selection` (src/combat.rs:20) is never read or written by the modelled code and is not part of the record.
- The rest of the game state, the scene dispatcher that calls the updates, and the construction of `GameState` (including the dialogue fields' initial values) are not part of this model.
