# terminal.pong — a verified model of the Pong engine

This project models the integer core of the terminal Pong game, a Rust application:

- the current engine in `src/game.rs`: the `Game` aggregate with two players, a ball, the playfield rectangle and a pause flag. Its operations are `Game::new`, `move_player`, the physics step `update_ball_position`, `power_move` and the ticked `update_game_state`.
- the older engine in `src/main.rs`: the `App` methods `move_up`, `move_down`, `power_move`, `update_ball_position` and `update_game_state` on a fixed 138 × 26 interior, with the points held apart from the players.
- the helpers in `src/helpers.rs`: `string_to_char_array`, `centered_rect` and `centered_rect_with_percentage`.

## How the model is organised

Modules and files:

- `rust_prims.dfy` (`RustPrims`): Rust's fixed-width integers as subset types of `int`. It also holds the saturating add, saturating subtraction and `clamp`. Each is specified as "the point of the range nearest to the exact value".
- `helpers.dfy` (`Helpers`): the three helpers, plus `Vec::resize`.
- `game.dfy` (`PongGame`): the current engine.
- `game_laws.dfy` (`GameLaws`): the properties of the current engine.
- `play.dfy` (`PongPlay`): a match as a sequence of moves, power moves and ticks, and the invariants that hold over every such sequence.
- `app.dfy` (`PongApp`): the older engine.
- `app_laws.dfy` (`AppLaws`): the properties of the older engine.

Every state-changing operation that a property is proved about appears twice:

- as a function from the old state value to the new one (`AfterMove`, `AfterBallStep`, …), about which the properties are proved;
- as a method of a class (`Game`, `App`) that updates its fields and arrays in place, in the source's order and with its early returns. Each method's postcondition is `View() == AfterX(old(View()), …)`.

Two methods, `Game.SetArea` and `Game.ReadyPlayer`, are exceptions. No property is proved about them, so they exist only as methods, and their postconditions state the new state directly as `View() == old(View()).(…)`.

Integers: positions are `u16`, velocities `i8` (current engine) or `i16` (older engine), charges `u8`, scores `u32`, points `i64`. Where Rust arithmetic would panic on overflow or underflow, the operation has a precondition. Examples:

- `height - 2` and `width - 2 - 5` in the physics step;
- `-velocity` at the type's minimum;
- `score += 1` at the maximum.

Reachable states keep invariants (`WellFormed`, `Inv`) that rule these out where the source guarantees it.

External inputs:

- The clock of the tick gate is an integer millisecond reading passed in.
- The random re-serve draw of `update_ball_position` is the parameter `randomNumber` in `0..=1`.
- The direction produced by `generate_direction` in the older engine is the parameter `direction`. `generate_direction` is not part of this model; its value only has to keep `direction * 3` inside `i16`.
- The computer controller is a function parameter (`Agent`): given the ball and the paddle row, it returns the row it aims at. Only the final clamp of the controller is modelled.

Behaviour kept exactly as written:

- The right paddle resets the ball's horizontal speed to `-3` whatever it was. The left paddle only negates the speed, so a powered `-6` leaves at `+6`.
- The collision and power tests use the literal 5 for the paddle height, not `bar_length`.
- `power_move` tests the band `3 < x < 6` next to the left paddle and a leftward velocity, whichever player calls it.
- The older engine's wall bounce keeps the ball on its old row, where the current engine pins it to the edge row. Its paddle tests look at the row the wall step has already written.
- `is_paused` is set by `Game::new` and never read by any modelled operation.

## Model

| member | source | states |
|---|---|---|
| RustPrims.NearestInUnique | src/game.rs:189-190 | at most one point of a range is nearest to a target, so the saturating and clamping contracts below fix their result |
| RustPrims.SaturatingAddSigned | src/game.rs:189-190 | `saturating_add_signed` yields the `u16` nearest to the exact sum, never moving against the sign of the addend |
| RustPrims.SaturatingSub | src/game.rs:89 | `saturating_sub` yields the `u16` nearest to the exact difference |
| RustPrims.Clamp | src/game.rs:355-360 | `clamp` yields the point of `[lo, hi]` nearest to the value, and is only defined for `lo <= hi` |
| Helpers.CenteredRect | src/helpers.rs:11-15 | the rectangle keeps the requested size, fits inside the area, and its left/top margin is at most one cell narrower than its right/bottom margin; it requires the size to fit (no `u16` underflow) |
| Helpers.CenteredRectWithPercentage | src/helpers.rs:5-9 | width is `cols * percent_x / 100`; height is at most `rows`, at least `min(5, rows)`, at least `min(percentage, rows)` and at most `max(percentage, 5)`, which together fix it at `min(max(percentage, 5), rows)`; the rectangle fits and is centred |
| Helpers.PercentOfAtMost | src/helpers.rs:6 | a percentage of at most 100 never asks for more columns than there are |
| Helpers.Resize | src/helpers.rs:19 | `Vec::resize` has exactly the new length, keeps the common prefix and pads with the fill |
| Helpers.StringToCharArray | src/helpers.rs:17-23 | the name array has exactly 16 characters, the first `min(|s|, 16)` equal to `s` in order, and spaces at every index at or past `|s|` |
| Helpers.StringToCharArrayKeepsFullNames | src/helpers.rs:17-23 | a 16-character name is returned unchanged |
| Helpers.StringToCharArrayIdempotent | src/helpers.rs:17-23 | converting a converted name again changes nothing |
| PongGame.NewGame | src/game.rs:73-133 | both scores 0, 10 power moves, paddle length 5, neither player flagged `is_computer`, paddles centred (`height/2 - 2`, saturating); names padded; only player 2 starts ready; player 2 has a controller iff `AgainstAi` or `ScreenSaver`, player 1 iff `ScreenSaver`; paused; ball at `[70,14]` with velocity `[3,1]`, unpowered |
| PongGame.AfterMove | src/game.rs:156-175 | a move keeps the state well formed and changes nothing but the moved player's paddle row |
| PongGame.AfterWalls | src/game.rs:189-198 | after the wall step the ball is at most on row `inner_height - 1`, and its column, horizontal speed and power are untouched |
| PongGame.AfterBallStep | src/game.rs:182-244 | a step keeps the state well formed, changes no player but in the score, grows at most one score by exactly one, and leaves the ball on a row inside the interior |
| PongGame.AfterComputerPlayer | src/game.rs:246-360 | a controlled paddle ends inside the interior (`bar_position + bar_length <= height - 2`); only that paddle's row changes; a manual player is left alone |
| PongGame.AfterTick | src/game.rs:363-371 | a tick keeps the state well formed, the area and the controllers, grows at most one score by one, and records the clock reading exactly when it was due; it changes no charge, name, ready flag or pause flag, only scores and paddle rows |
| PongGame.AfterPowerMove | src/game.rs:373-391 | a power move keeps the state well formed and changes only the ball and the calling player's charges |
| PongGame.Game.constructor | src/game.rs:73-133 | the new object's state is `NewGame`'s |
| PongGame.Game.SetArea | src/game.rs:140-142 | only the area changes |
| PongGame.Game.ReadyPlayer | src/game.rs:152-154 | only that player's ready flag is set |
| PongGame.Game.MovePlayer | src/game.rs:156-175 | the in-place update yields `AfterMove` of the old state |
| PongGame.Game.UpdateBallPosition | src/game.rs:182-244 | the in-place update, with its early returns, yields `AfterBallStep` of the old state and returns its reported hit |
| PongGame.Game.UpdateComputerPlayer | src/game.rs:246-360 | the in-place update yields `AfterComputerPlayer` of the old state |
| PongGame.Game.UpdateGameState | src/game.rs:363-371 | the in-place update yields `AfterTick` of the old state |
| PongGame.Game.PowerMove | src/game.rs:373-391 | the in-place update yields `AfterPowerMove` of the old state |
| GameLaws.MoveDirections | src/game.rs:156-175 | direction 0 is a no-op; up moves one row iff the paddle is below row 0; down moves one row iff `bar_position + bar_length < height - 2`, else nothing |
| GameLaws.MoveKeepsPaddleInside | src/game.rs:156-175 | a paddle inside the interior stays inside after any move, and moves at most one row |
| GameLaws.WallStep | src/game.rs:189-198 | a candidate row 0 flips `vy` and puts the ball on row 0; a positive candidate row of at least `inner_height - 1` flips `vy` and puts it on row `inner_height - 1`; any other candidate row is taken with `vy` kept |
| GameLaws.LeftPaddleHit | src/game.rs:189-206 | the step reports `Some(1)` iff the left collision test holds; then `vx` is negated (its magnitude kept), `x` is 5, power and players unchanged, and the row and `vy` are as the wall step left them |
| GameLaws.RightPaddleHit | src/game.rs:189-217 | the step reports `Some(2)` iff the left test fails and the right one holds; then `vx` is `-3`, `x` is `inner_width - 5`, unpowered, players unchanged, and the row and `vy` are as the wall step left them |
| GameLaws.Miss | src/game.rs:220-238 | a candidate column `<= 0` adds exactly 1 to player 2's score, `>= inner_width` exactly 1 to player 1's, the other unchanged; the ball goes to `[inner_width/2, inner_height/2]` with `vx = ±3` by the draw, unpowered, `vy` as the wall step left it; no hit |
| GameLaws.Advance | src/game.rs:239-243 | with neither hit nor miss the state differs only in the ball, which takes its candidate column after the wall step; no hit |
| GameLaws.ScoresChangeOnlyOnMiss | src/game.rs:200-238 | after a reported hit the players are unchanged; player 1's score grows only on a right exit, player 2's only on a left exit |
| GameLaws.StepKeepsBallInField | src/game.rs:182-244 | on a field at least 8 wide every step leaves the ball strictly inside the interior columns and rows |
| GameLaws.LeftHitOnNarrowFieldLandsOnBorder | src/game.rs:200-206 | on a 7-wide field a left-paddle bounce puts the ball on column 5, the interior width, so the bound above cannot be lowered |
| GameLaws.PowerMoveEffect | src/game.rs:373-391 | a power move changes the game iff a charge is left and `vx < 0`, `y` is on the player's 5 rows and `3 < x < 6`; then `vx = 6`, powered, and exactly one charge is used; any change implies the left-side band whoever called |
| GameLaws.TickNotDue | src/game.rs:363-371 | before 33 ms have passed since the last tick nothing changes |
| GameLaws.TickOrder | src/game.rs:363-371 | a due tick ends with the stepped ball and scores, and each controlled paddle where its controller aims given the stepped ball, clamped to the interior; manual paddles stay |
| GameLaws.AtMostOneTickPerInterval | src/game.rs:363-371 | after a tick at `t1`, a call at any `t2` less than 33 ms later changes nothing |
| PongPlay.Apply | src/game.rs:156-391 | each move, power move or tick keeps the state playable and the area, and grows at most one score by one |
| PongPlay.Run | src/game.rs:156-391 | over any command sequence neither score decreases and their sum grows by at most the number of commands |
| PongPlay.NewGameStartsInside | src/game.rs:73-133 | a new game on a field of at least 73 × 17 starts with paddles and ball inside the interior |
| PongPlay.ApplyKeepsPlayInside | src/game.rs:156-391 | on a field at least 8 wide every command keeps both paddles and the ball inside the interior |
| PongPlay.RunKeepsPlayInside | src/game.rs:156-391 | on a field at least 8 wide any command sequence keeps paddles and ball inside the interior |
| PongPlay.ApplyNeverRefillsCharges | src/game.rs:373-391 | no command raises a charge, only a power move may lower one, and no command changes a name, a ready flag or the pause flag |
| PongPlay.RunNeverRefillsCharges | src/game.rs:373-391 | over any sequence of commands the charges never grow back, and names, ready flags and the pause flag stay as they were |
| PongPlay.NoTicksNoPoints | src/game.rs:156-391 | moves and power moves alone never change a score |
| PongApp.InitialApp | src/main.rs:36-78 | players named "Promethewz" and "Computer", padded, both paddles on row 0, points `[0,0]`, ball at `[70,14]` with velocity `[3,1]`, unpowered; the invariant holds |
| PongApp.AfterMoveUp | src/main.rs:232-237 | `move_up` keeps the invariant and changes only that paddle's row |
| PongApp.AfterMoveDown | src/main.rs:239-246 | `move_down` keeps the invariant (top row at most 21) and changes only that paddle's row |
| PongApp.AfterPowerMove | src/main.rs:248-261 | the power move keeps the invariant and changes only the ball |
| PongApp.AfterWalls | src/main.rs:275-283 | the older wall step keeps the ball above row 25 and leaves its column, horizontal speed and power untouched |
| PongApp.AfterBallStep | src/main.rs:268-330 | a step keeps the invariant and the players, and grows at most one point counter by one |
| PongApp.AfterComputerPlayer | src/main.rs:415-422 | the controller keeps the invariant (paddle within rows `0..=21`) and changes only the second paddle's row |
| PongApp.AfterUpdate | src/main.rs:263-266 | the update keeps the invariant and grows at most one point counter by one |
| PongApp.App.constructor | src/main.rs:36-78 | the new object's state is `InitialApp` |
| PongApp.App.MoveUp | src/main.rs:232-237 | the in-place update yields `AfterMoveUp` of the old state |
| PongApp.App.MoveDown | src/main.rs:239-246 | the in-place update yields `AfterMoveDown` of the old state |
| PongApp.App.PowerMove | src/main.rs:248-261 | the in-place update yields `AfterPowerMove` of the old state |
| PongApp.App.UpdateBallPosition | src/main.rs:268-330 | the in-place update, with its early returns, yields `AfterBallStep` of the old state |
| PongApp.App.UpdateComputerPlayer | src/main.rs:415-422 | the in-place update yields `AfterComputerPlayer` of the old state |
| PongApp.App.UpdateGameState | src/main.rs:263-266 | the ball step followed by the computer player yields `AfterUpdate` of the old state |
| AppLaws.MoveUpEffect | src/main.rs:232-237 | `move_up` moves one row up iff the paddle is below row 0, and otherwise changes nothing |
| AppLaws.MoveDownEffect | src/main.rs:239-246 | `move_down` moves one row down iff `bar_position + 5 < 26`, otherwise changes nothing; the top row never passes 21 |
| AppLaws.PowerMoveEffect | src/main.rs:248-261 | the ball changes iff `vx < 0`, `y` on player 1's 5 rows and `3 < x < 6`; then `vx = 6` and powered; paddles and points never change |
| AppLaws.PowerMoveIgnoresSecondPlayer | src/main.rs:248-261 | the second paddle plays no part in the power move |
| AppLaws.WallStep | src/main.rs:275-283 | at a candidate row 0 or at least 25 `vy` flips and the ball keeps its old row; otherwise it takes the candidate row |
| AppLaws.LeftPaddleHit | src/main.rs:285-294 | on a hit tested against the updated row, `vx` is negated, `x` becomes 5 and the points are unchanged |
| AppLaws.RightPaddleHit | src/main.rs:296-307 | on a right hit `vx` becomes `-3`, `x` becomes 133, unpowered, points unchanged |
| AppLaws.MissOrAdvance | src/main.rs:309-329 | candidate column 0 adds 1 to `points[1]`, at least 138 adds 1 to `points[0]`, and the ball goes to `[69,13]` with `vx = direction*3`, unpowered; otherwise the ball takes its candidate column and the points stay |
| AppLaws.UpdateOrder | src/main.rs:263-266 | the ball step runs before the computer player: the final ball and points are the stepped ones and the computer's paddle follows the stepped ball |

## Left out

- The computer controller's floating-point logic is not modelled: timers, fatigue, prediction, random jitter and `Instant` delta times (src/game.rs:254-354, src/main.rs:336-418). It is floating point and random. It is replaced by an arbitrary aim, followed by the final clamp and the truncating cast to `u16`.
- `Instant::now()` and `elapsed()` are replaced by an integer millisecond clock passed in.
- `rand::random_range(0..=1)` is replaced by the parameter `randomNumber`.
- `generate_direction` and `predict_ball_y_at_paddle` are not part of this model.
- The older engine's gate in `run` (src/main.rs:95-98) is not modelled. It sits in the terminal loop next to the size check and the drawing. The current engine's own gate in `update_game_state` is modelled.
- Terminal I/O, drawing and event handling are not modelled: `run`, `draw`, `draw_game_elements`, `show_terminal_resize_warning`, `handle_events`, key and mouse handlers, `get_block_title`, `main`.
- `src/game_theme.rs` (a colour table) and the `bar_color` / ball `color` fields are not modelled. They are never read by the logic.
- The getters `get_area`, `get_player` and `get_ball` are not modelled. They are plain reads of fields the model exposes.
- The timestamps `started_at`, `last_power_used_at` and `last_update` are not modelled: no modelled operation reads them. `last_update` is kept only as the integer clock reading of the tick gate.
- ratatui's `Rect::new` is modelled as a plain record that keeps the position and size it is given. Versions of the library differ in how they adjust a rectangle that does not fit: some shrink one whose far edge would overflow `u16`, releases up to 0.29 cap `width × height` at `u16::MAX`. The model assumes neither adjustment applies. That holds for the first kind, since every centred rectangle fits inside `cols × rows`, but not for the second when a rectangle covers more than 65535 cells.
- The older engine's `game_area` field (written by `draw`, only used for rendering) and the `exit` flag are not modelled.
- PongGame.AfterBallStep: requires both scores below `u32::MAX`. A debug build panics on the overflowing `score += 1` and a release build wraps to 0; the wrap is not modelled.
- PongApp.AfterBallStep: requires both point counters below `i64::MAX`, for the same reason.
- PongPlay.Run: covers moves, power moves and ticks only. `set_area` is not a command, for two reasons. The score bounds of `Run` need every state to keep `PlayableArea` and `AgentsFit`, which an arbitrary new area breaks. And a new area can leave paddles and ball outside it, which breaks `RunKeepsPlayInside`. `ready_player` is not a command because it only sets `is_ready`, which none of the commands reads. It cannot affect the score bounds or `RunKeepsPlayInside`. `RunNeverRefillsCharges` proves that ready flags stay as they were, and that holds only because `ready_player` is not a command.
