# Capman gameplay core in Dafny

A model of the gameplay logic of Capman, a maze game built on the Bevy
engine. It covers:

- the text-layout parser that builds the maze board, and the cell lookup on that board;
- the player's buffered turns and on-the-spot reversals;
- the enemy's random choice of heading;
- the per-frame displacement of every moving entity;
- pickup and enemy collisions and the scoring they cause;
- the pause/lives event system;
- the sprite frame-index arithmetic and the player's facing;
- the mapping from held keys to a direction request.

Each Dafny module follows one source file:

| module | source file | form |
|---|---|---|
| `Boards`, `Assets` | src/board.rs | The parser is a set of methods with loops: `FromLayout`, `ReadRows`, `ReadRow`, `PushRow`. Each is proved against a declarative description of the layout: accepted lines, the glyph table, and the first failure. Lookups are functions. |
| `Movement` | src/movement.rs | `Direction` is a class updated in place. The movement system is a method over `Body` objects. Transforms are functions. |
| `Players` | src/player.rs | The two heading updates are methods on `Direction`, specified by the functions `TurnedHeading` and `SteerAll`. |
| `Enemies`, `EnemySteering` | src/enemies.rs | The enemy record is a value. The steering method filters and then picks nondeterministically. |
| `Collision` | src/collision.rs | Its methods write the score and return the despawned entities and the death events. |
| `Pickups` | src/pickup.rs | Values only. |
| `States` | src/state.rs | `GameGlobals` is a class. The event loop is a method. |
| `SpriteSheets` | src/spritesheet.rs | The animator and the atlas are classes. The frame arithmetic is functions. |
| `Input` | src/input.rs | A function from the set of held keys to an optional event. |
| `Config` | src/main.rs:51-64 | The game constants. |
| `Wrappers` | — | `Option` and `Result`. |

Modelling conventions:

- f32 quantities are `real`. An `as usize` truncation is `Floor`, clamped to 0 for negative values.
- Text is a sequence of `char`. The source's `len()` is measured in UTF-8 bytes, modelled by `Boards.Utf8Len`. `chars().nth` and `chars().enumerate()` index by character.
- `str::lines` is modelled as Rust defines it. It splits at `\n`, drops one `\r` before each `\n`, and adds no empty line after a final `\n`.
- A panic of the source (`assert!`, `unreachable!`) becomes the `Err` of a `Result`: `InvalidBoardLine`, `InvalidCell` or `InvalidWallType`.
- The source calls four helpers that it never defines: `Position::get_target_cell`, `Board::get_neighbours`, `Position::get_distance` and `Direction::is_opposite`.
  - The first three become function parameters, and nothing is assumed about them.
  - "Opposite" is the four pairs listed at src/player.rs:111-115 (`Movement.IsOpposite`).
- `Board::get_cell(&Position)` is `get_cell(x, y)` at the position's coordinates (`Boards.GetCellAt`).
- `Collider::new` is the constructor of the `Collision.Collider` datatype. It keeps its distance.

`get_char` (src/board.rs:141-150) is modelled as written:

- It indexes the raw layout text at `row * (columns + 1) + column`.
- `row` is the number of rows accepted so far. Any skipped line (blank, glyph-free or `//` comment) above a junction therefore shifts the lookup, and so does a `\r\n` line ending.
- The model keeps this behaviour and does not correct it.

## Model

| member | source | states |
|---|---|---|
| Boards.RowMajorBound | src/board.rs:105 | For an in-bounds row and column, the row-major index `row * columns + column` lies inside a `rows * columns` cell vector. |
| Boards.CellAt | src/board.rs:105 | The stored cell at an in-bounds row and column is never the `Outside` sentinel. |
| Boards.GetCell | src/board.rs:98-106 | The result is `Outside` exactly when `x < 0`, `x >= columns`, `y < 0` or `y >= rows`. Otherwise it is the cell at row `floor(y)`, column `floor(x)`, and both indices are in range. |
| Boards.GetDimensions | src/board.rs:108-110 | Returns exactly (rows, columns), whose product is the number of stored cells. |
| Boards.CellPositionRoundTrip | src/board.rs:54-61 | The position the spawner computes for the index-th cell (column `index % columns`, row `index / columns`) looks up that same cell again. |
| Boards.GetAsset | src/board.rs:201-214 | No asset exactly for `Empty` and `Outside`. Every other cell has a maze texture, never the player's. |
| Boards.AssetsDistinct | src/board.rs:202-211 | Different drawn cells map to different assets. |
| Boards.SpawnPickup | src/board.rs:76-91 | A pickup is spawned exactly on Dot and PowerPill cells, at the cell's position and with the pickup radius. It is worth the dot score or the power-pill score, with the matching marker. |
| Boards.Utf8LenAscii | src/board.rs:164-167 | For ASCII lines the byte length that fixes `columns` equals the number of characters, and so the number of cells pushed. |
| Boards.LinesHaveNoLineFeed | src/board.rs:159 | No line yielded by the line splitter contains a line feed. |
| Boards.AcceptedStep | src/board.rs:159-162 | A line with no wall, dot or power-pill glyph, or one starting with `//`, adds no row. Every other line becomes the next row. |
| Boards.AcceptedAppend | src/board.rs:159-162 | The accepted lines of two concatenated inputs are the concatenation of their accepted lines. |
| Boards.AcceptedAt | src/board.rs:159-162 | An accepted line sits in the accepted list right after the lines accepted before it. |
| Boards.WallTypeOf | src/board.rs:124-138 | No corner exactly when none of the four corner patterns connects. Each result is backed by its pattern (TopLeft by down/right, and so on). A junction never becomes a straight wall. |
| Boards.TopLeftHasPriority | src/board.rs:125 | First match wins: a vertical bar below and `-` to the right give TopLeft whatever is above or to the left. |
| Boards.GetChar | src/board.rs:141-150 | A space for a negative row, a negative column or a column past the width. Any other glyph is the raw text at index `row * (columns + 1) + column`, which must lie inside the text. |
| Boards.GetWallType | src/board.rs:119-139 | A junction resolves to the corner `WallTypeOf` gives for the four glyphs above, below, left and right of it (read by `GetChar` at row ± 1 and column ± 1), never a straight wall. When no pattern matches it fails with `InvalidWallType`. |
| Boards.PlainWallsBeforeJunctions | src/board.rs:125-132 | The plain-wall patterns win over those with a junction neighbour: a vertical bar below, `-` to the left and `+` to the right give TopRight, not TopLeft. |
| Boards.CellFor | src/board.rs:172-192 | A glyph builds a cell only if it is a wall glyph, `O`, `.`, a space or `1`, and the cell is never `Outside`. |
| Boards.GlyphTable | src/board.rs:172-192 | The full glyph table: `-` Horizontal, vertical bar Vertical, `+` a corner, `O` PowerPill, `.` Dot, space or `1` Empty. Any other glyph is `InvalidCell`. For `+` the cell is the wall of the corner `GetWallType` resolves, and its failure is passed on unchanged. |
| Boards.LineSpawnsExact | src/board.rs:183-188 | A line spawns an enemy at (column, row) for each `1` it holds, and nothing else. |
| Boards.GridSpawnsExact | src/board.rs:183-188 | The board's enemies are exactly the `1` glyphs of the accepted rows, at their column and row. |
| Boards.FlattenLength | src/board.rs:193-195 | Rows of one width push `rows * width` cells. |
| Boards.FlattenIndex | src/board.rs:193-195 | Row r, column c of the pushed rows lands at index `r * width + c`. |
| Boards.RowCellsBuilt | src/board.rs:171-194 | In a line that builds, the c-th pushed cell is what glyph c builds. |
| Boards.PushRow | src/board.rs:171-194 | The inner loop succeeds exactly when every glyph of the line builds. It pushes one cell per glyph in order, each one what its glyph builds, and one enemy per `1`. On failure the error is that of the first glyph that fails. |
| Boards.BuiltExtend | src/board.rs:163-195 | Pushing one more accepted, well-formed line preserves the parser invariant: rows, row-major cells and enemies all agree with the layout. |
| Boards.BuildFails | src/board.rs:163-170 | A failing row after rows that all built makes the layout invalid, and its error is the layout's first failure. |
| Boards.BuiltBoard | src/board.rs:159-197 | Once every accepted row is built, the board is the one the layout describes. |
| Boards.ReadRow | src/board.rs:163-195 | The first accepted line fixes `columns` to its byte length. A later line of another length fails with `InvalidBoardLine(row)`. Otherwise the row is pushed and the invariant holds for one more row. |
| Boards.ReadRows | src/board.rs:159-196 | The line loop either reads every accepted line, ending with `columns` the first row's width and `rows` the number of accepted lines, or stops at the first failing row with every earlier row built. |
| Boards.FromLayout | src/board.rs:117-198 | Parsing succeeds exactly when the layout is valid. It then yields a board with one row per accepted line, all as wide as the first, every cell the one its glyph builds, `cells.len() == rows * columns`, and one enemy per `1`. Otherwise it reports the first failure in reading order. |
| Movement.Opposite | src/player.rs:111-115 | Each heading has exactly one opposite under the four reversal pairs, and the pairing is symmetric. |
| Movement.Direction.constructor | src/movement.rs:44-46 | Stores `current` and `next` as given. |
| Movement.GetTransform | src/movement.rs:60-66 | The transform is the pixel centre of the cell square, `(16x + 8, -8 - 16y, 0)`. |
| Movement.TransformRoundTrip | src/movement.rs:60-66 | The position can be recovered from its transform. |
| Movement.TransformMonotone | src/movement.rs:60-66 | Screen x rises strictly with x, and screen y falls strictly with y. |
| Movement.Displaced | src/movement.rs:80-87 | Only the coordinate on the heading's axis changes. It rises by `velocity * dt` for Down and Right and falls by it for Up and Left. The Manhattan distance moved is the absolute value of `velocity * dt`. |
| Movement.ReversalCancels | src/movement.rs:80-87 | A frame of travel followed by an equal frame in the opposite heading returns to the start. |
| Movement.UpdatePosition | src/movement.rs:75-90 | Every body of the query moves by `Displaced` along its current heading; the buffered next heading and the board play no part. Its transform is reset to `GetTransform` of the new position. |
| Players.TurnedHeading | src/player.rs:41-50 | The result is the current or the requested heading. It is the requested one exactly when the two already agree or the target cell is not a wall. |
| Players.UpdateDirection | src/player.rs:41-50 | Nothing changes when current equals next. Otherwise current becomes next unless the cell one step towards next is a Wall. Next is never written. |
| Players.TurnTowardsEdgeAllowed | src/player.rs:46-48 | A target cell off the board is `Outside`, which is not a wall, so that turn is always taken. |
| Players.Steer | src/player.rs:109-119 | One event changes the current heading exactly when it asks for the reverse, and then to that reverse. |
| Players.SteerAll | src/player.rs:101-120 | Any batch of events leaves the current heading on its axis: the same heading or its reverse. |
| Players.PlayerMovementControl | src/player.rs:96-121 | An empty batch changes nothing. After a non-empty batch, next is the direction of the last event. Current is the result of steering through the events in order. |
| Players.NoReversalKeepsHeading | src/player.rs:111-118 | A batch with no reversal request (same or perpendicular headings only) leaves the current heading untouched. |
| Players.SteerAllAppend | src/player.rs:101-120 | Steering through two batches in turn is steering through their concatenation. |
| Players.ReverseTwice | src/player.rs:111-117 | Asking for the reverse and then for the original heading returns to the original heading. |
| Enemies.NewEnemy | src/enemies.rs:26-31 | Keeps the start position and always sets the Random strategy, ignoring the strategy argument. |
| EnemySteering.RetainOpen | src/enemies.rs:44-45 | Keeps exactly the neighbours whose cell is neither a Wall nor `Outside`. |
| EnemySteering.RetainNotOpposite | src/enemies.rs:46 | Keeps exactly the neighbours whose heading does not reverse the current one. |
| EnemySteering.CandidatesExact | src/enemies.rs:43-46 | A candidate is exactly a neighbour with an open cell whose heading is not the reverse of the current one. |
| EnemySteering.Choices | src/enemies.rs:43-48 | The headings that can be picked are never the reverse, and each leads to a neighbour cell that is neither a Wall nor `Outside`. Every open, non-reversing neighbour's heading is among them. They are empty exactly when no candidate survives. |
| EnemySteering.DeadEndHasNoChoice | src/enemies.rs:46-48 | At a dead end, where only the way back is open, no candidate survives, so the source's `unwrap` would panic. |
| EnemySteering.CorridorKeepsHeading | src/enemies.rs:43-48 | In a corridor whose open cells are straight ahead or straight back, the only choice is to keep the heading. |
| EnemySteering.UpdateDirection | src/enemies.rs:40-51 | Given a non-empty candidate list, the new current heading is one of the candidates' headings: it leads to an open cell and does not reverse. Only `current` is written. |
| Collision.Gain | src/collision.rs:43-54 | The score one pickup pass adds is never more than the total value of the pickups queried. |
| Collision.Consumed | src/collision.rs:43-54 | The despawned entities are exactly those of the pickups strictly within their radius. |
| Collision.Hits | src/collision.rs:55-59 | The number of deaths is at most the number of enemies, and zero exactly when no enemy is strictly within its radius. |
| Collision.RemainingOutOfRange | src/collision.rs:43-54 | The pickups a pass leaves are exactly those at distance at least their radius. |
| Collision.GainConserved | src/collision.rs:43-54 | The score gained plus the value left on the board equals the value before the pass. |
| Collision.GainExtremes | src/collision.rs:43-54 | With every pickup in range the pass takes the whole value. With none in range it scores and despawns nothing. |
| Collision.SecondPassFindsNothing | src/collision.rs:43-54 | Each pickup is consumed at most once: a second pass from the same place finds nothing to score or despawn. |
| Collision.ConsumePickups | src/collision.rs:43-54 | One pickup loop adds exactly the values of the in-range pickups to the score and despawns exactly them, in query order. |
| Collision.EnemyHits | src/collision.rs:55-59 | One `PlayerDies` event per in-range enemy, with no early exit. |
| Collision.PlayerCollisionDetection | src/collision.rs:33-60 | The score rises by the in-range power pills plus the in-range dots. Exactly those are despawned, and one death is reported per in-range enemy. Only the score is written. |
| Collision.CollisionSystem | src/collision.rs:15-18 | The system does nothing while Paused. While Running it runs the full pass: the score rises by the gain of both pickup kinds, exactly the in-range pickups are despawned, and one event per in-range enemy is sent, every one of them `PlayerDies`. |
| Pickups.GetValue | src/pickup.rs:12-14 | The reported value is the one the pickup was built with, and it determines the pickup. |
| Pickups.GetValueOfNew | src/pickup.rs:9-14 | `get_value(Pickup::new(v)) == v`. |
| States.Toggled | src/state.rs:46-52 | A pause toggle always switches to the other state. |
| States.GameGlobals.constructor | src/state.rs:16-19 | The globals start with score 0, both flags off and `INTIAL_LIVES` (2) lives. |
| States.ProcessGameEvents | src/state.rs:38-58 | Lives fall by exactly the number of `PlayerDies` events, with no floor. Any toggle in the batch sets the pending state to the toggle of the state the frame started in, so toggles do not cancel. Without a toggle the pending state is untouched. Score and flags are never written. |
| SpriteSheets.TruncToUsize | src/spritesheet.rs:38 | Zero for negative values. Otherwise the greatest integer not above the value. |
| SpriteSheets.FrameCount | src/spritesheet.rs:38 | The elapsed frame count is the whole part of `time * frame_rate`. |
| SpriteSheets.PingPongIndex | src/spritesheet.rs:42-48 | The PingPong frame is always below the animation length. |
| SpriteSheets.FrameIndex | src/spritesheet.rs:41-52 | Both strategies select a frame below `1 + end - start`. |
| SpriteSheets.SpriteSheetAnimator.UpdateIndex | src/spritesheet.rs:36-54 | The clock advances by exactly `delta`. The atlas index becomes the strategy's frame for the truncated frame count, which is below `1 + end - start`. |
| SpriteSheets.SpriteSheetAnimator.constructor | src/spritesheet.rs:25-33 | An animator built from a range, rate and strategy starts with its clock at 0. |
| SpriteSheets.PingPongOnePeriod | src/spritesheet.rs:42-48 | Over one period of `2 * len` frames PingPong runs 0 up to `len - 1`, then back down. |
| SpriteSheets.PingPongPeriod | src/spritesheet.rs:42-48 | PingPong repeats with period `2 * len`. |
| SpriteSheets.PingPongMirror | src/spritesheet.rs:42-48 | Within a period, frame t equals frame `2 * len - 1 - t`. |
| SpriteSheets.FirstPassShowsEachFrame | src/spritesheet.rs:41-53 | For the first `len` frame counts both strategies show frame t itself. Indices run over `0 .. len - 1`, not `start .. end`. |
| SpriteSheets.Orientation | src/spritesheet.rs:78-83 | The sprite is mirrored exactly for Right. The rotation is 270 degrees for Up, 90 for Down and 0 for Left and Right. |
| SpriteSheets.OrientationInjective | src/spritesheet.rs:78-83 | No two headings share a facing. |
| SpriteSheets.UpdatePlayer | src/spritesheet.rs:64-88 | The sprite takes the facing of the current heading, and the animator advances by the frame time. |
| SpriteSheets.AnimateIfRunning | src/spritesheet.rs:11-15 | The animation runs only when the player is Moving and the game is Running, and then the sprite faces the current heading, the clock advances by the frame time and the atlas shows the strategy's frame for the new clock. Otherwise nothing changes. |
| Input.ReadInputs | src/input.rs:20-33 | At most one event. It is Left if A or ArrowLeft is held. Otherwise Right if D or ArrowRight is held, otherwise Up (W, ArrowUp), otherwise Down (S, ArrowDown), otherwise none. Each outcome holds exactly under its condition. |
| Input.ArrowsAreLetters | src/input.rs:24-31 | Replacing every arrow key by its letter key never changes the event. |
| Input.OtherKeysIgnored | src/input.rs:24-32 | Keys other than the eight direction keys never change the event. |
| Input.LeftDominates | src/input.rs:24-25 | With a left key held the event is Left, whatever else is held. |

## Left out

- Bevy plumbing is not modelled: plugins, system registration, `Commands`, sprite bundles, texture-atlas layouts, the spawn systems (except the index arithmetic of src/board.rs:58-59 and the pickup table at src/board.rs:76-91), and event queues (modelled as sequences).
- The spawn constants `STARTING_POSITION_X`, `STARTING_POSITION_Y`, `STARTING_DIRECTION` and `PLAYER_VELOCITY` (src/main.rs:55-58) feed only the player and enemy spawn systems, which are not modelled, so the model does not declare them. `ENEMY_RANGE` (src/main.rs:64) is used nowhere in the source.
- src/camera.rs, src/ui.rs, src/debug.rs and src/game_assets.rs are not part of this model. `GameAssets` is an opaque enumeration and asset loading is I/O.
- Floating point is not modelled: f32 positions, times, speeds and rates are exact reals. Rotations are whole degrees rather than radians in a quaternion.
- The three undefined helpers `get_target_cell`, `get_neighbours` and `get_distance` are parameters with no properties assumed. `is_opposite` is taken from the reversal pairs of src/player.rs:111-115.
- The `MovableObject` trait and the system that would call `update_direction` each frame are not in the source, so no per-frame driver for the two `update_direction` methods is modelled.
- `Enemy::new` takes two arguments at src/enemies.rs:26 but is called with one at src/board.rs:186. The model passes `Random` at the call site, which `Enemy::new` ignores in any case.
- EnemySteering.UpdateDirection: `thread_rng` is a nondeterministic choice. The method requires a non-empty candidate list, because the source unwraps the pick and panics otherwise.
- SpriteSheets.TruncToUsize: the saturation of `as usize` at `usize::MAX` and the NaN case are not modelled; values above `usize::MAX` keep their whole part.
- SpriteSheets.SpriteSheetAnimator.UpdateIndex: requires `start <= end`. With `start == end + 1` the length is zero and the division panics. With `start > end + 1` the subtraction underflows, which panics in a debug build and wraps around in a release build; the wrapped length is not modelled.
- Collision.PlayerCollisionDetection: `score` is an unbounded natural. The overflow of the `usize` counter is not modelled.
- States.ProcessGameEvents: `lives` is an unbounded integer, and the wrap of the `isize` counter is not modelled. `NextState` is an `Option` the method returns.
- Boards.GetCell: `as usize` on the in-range coordinates is `Floor`, and the index arithmetic is unbounded.
- The `Velocity` wrapper is the `velocity` field of `Movement.Body`. The `Dot` and `PowerPill` markers are `Pickups.PickupKind`.
