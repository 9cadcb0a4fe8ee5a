# wolf3djs `raycast.js` — a verified model of the tile map and the player

`raycast.js` holds the beginnings of a Wolfenstein-style game written for
p5.js: a fixed 11 × 15 tile map of 32-unit tiles (1 = wall, 0 = open floor),
a wall query `hasWallAt(x, y)`, a player object whose `update()` turns it
and moves it one step per frame unless the step would end inside a wall,
and the arrow-key handlers that set the player's walk and turn intents.
Despite the repository's name, the file contains no ray casting,
field-of-view sweep or wall projection; the model covers what the file
contains and nothing more.

Two modules:

- `Level` (`level.dfy`): the constants `TILE_SIZE`, `NUM_ROWS`, `NUM_COLS`,
  `WINDOW_WIDTH`, `WINDOW_HEIGHT`, the constant `Grid`, and `HasWallAt` as a
  pure function over it. Coordinates are reals and `Math.floor(v / TILE_SIZE)`
  is `GridIndex(v)`. `HasWallAtAsWritten` models the source's bounds test
  exactly, including the JavaScript outcome at the upper edges (see
  "## Findings"); `HasWallAt` is the corrected query the rest of the model uses,
  proved to return the same answer wherever the source returns one.
- `Game` (`game.dfy`): the class `Player` with the source's eight fields,
  its constructor and `Update`, the global handlers `KeyPressed` and
  `KeyReleased` as methods on a player object, and the pure functions that
  specify them (`Initial`, `Step`, `Pressed`, `Released`). `Math.cos` and
  `Math.sin` of the updated facing angle enter `Update` and `Step` as the
  parameters `c` and `s`. `Run` applies a sequence of key events and frames,
  so that the game's invariant can be stated over any session: a player who
  starts on open floor, as the spawned player does, is on open floor after
  every frame.

## Model

| member | source | states |
|---|---|---|
| `Level.GridIsClosedTileGrid` | raycast.js:9-21 | the grid has NUM_ROWS rows of NUM_COLS cells, every cell is 0 or 1, and every cell of the outer ring is a wall |
| `Level.GridIndexInRange` | raycast.js:39-40 | a coordinate in [0, n·TILE_SIZE) floor-divides to a tile index in [0, n) |
| `Level.GridIndexOfTile` | raycast.js:39-40 | every coordinate of tile k, near edge included, floor-divides to k |
| `Level.HasWallAt` | raycast.js:35-43 | any point left of, right of, above or below the window is a wall (boundary closure), and so are the upper edges x = WINDOW_WIDTH and y = WINDOW_HEIGHT |
| `Level.HasWallAtReadsTile` | raycast.js:39-42 | inside the window both tile indices are in range and the answer is true exactly when the indexed cell is 1 |
| `Level.HasWallAtInsideTile` | raycast.js:35-43 | every point of a tile answers with that tile's cell value |
| `Level.OpenPointIsInterior` | raycast.js:35-43 | a point not in a wall lies at least one tile inside every edge of the window |
| `Level.HasWallAtAsWritten` | raycast.js:35-43 | the source's query throws exactly on the bottom edge y = WINDOW_HEIGHT with 0 ≤ x ≤ WINDOW_WIDTH, and wherever it returns, it returns the corrected answer |
| `Level.BottomEdgeThrows` | raycast.js:36-41 | the point (240, WINDOW_HEIGHT) passes the source's bounds test and makes it throw, while the corrected query reports a wall |
| `Level.SmallStepFromOpenPointIsSafe` | raycast.js:36-41 | moving less than a tile on each axis from open floor never reaches the throwing edge, so the source and the corrected query agree there |
| `Game.Initial` | raycast.js:49-58 | a new player stands at the given point with no walk or turn intent and the constant radius and speeds |
| `Game.Spawn` | raycast.js:79 | the player created at the window's centre (240, 176) satisfies the invariant and stands on open floor |
| `Game.Step` | raycast.js:59-68 | a frame adds turnDirection·rotationSpeed to the angle whether or not the player moves; the player moves to the candidate point when it is open and stays exactly where it was otherwise; intents, speeds and radius are unchanged; the invariant and "on open floor" are preserved |
| `Game.StepMovesAtMostMoveSpeed` | raycast.js:61-67 | with a direction of length at most 1, a frame moves the player by at most moveSpeed |
| `Game.StepQueryIsSafe` | raycast.js:61-64 | in a frame from open floor with cos and sin in [-1, 1], the source's own wall query returns (never throws) and gives the model's answer |
| `Game.Pressed` | raycast.js:81-96 | UP sets walk to 1, DOWN to -1, RIGHT sets turn to 1, LEFT to -1, any other key changes nothing; position, angle, speeds and radius are kept and intents stay in {-1, 0, 1} |
| `Game.Released` | raycast.js:98-113 | releasing UP or DOWN sets walk to 0 (whichever of the two set it), RIGHT or LEFT sets turn to 0, any other key changes nothing; intents stay in {-1, 0, 1} |
| `Game.PressThenReleaseIsIdentity` | raycast.js:81-113 | from rest, pressing and releasing the same key restores the player exactly |
| `Game.RunKeepsPlayerOnOpenFloor` | raycast.js:59-113 | under any sequence of key presses, releases and frames, a valid player on open floor stays valid and on open floor |
| `Game.SpawnedPlayerNeverEntersWall` | raycast.js:79-113 | the game's own player is on open floor after any sequence of events |
| `Game.Player.constructor` | raycast.js:49-58 | the new object's fields are those of `Initial` |
| `Game.Player.Update` | raycast.js:59-68 | the fields after `update()` are `Step` of the fields before; the invariant and "on open floor" are kept |
| `Game.NewGamePlayer` | raycast.js:79 | the global player is a fresh object whose fields are `Spawn()` |
| `Game.KeyPressed` | raycast.js:81-96 | the player's fields after the handler are `Pressed` of those before |
| `Game.KeyReleased` | raycast.js:98-113 | the player's fields after the handler are `Released` of those before |

## Findings

| source | as written | input that shows it | evidently intended | confidence | as-written member | corrected member |
|---|---|---|---|---|---|---|
| raycast.js:36 | the bounds test rejects only `x > WINDOW_WIDTH` and `y > WINDOW_HEIGHT`, so the upper edges reach the grid read; at y = WINDOW_HEIGHT the row index is 11, `this.grid[11]` is undefined and indexing it throws a TypeError (at x = WINDOW_WIDTH the read yields undefined and `undefined != 0` reports a wall by accident) | `hasWallAt(240, 352)` | `x >= WINDOW_WIDTH` and `y >= WINDOW_HEIGHT`: the upper edges lie outside the grid and count as walls | not executed; the out-of-range index follows from the arithmetic, the TypeError from JavaScript's semantics for indexing undefined | `Level.BottomEdgeThrows` | `Level.HasWallAt` |

The player's own movement never reaches the throwing edge: from open floor a
frame moves at most two units, and open floor ends a full tile above the
bottom edge (`Game.StepQueryIsSafe`). Only another caller of `hasWallAt`
could observe the exception.

## Left out

- `Level.render` and `Player.render` (raycast.js:23-34, 69-75): p5.js drawing calls with no state change.
- `setup`, `draw` and the global `update` (raycast.js:115-127): canvas creation and the per-frame call of `player.update()`; a frame is modelled by `Game.Player.Update`, a whole session by `Game.Run`.
- `Math.cos` and `Math.sin`: their values for the updated angle are parameters of `Update` and `Step`; the model does not tie them to `rotationAngle`.
- IEEE-754 doubles: coordinates, angles and speeds are exact reals, so rounding, NaN and infinities are not modelled; `Math.PI` is the real 3.141592653589793.
- `keyCode` values: the four arrow keys are constructors of `Game.Key`, and every other key code is `OtherKey`.
- The facing angle is never normalised, as in the source.
