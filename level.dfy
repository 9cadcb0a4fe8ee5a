/**
 * The tile map of the game: a fixed 11 x 15 grid of 32-unit tiles, where a
 * cell holding 1 is a wall and a cell holding 0 is open floor, and the query
 * "is there a wall at world coordinate (x, y)".
 *
 * Coordinates are modelled as reals (the source's doubles without rounding)
 * and `Math.floor` as `.Floor`.
 */
module Level {

  const TILE_SIZE: int := 32
  const NUM_ROWS: int := 11
  const NUM_COLS: int := 15
  const WINDOW_WIDTH: int := NUM_COLS * TILE_SIZE
  const WINDOW_HEIGHT: int := NUM_ROWS * TILE_SIZE

  /** The level's grid, row by row (the first index is the row, i.e. y). */
  const Grid: seq<seq<int>> := [
    [1,1,1,1,1,1,1,1,1,1,1,1,1,1,1],
    [1,0,0,0,0,0,0,0,0,0,0,0,1,0,1],
    [1,1,0,0,0,1,1,1,1,1,1,1,1,0,1],
    [1,1,0,0,0,0,0,0,0,0,0,0,0,0,1],
    [1,1,0,0,0,0,0,0,0,0,0,0,0,0,1],
    [1,1,0,0,0,1,1,0,1,1,0,0,1,1,1],
    [1,1,0,0,1,1,1,0,1,1,1,1,1,1,1],
    [1,1,0,0,0,0,0,0,0,0,0,0,0,0,1],
    [1,1,0,0,0,0,0,0,0,0,0,0,0,0,1],
    [1,1,0,0,0,0,0,0,0,0,0,0,0,0,1],
    [1,1,1,1,1,1,1,1,1,1,1,1,1,1,1]
  ]

  /** `g` has NUM_ROWS rows of NUM_COLS cells, each cell 0 (open) or 1 (wall). */
  predicate IsTileGrid(g: seq<seq<int>>) {
    && |g| == NUM_ROWS
    && (forall i :: 0 <= i < |g| ==> |g[i]| == NUM_COLS)
    && (forall i, j :: 0 <= i < |g| && 0 <= j < |g[i]| ==> g[i][j] == 0 || g[i][j] == 1)
  }

  /** Every cell on the outer ring of a tile grid is a wall. */
  predicate HasWalledBorder(g: seq<seq<int>>)
    requires IsTileGrid(g)
  {
    && (forall j :: 0 <= j < NUM_COLS ==> g[0][j] == 1 && g[NUM_ROWS - 1][j] == 1)
    && (forall i :: 0 <= i < NUM_ROWS ==> g[i][0] == 1 && g[i][NUM_COLS - 1] == 1)
  }

  /** The level's grid is rectangular, holds only 0 and 1, and is closed by walls. */
  lemma GridIsClosedTileGrid()
    ensures IsTileGrid(Grid) && HasWalledBorder(Grid)
  {
  }

  /** The tile index of a world coordinate: `Math.floor(v / TILE_SIZE)`. */
  function GridIndex(v: real): int {
    (v / TILE_SIZE as real).Floor
  }

  /** A coordinate in [0, n * TILE_SIZE) has its tile index in [0, n). */
  lemma GridIndexInRange(v: real, n: int)
    requires 0.0 <= v < (n * TILE_SIZE) as real
    ensures 0 <= GridIndex(v) < n
  {
    var q := v / TILE_SIZE as real;
    assert q < n as real;
  }

  /** A coordinate inside tile k (from its near edge, inclusive, to its far edge) has tile index k. */
  lemma GridIndexOfTile(v: real, k: int)
    requires (k * TILE_SIZE) as real <= v < ((k + 1) * TILE_SIZE) as real
    ensures GridIndex(v) == k
  {
    var q := v / TILE_SIZE as real;
    assert k as real <= q < (k + 1) as real;
  }

  /** The point lies in the world rectangle, lower edges included and upper edges excluded. */
  predicate InWorld(x: real, y: real) {
    0.0 <= x < WINDOW_WIDTH as real && 0.0 <= y < WINDOW_HEIGHT as real
  }

  /**
   * Whether the point (x, y) is in a wall. Anything outside the world rectangle
   * counts as a wall; inside, the tile containing the point is read.
   * The upper edges x == WINDOW_WIDTH and y == WINDOW_HEIGHT are outside: this is
   * the corrected bounds test (see HasWallAtAsWritten for the source's `>`).
   */
  function HasWallAt(x: real, y: real): (r: bool)
    ensures x < 0.0 || x > WINDOW_WIDTH as real || y < 0.0 || y > WINDOW_HEIGHT as real ==> r
    ensures x == WINDOW_WIDTH as real || y == WINDOW_HEIGHT as real ==> r
  {
    if !InWorld(x, y) then true
    else
      GridIsClosedTileGrid();
      GridIndexInRange(x, NUM_COLS);
      GridIndexInRange(y, NUM_ROWS);
      Grid[GridIndex(y)][GridIndex(x)] != 0
  }

  /**
   * Inside the world the tile indices are in range, and the answer is exactly
   * whether the tile holding the point is a wall.
   */
  lemma HasWallAtReadsTile(x: real, y: real)
    requires InWorld(x, y)
    ensures 0 <= GridIndex(x) < NUM_COLS && 0 <= GridIndex(y) < NUM_ROWS
    ensures HasWallAt(x, y) <==> Grid[GridIndex(y)][GridIndex(x)] == 1
  {
    GridIsClosedTileGrid();
    GridIndexInRange(x, NUM_COLS);
    GridIndexInRange(y, NUM_ROWS);
  }

  /** Every point of a tile, its near edges included, answers with that tile's value. */
  lemma HasWallAtInsideTile(row: int, col: int, x: real, y: real)
    requires 0 <= row < NUM_ROWS && 0 <= col < NUM_COLS
    requires (col * TILE_SIZE) as real <= x < ((col + 1) * TILE_SIZE) as real
    requires (row * TILE_SIZE) as real <= y < ((row + 1) * TILE_SIZE) as real
    ensures HasWallAt(x, y) <==> Grid[row][col] == 1
  {
    GridIndexOfTile(x, col);
    GridIndexOfTile(y, row);
    HasWallAtReadsTile(x, y);
  }

  /**
   * A point that is not in a wall lies strictly inside the border ring of
   * walls: at least one tile from the left and top edges, and at least one
   * tile short of the right and bottom edges.
   */
  lemma OpenPointIsInterior(x: real, y: real)
    requires !HasWallAt(x, y)
    ensures TILE_SIZE as real <= x < (WINDOW_WIDTH - TILE_SIZE) as real
    ensures TILE_SIZE as real <= y < (WINDOW_HEIGHT - TILE_SIZE) as real
  {
    HasWallAtReadsTile(x, y);
    var row, col := GridIndex(y), GridIndex(x);
    GridIsClosedTileGrid();
    assert 1 <= row <= NUM_ROWS - 2;
    assert 1 <= col <= NUM_COLS - 2;
    assert row as real <= y / TILE_SIZE as real < (row + 1) as real;
    assert col as real <= x / TILE_SIZE as real < (col + 1) as real;
  }

  /** What `hasWallAt` produces in JavaScript: a boolean, or a thrown TypeError. */
  datatype Lookup = Returned(wall: bool) | ThrewTypeError

  /**
   * `hasWallAt` exactly as the source writes it. Its bounds test uses `>`, so
   * the upper edges pass it. At y == WINDOW_HEIGHT the row index is NUM_ROWS,
   * `this.grid[gridY]` is undefined and indexing it throws a TypeError. At
   * x == WINDOW_WIDTH (and y inside) the column index is NUM_COLS, the read
   * yields undefined, and `undefined != 0` is true, so a wall is reported.
   */
  function HasWallAtAsWritten(x: real, y: real): (r: Lookup)
    ensures r == ThrewTypeError <==> y == WINDOW_HEIGHT as real && 0.0 <= x <= WINDOW_WIDTH as real
    ensures r.Returned? ==> r.wall == HasWallAt(x, y)
  {
    if x < 0.0 || x > WINDOW_WIDTH as real || y < 0.0 || y > WINDOW_HEIGHT as real then Returned(true)
    else
      var gridX := GridIndex(x);
      var gridY := GridIndex(y);
      GridIsClosedTileGrid();
      GridIndexInRange(x, NUM_COLS + 1);
      GridIndexInRange(y, NUM_ROWS + 1);
      if gridY >= |Grid| then ThrewTypeError
      else if gridX >= |Grid[gridY]| then Returned(true)
      else Returned(Grid[gridY][gridX] != 0)
  }

  /** A concrete input on which the source's bounds test lets an out-of-grid row through. */
  lemma BottomEdgeThrows()
    ensures HasWallAtAsWritten(240.0, WINDOW_HEIGHT as real) == ThrewTypeError
    ensures HasWallAt(240.0, WINDOW_HEIGHT as real)
  {
  }

  /**
   * A point that is not in a wall, displaced by less than a tile on each axis,
   * never reaches the edge where the source throws: there the source and the
   * corrected query agree.
   */
  lemma SmallStepFromOpenPointIsSafe(x: real, y: real, dx: real, dy: real)
    requires !HasWallAt(x, y)
    requires -(TILE_SIZE as real) < dx < TILE_SIZE as real
    requires -(TILE_SIZE as real) < dy < TILE_SIZE as real
    ensures HasWallAtAsWritten(x + dx, y + dy) == Returned(HasWallAt(x + dx, y + dy))
  {
    OpenPointIsInterior(x, y);
  }
}
