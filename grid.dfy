// The tile grid of a level and the height of each platform surface.
module Grid {
  import opened Numeric

  const ScreenWidth: int := 1136
  const ScreenHeight: int := 896
  const CellSize: int := 64
  const LevelHeight: int := 14
  const LevelWidth: int := 18

  const Gravity: real := 0.8
  const TerminalVelocity: real := 15.0

  /** The one platform row drawn higher than the grid spacing says. */
  const StaggeredRow: int := 11

  predicate InGrid(row: int, col: int) {
    0 <= row < LevelHeight && 0 <= col < LevelWidth
  }

  /** Tiles an entity can stand on: walls and the three ramp symbols. */
  predicate IsSolidTile(ch: char) {
    ch == '#' || ch == '/' || ch == '\\' || ch == 'S'
  }

  predicate IsSlopeTile(ch: char) {
    ch == '/' || ch == '\\' || ch == 'S'
  }

  /**
   * The level map (rows x columns of tile symbols) together with the
   * per-cell slope offset table that ramps write into.
   */
  class Level {
    const tiles: array2<char>
    const slopeOffset: array2<int>

    predicate Valid() {
      tiles.Length0 == LevelHeight && tiles.Length1 == LevelWidth &&
      slopeOffset.Length0 == LevelHeight && slopeOffset.Length1 == LevelWidth
    }

    /** A blank level: every tile empty, every offset zero. */
    constructor ()
      ensures Valid() && fresh(tiles) && fresh(slopeOffset)
      ensures forall r, c :: 0 <= r < LevelHeight && 0 <= c < LevelWidth ==> tiles[r, c] == ' '
      ensures forall r, c :: 0 <= r < LevelHeight && 0 <= c < LevelWidth ==> slopeOffset[r, c] == 0
    {
      tiles := new char[LevelHeight, LevelWidth]((r, c) => ' ');
      slopeOffset := new int[LevelHeight, LevelWidth]((r, c) => 0);
    }
  }

  /** A sample point that lies on the grid and holds a tile one can stand on. */
  predicate SolidSample(lv: Level, row: int, col: int)
    requires lv.Valid()
    reads lv.tiles
  {
    InGrid(row, col) && IsSolidTile(lv.tiles[row, col])
  }

  /** A sample point that lies on the grid and holds a plain wall tile `#`. */
  predicate WallSample(lv: Level, row: int, col: int)
    requires lv.Valid()
    reads lv.tiles
  {
    InGrid(row, col) && lv.tiles[row, col] == '#'
  }

  /** The grid cell holding a pixel coordinate (the source's `(int)(p / CELL_SIZE)`). */
  function CellOf(p: real): int {
    Trunc(p / CellSize as real)
  }

  function PlatformTopY(row: int): int {
    if row == StaggeredRow then row * CellSize - 22 else row * CellSize
  }

  function EnemyPlatformYOffset(row: int): int {
    if row == StaggeredRow then -22 else 0
  }

  /**
   * Surface height of a cell. Row 11 is lifted twice by 22 pixels (once by
   * PlatformTopY and once by EnemyPlatformYOffset); the slope offset is added
   * only for cells that lie on the grid.
   */
  function PlatformTopYAt(lv: Level, row: int, col: int): (y: int)
    requires lv.Valid()
    reads lv.slopeOffset
    ensures row == StaggeredRow ==> y == row * CellSize - 44 + (if InGrid(row, col) then lv.slopeOffset[row, col] else 0)
    ensures row != StaggeredRow ==> y == row * CellSize + (if InGrid(row, col) then lv.slopeOffset[row, col] else 0)
  {
    var base := PlatformTopY(row) + EnemyPlatformYOffset(row);
    if InGrid(row, col) then base + lv.slopeOffset[row, col] else base
  }
}
