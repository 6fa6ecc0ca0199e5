// An enemy: its per-type capture rules and points, its floor collision pass,
// and the grid search that picks the platform it jumps to.
module Enemies {
  import opened Numeric
  import opened Grid
  import opened Physics

  const EnemyScale: real := 1.75

  /** Enemy kinds: 0 and 1 walk, 2 turns invisible, 3 shoots. */
  predicate KnownKind(kind: int) { 0 <= kind <= 3 }

  /** Points granted for capturing an enemy of each kind. */
  function CapturePoints(kind: int): (p: int)
    requires KnownKind(kind)
  {
    if kind == 0 then 50
    else if kind == 1 then 75
    else if kind == 2 then 150
    else 200
  }

  /** The harder the kind, the more it is worth: strictly increasing in the kind. */
  lemma CapturePointsRiseWithKind(k1: int, k2: int)
    requires KnownKind(k1) && KnownKind(k2) && k1 < k2
    ensures 50 <= CapturePoints(k1) < CapturePoints(k2) <= 200
  {
  }

  /** The capture rule of Enemy::canBeCapture, on the three fields it reads. */
  predicate Capturable(kind: int, isVisible: bool, isShooting: bool) {
    if kind == 2 then isVisible
    else if kind == 3 then !isShooting
    else true
  }

  /**
   * Each flag guards one kind only: the walking kinds can always be
   * captured, visibility matters only to the invisible kind and shooting
   * only to the shooting kind, and a visible enemy that is not shooting can
   * be captured whatever its kind.
   */
  lemma EachFlagGuardsOneKind(kind: int, v1: bool, v2: bool, s1: bool, s2: bool)
    ensures kind == 0 || kind == 1 ==> Capturable(kind, v1, s1)
    ensures kind != 2 ==> Capturable(kind, v1, s1) == Capturable(kind, v2, s1)
    ensures kind != 3 ==> Capturable(kind, v1, s1) == Capturable(kind, v1, s2)
    ensures Capturable(kind, true, false)
  {
  }

  /**
   * Enemy::collidesWith: overlap of the enemy's box with the player's box
   * shrunk by 10 pixels on every side.
   */
  predicate OverlapsPlayer(ex: real, ey: real, ew: int, eh: int, px: real, py: real, pw: int, ph: int) {
    ex < px + (pw - 10) as real && ex + ew as real > px + 10.0 &&
    ey < py + (ph - 10) as real && ey + eh as real > py + 10.0
  }

  /**
   * The overlap test is translation invariant, and an enemy whose box lies
   * wholly left of the player's shrunk box does not collide.
   */
  lemma OverlapIsTranslationInvariant(ex: real, ey: real, ew: int, eh: int, px: real, py: real, pw: int, ph: int, dx: real, dy: real)
    ensures OverlapsPlayer(ex + dx, ey + dy, ew, eh, px + dx, py + dy, pw, ph) <==> OverlapsPlayer(ex, ey, ew, eh, px, py, pw, ph)
    ensures ex + ew as real <= px + 10.0 ==> !OverlapsPlayer(ex, ey, ew, eh, px, py, pw, ph)
  {
  }

  // ---------------------------------------------------------------------------
  // The jump-target search of Enemy::findJumpTarget

  /** The first plain wall in column `col` scanning rows r, r-1, ..., 0, or -1. */
  function WallAbove(lv: Level, col: int, r: int): (hit: int)
    requires lv.Valid()
    reads lv.tiles
    decreases r
    ensures hit == -1 || 0 <= hit <= r
    ensures hit == -1 ==> forall k :: 0 <= k <= r ==> !WallSample(lv, k, col)
    ensures hit != -1 ==> WallSample(lv, hit, col) && forall k :: hit < k <= r ==> !WallSample(lv, k, col)
  {
    if r < 0 then -1
    else if WallSample(lv, r, col) then r
    else WallAbove(lv, col, r - 1)
  }

  /** The first plain wall in column `col` scanning rows r, r+1, ..., 13, or -1. */
  function WallBelow(lv: Level, col: int, r: int): (hit: int)
    requires lv.Valid()
    reads lv.tiles
    decreases LevelHeight - r
    ensures hit == -1 || (r <= hit < LevelHeight)
    ensures hit == -1 ==> forall k :: r <= k < LevelHeight ==> !WallSample(lv, k, col)
    ensures hit != -1 ==> WallSample(lv, hit, col) && forall k :: r <= k < hit ==> !WallSample(lv, k, col)
  {
    if r >= LevelHeight then -1
    else if WallSample(lv, r, col) then r
    else WallBelow(lv, col, r + 1)
  }

  /** The platform row an enemy standing on `current` aims at: the nearest above, else the nearest below. */
  function JumpTargetRow(lv: Level, col: int, current: int): int
    requires lv.Valid()
    reads lv.tiles
  {
    if WallAbove(lv, col, current - 1) != -1 then WallAbove(lv, col, current - 1)
    else WallBelow(lv, col, current + 1)
  }

  /**
   * The target row holds a wall in the centre column; a row above the
   * current one is preferred, and no row is found only when the column has
   * no wall apart from, possibly, the current row.
   */
  lemma JumpTargetRowIsNearestWall(lv: Level, col: int, current: int)
    requires lv.Valid()
    ensures var t := JumpTargetRow(lv, col, current);
            (t == -1 <==> forall k :: 0 <= k < LevelHeight && k != current ==> !WallSample(lv, k, col)) &&
            (t != -1 ==> WallSample(lv, t, col) && t != current) &&
            (t != -1 && t > current ==> forall k :: 0 <= k < current ==> !WallSample(lv, k, col)) &&
            (t != -1 && t < current ==> forall k :: t < k < current ==> !WallSample(lv, k, col))
  {
    var up := WallAbove(lv, col, current - 1);
    if up == -1 {
      var down := WallBelow(lv, col, current + 1);
      if down == -1 {
        forall k | 0 <= k < LevelHeight && k != current
          ensures !WallSample(lv, k, col)
        {
          if k < current {
            assert 0 <= k <= current - 1;
          } else {
            assert current + 1 <= k;
          }
        }
      }
    }
  }

  /** The walk to the left over walls, stopping at column 0 without looking at it. */
  function WalkLeft(lv: Level, row: int, col: int): (c: int)
    requires lv.Valid()
    reads lv.tiles
    decreases col
    ensures c <= col && (col >= 0 ==> c >= 0)
    ensures forall k :: c < k <= col ==> WallSample(lv, row, k)
    ensures c > 0 ==> !WallSample(lv, row, c)
  {
    if col > 0 && WallSample(lv, row, col) then WalkLeft(lv, row, col - 1) else col
  }

  /** The walk to the right over walls, stopping at column 17 without looking at it. */
  function WalkRight(lv: Level, row: int, col: int): (c: int)
    requires lv.Valid()
    reads lv.tiles
    decreases LevelWidth - col
    ensures c >= col && (col < LevelWidth ==> c <= LevelWidth - 1)
    ensures forall k :: col <= k < c ==> WallSample(lv, row, k)
    ensures c < LevelWidth - 1 ==> !WallSample(lv, row, c)
  {
    if col < LevelWidth - 1 && WallSample(lv, row, col) then WalkRight(lv, row, col + 1) else col
  }

  /** The clamp exactly as written: into [left walk + 1, right walk - 1]. */
  function JumpTargetColAsWritten(lv: Level, row: int, centre: int): int
    requires lv.Valid()
    reads lv.tiles
  {
    Max(WalkLeft(lv, row, centre) + 1, Min(centre, WalkRight(lv, row, centre) - 1))
  }

  /**
   * The as-written clamp keeps a centre away from the grid edges. A centre
   * in column 0 always moves to column 1, which is a wall only when column 1
   * is one. A centre in column 17 moves to column 16 when that is a wall
   * (on the full ground row, say) and stays otherwise, so it lands on a wall.
   */
  lemma AsWrittenMissesColumnZero(lv: Level, row: int, centre: int)
    requires lv.Valid() && WallSample(lv, row, centre)
    ensures 0 < centre < LevelWidth - 1 ==> JumpTargetColAsWritten(lv, row, centre) == centre
    ensures centre == 0 ==> JumpTargetColAsWritten(lv, row, centre) == 1
    ensures centre == 0 ==> (WallSample(lv, row, JumpTargetColAsWritten(lv, row, centre)) <==> WallSample(lv, row, 1))
    ensures centre == LevelWidth - 1 ==>
              JumpTargetColAsWritten(lv, row, centre) == (if WallSample(lv, row, LevelWidth - 2) then LevelWidth - 2 else centre)
    ensures centre == LevelWidth - 1 ==> WallSample(lv, row, JumpTargetColAsWritten(lv, row, centre))
  {
    if 0 < centre < LevelWidth - 1 {
      assert WalkLeft(lv, row, centre) == WalkLeft(lv, row, centre - 1);
      assert WalkRight(lv, row, centre) == WalkRight(lv, row, centre + 1);
    }
  }

  /** A row with a wall in column 0 and nothing in column 1: the as-written target is an empty cell. */
  lemma AsWrittenTargetsEmptyCell(lv: Level, row: int)
    requires lv.Valid() && InGrid(row, 0)
    requires lv.tiles[row, 0] == '#' && lv.tiles[row, 1] == ' '
    ensures JumpTargetColAsWritten(lv, row, 0) == 1 && !WallSample(lv, row, 1)
  {
    AsWrittenMissesColumnZero(lv, row, 0);
  }

  /** The ends of the wall segment holding `centre`, including a wall at a grid edge. */
  function SegmentLeft(lv: Level, row: int, centre: int): int
    requires lv.Valid()
    reads lv.tiles
  {
    var l := WalkLeft(lv, row, centre);
    if WallSample(lv, row, l) then l else l + 1
  }

  function SegmentRight(lv: Level, row: int, centre: int): int
    requires lv.Valid()
    reads lv.tiles
  {
    var r := WalkRight(lv, row, centre);
    if WallSample(lv, row, r) then r else r - 1
  }

  /**
   * The evidently intended clamp, into the true segment [SegmentLeft,
   * SegmentRight]: a reference for the as-written one, which the enemy
   * itself keeps using.
   */
  function JumpTargetCol(lv: Level, row: int, centre: int): int
    requires lv.Valid()
    reads lv.tiles
  {
    Max(SegmentLeft(lv, row, centre), Min(centre, SegmentRight(lv, row, centre)))
  }

  /**
   * With the corrected clamp, for a wall in the centre column: the segment
   * is made of walls, is maximal (bounded by the grid edge or a non-wall),
   * contains the centre, and the target column is a wall of it.
   */
  lemma JumpTargetOnSegment(lv: Level, row: int, centre: int)
    requires lv.Valid() && WallSample(lv, row, centre)
    ensures var lo := SegmentLeft(lv, row, centre);
            var hi := SegmentRight(lv, row, centre);
            var t := JumpTargetCol(lv, row, centre);
            lo <= centre <= hi &&
            (forall k :: lo <= k <= hi ==> WallSample(lv, row, k)) &&
            (lo == 0 || !WallSample(lv, row, lo - 1)) &&
            (hi == LevelWidth - 1 || !WallSample(lv, row, hi + 1)) &&
            lo <= t <= hi && WallSample(lv, row, t) && t == centre
  {
  }

  /**
   * An enemy of kind `kind`. The sprite frame size is fixed at construction
   * (currW/currH); x, y, vertical velocity and onGround are grouped in `body`.
   */
  class Enemy {
    const kind: int
    var body: Body
    var velocityX: real
    var active: bool
    var captured: bool
    var capturePoints: int
    var isVisible: bool
    var isShooting: bool
    var facingRight: bool
    var jumpTargetX: real
    var jumpTargetRow: int
    const frameW: int
    const frameH: int

    predicate Valid() {
      frameW >= 0 && frameH >= 0
    }

    function Width(): int {
      Trunc(frameW as real * EnemyScale)
    }

    function Height(): int {
      Trunc(frameH as real * EnemyScale)
    }

    /**
     * A new enemy at (sx, sy): active, visible, airborne, walking at speed 2
     * in the direction of the random draw `headRight`, worth its kind's points.
     */
    constructor (t: int, sx: real, sy: real, headRight: bool, w: int, h: int)
      requires KnownKind(t) && w >= 0 && h >= 0
      ensures Valid() && kind == t && frameW == w && frameH == h
      ensures body == Body(sx, sy, 0.0, false)
      ensures velocityX == (if headRight then 2.0 else -2.0) && facingRight == headRight
      ensures active && !captured && isVisible && !isShooting
      ensures capturePoints == CapturePoints(t)
      ensures jumpTargetX == sx && jumpTargetRow == -1
    {
      kind := t;
      body := Body(sx, sy, 0.0, false);
      velocityX := if headRight then 2.0 else -2.0;
      facingRight := headRight;
      active := true;
      captured := false;
      isVisible := true;
      isShooting := false;
      jumpTargetX := sx;
      jumpTargetRow := -1;
      frameW := w;
      frameH := h;
      capturePoints := CapturePoints(t);
    }

    predicate CanBeCaptured()
      reads this`isVisible, this`isShooting
    {
      Capturable(kind, isVisible, isShooting)
    }

    /** The floor pass; the new body is the pure resolver applied to the old one. */
    method CheckPlatformCollision(lv: Level)
      requires Valid() && lv.Valid()
      modifies this`body
      ensures body == old(ResolveEnemy(lv, body, Width(), Height()))
    {
      var w := Width();
      var h := Height();
      var feet := body;
      var centerX := EnemyCentreCol(feet, w);
      var ny, nvy, grounded := feet.y, feet.vy, false;
      var hitRow := EnemyFloorRow(lv, feet, w, h);
      if hitRow != -1 && nvy >= 0.0 {
        ny := (PlatformTopYAt(lv, hitRow, centerX) - h) as real;
        nvy := 0.0;
        grounded := true;
      }
      ghost var snapped := if hitRow != -1 && feet.vy >= 0.0
        then feet.(y := (PlatformTopYAt(lv, hitRow, centerX) - h) as real, vy := 0.0, onGround := true)
        else feet.(onGround := false);
      assert Body(feet.x, ny, nvy, grounded) == snapped;
      if ny > (ScreenHeight - h) as real {
        ny := (ScreenHeight - h) as real;
        nvy := 0.0;
        grounded := true;
      }
      assert Body(feet.x, ny, nvy, grounded) == ClampToScreenFloor(snapped, h);
      body := Body(feet.x, ny, nvy, grounded);
    }

    /**
     * Enemy::findJumpTarget from row `currentRow`: on success the row found
     * and the x of the as-written clamped column are stored, otherwise
     * nothing changes.
     */
    method FindJumpTarget(lv: Level, currentRow: int) returns (found: bool)
      requires Valid() && lv.Valid()
      modifies this`jumpTargetX, this`jumpTargetRow
      ensures found == (old(JumpTargetRow(lv, EnemyCentreCol(body, Width()), currentRow)) != -1)
      ensures found ==> jumpTargetRow == old(JumpTargetRow(lv, EnemyCentreCol(body, Width()), currentRow))
      ensures found ==> var t := jumpTargetRow;
                jumpTargetX == (old(JumpTargetColAsWritten(lv, t, EnemyCentreCol(body, Width()))) * CellSize) as real + 8.0
      ensures !found ==> jumpTargetRow == old(jumpTargetRow) && jumpTargetX == old(jumpTargetX)
    {
      var targetRow, targetCol := SearchJumpTarget(lv, EnemyCentreCol(body, Width()), currentRow);
      if targetRow == -1 {
        return false;
      }
      jumpTargetX := (targetCol * CellSize) as real + 8.0;
      jumpTargetRow := targetRow;
      return true;
    }
  }

  /**
   * The search of Enemy::findJumpTarget: scan the centre column up, then
   * down, for a wall; then clamp the centre column between the two walks
   * over that row's walls, as written.
   */
  method SearchJumpTarget(lv: Level, centerCol: int, currentRow: int) returns (targetRow: int, targetCol: int)
    requires lv.Valid()
    ensures targetRow == JumpTargetRow(lv, centerCol, currentRow)
    ensures targetRow != -1 ==> targetCol == JumpTargetColAsWritten(lv, targetRow, centerCol)
  {
    targetRow := ScanTargetRow(lv, centerCol, currentRow);
    targetCol := centerCol;
    if targetRow != -1 {
      targetCol := ClampIntoSegment(lv, targetRow, centerCol);
    }
  }

  /** The two row scans: upward from the row above, then downward from the row below. */
  method ScanTargetRow(lv: Level, centerCol: int, currentRow: int) returns (targetRow: int)
    requires lv.Valid()
    ensures targetRow == JumpTargetRow(lv, centerCol, currentRow)
  {
    targetRow := -1;
    var r := currentRow - 1;
    while r >= 0
      invariant r <= currentRow - 1
      invariant targetRow == -1 ==> WallAbove(lv, centerCol, currentRow - 1) == WallAbove(lv, centerCol, r)
      invariant targetRow != -1 ==> targetRow == WallAbove(lv, centerCol, currentRow - 1)
      decreases r + 1, if targetRow == -1 then 1 else 0
    {
      if WallSample(lv, r, centerCol) {
        targetRow := r;
        break;
      }
      r := r - 1;
    }
    if targetRow == -1 {
      r := currentRow + 1;
      while r < LevelHeight
        invariant r >= currentRow + 1
        invariant targetRow == -1 ==> WallBelow(lv, centerCol, currentRow + 1) == WallBelow(lv, centerCol, r)
        invariant targetRow != -1 ==> targetRow == WallBelow(lv, centerCol, currentRow + 1)
        decreases LevelHeight - r
      {
        if WallSample(lv, r, centerCol) {
          targetRow := r;
          break;
        }
        r := r + 1;
      }
    }
  }

  /**
   * The two column walks from the centre over walls, and the clamp into
   * [left walk + 1, right walk - 1] exactly as written.
   */
  method ClampIntoSegment(lv: Level, targetRow: int, centerCol: int) returns (targetCol: int)
    requires lv.Valid()
    ensures targetCol == JumpTargetColAsWritten(lv, targetRow, centerCol)
  {
    var leftCol, rightCol := centerCol, centerCol;
    while leftCol > 0 && WallSample(lv, targetRow, leftCol)
      invariant WalkLeft(lv, targetRow, leftCol) == WalkLeft(lv, targetRow, centerCol)
      decreases leftCol
    {
      leftCol := leftCol - 1;
    }
    while rightCol < LevelWidth - 1 && WallSample(lv, targetRow, rightCol)
      invariant WalkRight(lv, targetRow, rightCol) == WalkRight(lv, targetRow, centerCol)
      decreases LevelWidth - rightCol
    {
      rightCol := rightCol + 1;
    }
    var segLeftCol := leftCol + 1;
    var segRightCol := rightCol - 1;
    targetCol := Max(segLeftCol, Min(centerCol, segRightCol));
  }
}
