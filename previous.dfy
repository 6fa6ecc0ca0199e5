// The earlier, procedural version of the game's physics: flat platform
// heights, a plain box-overlap test, a player resolver with its own probe
// rules, and the enemy wall bounce over parallel arrays.
module PreviousCode {
  import opened Numeric
  import opened Grid

  // ---------------------------------------------------------------------------
  // Platform heights without slopes

  /** The slope table of this version: always flat. */
  function SlopeOffset(row: int, col: int): int { 0 }

  /** platformTopYAt: grid height, lifted 22 pixels twice on row 11, plus the (zero) slope. */
  function FlatTopYAt(row: int, col: int): int {
    PlatformTopY(row) + EnemyPlatformYOffset(row) + SlopeOffset(row, col)
  }

  /**
   * Surface heights do not depend on the column: every row sits at its grid
   * line except row 11, 44 pixels higher; on a level whose slope table is
   * all zero the later version's heights are the same.
   */
  lemma FlatTopIgnoresColumn(row: int, c1: int, c2: int)
    ensures FlatTopYAt(row, c1) == FlatTopYAt(row, c2)
    ensures row != StaggeredRow ==> FlatTopYAt(row, c1) == row * CellSize
    ensures FlatTopYAt(StaggeredRow, c1) == StaggeredRow * CellSize - 44
  {
  }

  lemma FlatTopAgreesWithFlatLevel(lv: Level, row: int, col: int)
    requires lv.Valid()
    requires forall r, c :: 0 <= r < LevelHeight && 0 <= c < LevelWidth ==> lv.slopeOffset[r, c] == 0
    ensures Grid.PlatformTopYAt(lv, row, col) == FlatTopYAt(row, col)
  {
  }

  // ---------------------------------------------------------------------------
  // Box overlap

  /** checkCollision: strict overlap of two boxes given by corner and size. */
  predicate CheckCollision(x1: real, y1: real, w1: real, h1: real, x2: real, y2: real, w2: real, h2: real) {
    x1 < x2 + w2 && x1 + w1 > x2 && y1 < y2 + h2 && y1 + h1 > y2
  }

  /**
   * Overlap is symmetric, boxes that only touch do not overlap, and two
   * boxes can overlap only when their widths and heights add up to more
   * than zero.
   */
  lemma CollisionSymmetric(x1: real, y1: real, w1: real, h1: real, x2: real, y2: real, w2: real, h2: real)
    ensures CheckCollision(x1, y1, w1, h1, x2, y2, w2, h2) <==> CheckCollision(x2, y2, w2, h2, x1, y1, w1, h1)
    ensures x1 + w1 == x2 ==> !CheckCollision(x1, y1, w1, h1, x2, y2, w2, h2)
    ensures CheckCollision(x1, y1, w1, h1, x2, y2, w2, h2) ==> w1 + w2 > 0.0 && h1 + h2 > 0.0
  {
  }

  // ---------------------------------------------------------------------------
  // The procedural player resolver

  /** The reference parameters updatePlayer reads and writes. */
  datatype Mover = Mover(x: real, y: real, vx: real, vy: real, onGround: bool)

  /** A row on the grid where any of the three foot samples is a plain wall. */
  predicate AnyWall(lv: Level, row: int, left: int, centre: int, right: int)
    requires lv.Valid()
    reads lv.tiles
  {
    0 <= row < LevelHeight &&
    (WallSample(lv, row, left) || WallSample(lv, row, centre) || WallSample(lv, row, right))
  }

  /** The first row of base - 1, base, base + 1 (in that order) with a wall sample, or -1. */
  function FirstWallRow(lv: Level, base: int, left: int, centre: int, right: int): (hit: int)
    requires lv.Valid()
    reads lv.tiles
    ensures hit == -1 <==> forall r :: base - 1 <= r <= base + 1 ==> !AnyWall(lv, r, left, centre, right)
    ensures hit != -1 ==>
              base - 1 <= hit <= base + 1 && AnyWall(lv, hit, left, centre, right) &&
              forall r :: base - 1 <= r < hit ==> !AnyWall(lv, r, left, centre, right)
  {
    if AnyWall(lv, base - 1, left, centre, right) then base - 1
    else if AnyWall(lv, base, left, centre, right) then base
    else if AnyWall(lv, base + 1, left, centre, right) then base + 1
    else -1
  }

  /** Gravity only while airborne, capped at the terminal velocity; then the unscaled move. */
  function Fall(s: Mover): Mover {
    var vy := if s.onGround then s.vy
              else if s.vy + Gravity > TerminalVelocity then TerminalVelocity
              else s.vy + Gravity;
    s.(x := s.x + s.vx, y := s.y + vy, vy := vy)
  }

  function BodyWidth(frameW: int, scale: real): int { Trunc(frameW as real * scale) }
  function CentreColOf(x: real, pW: int): int { CellOf(x + Trunc(pW as real / 2.0) as real) }
  function BaseRowOf(y: real, pH: int): int { CellOf(y + pH as real + 2.0) }

  function HitRowOf(lv: Level, m: Mover, pW: int, pH: int): int
    requires lv.Valid()
    reads lv.tiles
  {
    FirstWallRow(lv, BaseRowOf(m.y, pH), CellOf(m.x + 10.0), CentreColOf(m.x, pW), CellOf(m.x + pW as real - 10.0))
  }

  /** The standing y on a row's surface. */
  function StandY(row: int, col: int, pH: int): int { FlatTopYAt(row, col) - pH }

  /** The snap test: a floor row was found, the player is not rising, and it is within the window. */
  predicate Snaps(lv: Level, m: Mover, pW: int, pH: int)
    requires lv.Valid()
    reads lv.tiles
  {
    var hit := HitRowOf(lv, m, pW, pH);
    hit != -1 && m.vy >= 0.0 && m.y + pH as real >= (StandY(hit, CentreColOf(m.x, pW), pH) - 5) as real
  }

  /** The floor part: onGround is cleared, then set again by a snap. */
  function Land(lv: Level, m: Mover, pW: int, pH: int): Mover
    requires lv.Valid()
    reads lv.tiles
  {
    if Snaps(lv, m, pW, pH) then
      m.(y := StandY(HitRowOf(lv, m, pW, pH), CentreColOf(m.x, pW), pH) as real, vy := 0.0, onGround := true)
    else m.(onGround := false)
  }

  /** The ceiling part: a rising player whose head cell (centre column) is a wall stops below it. */
  function Bump(lv: Level, m: Mover, pW: int): Mover
    requires lv.Valid()
    reads lv.tiles
  {
    var head := CellOf(m.y + 10.0);
    if m.vy < 0.0 && WallSample(lv, head, CentreColOf(m.x, pW)) then
      m.(y := ((head + 1) * CellSize) as real, vy := 0.0)
    else m
  }

  /** The screen part: x into [0, width - pW], and the screen floor grounds the player. */
  function Bound(m: Mover, pW: int, pH: int): Mover {
    var x1 := if m.x < 0.0 then 0.0 else m.x;
    var x2 := if x1 > (ScreenWidth - pW) as real then (ScreenWidth - pW) as real else x1;
    if m.y > (ScreenHeight - pH) as real then m.(x := x2, y := (ScreenHeight - pH) as real, vy := 0.0, onGround := true)
    else m.(x := x2)
  }

  /** updatePlayer as a whole; the probes use the position after the move. */
  function PrevUpdatePlayer(lv: Level, s: Mover, frameW: int, frameH: int, scale: real): Mover
    requires lv.Valid()
    reads lv.tiles
  {
    var pW := BodyWidth(frameW, scale);
    var pH := BodyWidth(frameH, scale);
    var moved := Fall(s);
    Bound(Bump(lv, Land(lv, moved, pW, pH), pW), pW, pH)
  }

  /**
   * Gravity acts only on a player airborne on entry, and the vertical speed
   * never ends above the terminal velocity unless it came in grounded and
   * above it already.
   */
  lemma PrevGravityOnlyWhenAirborne(lv: Level, s: Mover, frameW: int, frameH: int, scale: real)
    requires lv.Valid()
    ensures var f := Fall(s);
            (s.onGround ==> f.vy == s.vy) &&
            (!s.onGround ==> f.vy <= TerminalVelocity && (s.vy + Gravity <= TerminalVelocity ==> f.vy == s.vy + Gravity)) &&
            f.y == s.y + f.vy && f.x == s.x + s.vx
    ensures !s.onGround || s.vy <= TerminalVelocity ==>
              PrevUpdatePlayer(lv, s, frameW, frameH, scale).vy <= TerminalVelocity
  {
  }

  /**
   * The floor snap: a falling player within the window of the first wall
   * row among base - 1, base, base + 1 stands on it (or on the screen floor
   * if that is higher); a player that does not snap is grounded only by the
   * screen floor.
   */
  lemma PrevSnapRule(lv: Level, s: Mover, frameW: int, frameH: int, scale: real)
    requires lv.Valid()
    ensures var pW := BodyWidth(frameW, scale);
            var pH := BodyWidth(frameH, scale);
            var m := Fall(s);
            var r := PrevUpdatePlayer(lv, s, frameW, frameH, scale);
            var stand := StandY(HitRowOf(lv, m, pW, pH), CentreColOf(m.x, pW), pH);
            (Snaps(lv, m, pW, pH) ==>
               r.onGround && r.vy == 0.0 && r.y == (if stand > ScreenHeight - pH then ScreenHeight - pH else stand) as real) &&
            (!Snaps(lv, m, pW, pH) ==> (r.onGround <==> Bump(lv, m.(onGround := false), pW).y > (ScreenHeight - pH) as real))
  {
  }

  /**
   * After the pass: the player is inside the screen sides (when it fits),
   * above the screen floor, and at rest whenever grounded; a clamp to the
   * screen floor also grounds it and stops it.
   */
  lemma PrevPlayerStaysOnScreen(lv: Level, s: Mover, frameW: int, frameH: int, scale: real)
    requires lv.Valid()
    ensures var pW := BodyWidth(frameW, scale);
            var pH := BodyWidth(frameH, scale);
            var r := PrevUpdatePlayer(lv, s, frameW, frameH, scale);
            var before := Bump(lv, Land(lv, Fall(s), pW, pH), pW);
            (0 <= pW <= ScreenWidth ==> 0.0 <= r.x <= (ScreenWidth - pW) as real) &&
            r.y <= (ScreenHeight - pH) as real && (r.onGround ==> r.vy == 0.0) && r.vx == s.vx &&
            (before.y > (ScreenHeight - pH) as real ==> r.y == (ScreenHeight - pH) as real && r.vy == 0.0 && r.onGround)
  {
  }

  /** The row scan of updatePlayer: rows base - 1 to base + 1, skipping rows off the grid. */
  method ScanFloorRows(lv: Level, baseRow: int, leftX: int, centerX: int, rightX: int) returns (hitRow: int)
    requires lv.Valid()
    ensures hitRow == FirstWallRow(lv, baseRow, leftX, centerX, rightX)
  {
    hitRow := -1;
    for r := baseRow - 1 to baseRow + 2
      invariant hitRow == -1 ==> forall k :: baseRow - 1 <= k < r ==> !AnyWall(lv, k, leftX, centerX, rightX)
      invariant hitRow != -1 ==> hitRow == FirstWallRow(lv, baseRow, leftX, centerX, rightX)
    {
      if r < 0 || r >= LevelHeight {
        continue;
      }
      var l := WallSample(lv, r, leftX);
      var c := WallSample(lv, r, centerX);
      var rt := WallSample(lv, r, rightX);
      if l || c || rt {
        hitRow := r;
        break;
      }
    }
  }

  /**
   * updatePlayer over its reference parameters; `dt` and `facingRight` are
   * accepted and unused, as in the source.
   */
  method UpdatePlayer(x: real, y: real, vx: real, vy: real, onGround: bool, lv: Level, dt: real,
                      facingRight: bool, frameW: int, frameH: int, scale: real)
    returns (x': real, y': real, vx': real, vy': real, onGround': bool)
    requires lv.Valid()
    ensures Mover(x', y', vx', vy', onGround') == PrevUpdatePlayer(lv, Mover(x, y, vx, vy, onGround), frameW, frameH, scale)
  {
    var nvy := vy;
    if !onGround {
      nvy := nvy + Gravity;
      if nvy > TerminalVelocity {
        nvy := TerminalVelocity;
      }
    }
    var moved := Mover(x + vx, y + nvy, vx, nvy, onGround);
    assert moved == Fall(Mover(x, y, vx, vy, onGround));
    var pW := BodyWidth(frameW, scale);
    var pH := BodyWidth(frameH, scale);
    var r := Resolve(lv, moved, pW, pH);
    x', y', vx', vy', onGround' := r.x, r.y, r.vx, r.vy, r.onGround;
  }

  /**
   * The collision part of updatePlayer for a player box of pW by pH after
   * its move: the floor scan and snap, the head bump, the screen clamps.
   */
  method Resolve(lv: Level, moved: Mover, pW: int, pH: int) returns (r: Mover)
    requires lv.Valid()
    ensures r == Bound(Bump(lv, Land(lv, moved, pW, pH), pW), pW, pH)
  {
    var x, y, vy, grounded := moved.x, moved.y, moved.vy, false;
    var baseRow := BaseRowOf(y, pH);
    var leftX := CellOf(x + 10.0);
    var centerX := CentreColOf(x, pW);
    var rightX := CellOf(x + pW as real - 10.0);

    var hitRow := ScanFloorRows(lv, baseRow, leftX, centerX, rightX);
    var floorHit := hitRow != -1;
    assert hitRow == HitRowOf(lv, moved, pW, pH);
    if floorHit && vy >= 0.0 {
      var topY := StandY(hitRow, centerX, pH);
      if y + pH as real >= (topY - 5) as real {
        y := topY as real;
        vy := 0.0;
        grounded := true;
      }
    }
    ghost var landed := Land(lv, moved, pW, pH);
    assert moved.(y := y, vy := vy, onGround := grounded) == landed;

    if vy < 0.0 {
      var headRow := CellOf(y + 10.0);
      var headHit := WallSample(lv, headRow, centerX);
      if headHit {
        y := ((headRow + 1) * CellSize) as real;
        vy := 0.0;
      }
    }
    ghost var bumped := Bump(lv, landed, pW);
    assert moved.(y := y, vy := vy, onGround := grounded) == bumped;

    if x < 0.0 {
      x := 0.0;
    }
    if x > (ScreenWidth - pW) as real {
      x := (ScreenWidth - pW) as real;
    }
    if y > (ScreenHeight - pH) as real {
      y := (ScreenHeight - pH) as real;
      vy := 0.0;
      grounded := true;
    }
    r := Mover(x, y, moved.vx, vy, grounded);
  }

  // ---------------------------------------------------------------------------
  // The enemy wall bounce

  const BounceLeft: real := 10.0
  const BounceRight: real := 1072.0  // SCREEN_WIDTH - 64

  /** One enemy's frame: move by the frame-scaled speed, then bounce off either wall. */
  function Bounce(x: real, vx: real, dt: real): (r: (real, real))
    ensures BounceLeft <= r.0 <= BounceRight
    ensures x + vx * dt * 60.0 < BounceLeft ==> r.0 == BounceLeft && r.1 == Abs(vx) && r.1 >= 0.0
    ensures x + vx * dt * 60.0 > BounceRight ==> r.0 == BounceRight && r.1 == -Abs(vx) && r.1 <= 0.0
    ensures BounceLeft <= x + vx * dt * 60.0 <= BounceRight ==> r == (x + vx * dt * 60.0, vx)
  {
    var x1 := x + vx * dt * 60.0;
    var (x2, v2) := if x1 < BounceLeft then (BounceLeft, Abs(vx)) else (x1, vx);
    if x2 > BounceRight then (BounceRight, -Abs(v2)) else (x2, v2)
  }

  /**
   * updateEnemy for entry i of the parallel arrays: an inactive entry is
   * left alone; an active one moves and bounces. No other entry changes.
   */
  method UpdateEnemy(i: int, ex: array<real>, evx: array<real>, eactive: array<bool>, dt: real)
    requires 0 <= i < ex.Length && i < evx.Length && i < eactive.Length
    requires ex != evx
    modifies ex, evx
    ensures !eactive[i] ==> ex[..] == old(ex[..]) && evx[..] == old(evx[..])
    ensures eactive[i] ==> (ex[i], evx[i]) == Bounce(old(ex[i]), old(evx[i]), dt)
    ensures forall k :: 0 <= k < ex.Length && k != i ==> ex[k] == old(ex[k])
    ensures forall k :: 0 <= k < evx.Length && k != i ==> evx[k] == old(evx[k])
  {
    if !eactive[i] {
      return;
    }
    ex[i] := ex[i] + evx[i] * dt * 60.0;
    if ex[i] < BounceLeft {
      ex[i] := BounceLeft;
      evx[i] := Abs(evx[i]);
    }
    if ex[i] > (ScreenWidth - 64) as real {
      ex[i] := (ScreenWidth - 64) as real;
      evx[i] := -Abs(evx[i]);
    }
  }
}
