// A captured enemy fired by the player: it either travels to a target row,
// flies until it meets a platform, or rolls along platforms, and it expires
// after its lifetime.
module Projectiles {
  import opened Numeric
  import opened Grid

  /** The projectile box: (int)(64 * 0.7). */
  const Size: int := 44
  const ProjectileSpeed: real := 12.0
  const RollSpeed: real := 0.9
  const Lifetime: real := 10.0
  const SpinSpeed: real := 15.0

  /** Firing directions: right, up, left, down. */
  predicate KnownDirection(dir: int) { 0 <= dir <= 3 }

  /**
   * The moving state of a projectile. `rolling` and `movingToRow` are the
   * two phase flags; neither set means flying.
   */
  datatype Shot = Shot(x: real, y: real, vx: real, vy: real, active: bool,
                       rolling: bool, movingToRow: bool, lifetime: real, rotation: real)

  /** The two phase flags are never both set. */
  predicate PhaseOk(s: Shot) { !(s.rolling && s.movingToRow) }

  /** The rolling velocity chosen when a projectile starts to roll with no speed. */
  function RollVelocity(rollDir: int, coin: bool): (v: real)
    ensures v != 0.0
    ensures rollDir == 0 ==> v == RollSpeed || v == -RollSpeed
    ensures rollDir > 0 ==> v > 0.0
    ensures rollDir < 0 ==> v < 0.0
    ensures rollDir == 1 ==> v == RollSpeed
    ensures rollDir == -1 ==> v == -RollSpeed
  {
    (if rollDir != 0 then rollDir as real else if coin then 1.0 else -1.0) * RollSpeed
  }

  /** The row a projectile spawned at y starts in. */
  function SpawnRow(sy: real): int {
    CellOf(sy + Size as real)
  }

  /** Resting on the surface of a row, as the source places a rolling projectile. */
  function RestY(row: int): real {
    (PlatformTopY(row) - Size) as real
  }

  /**
   * The state the constructor leaves: horizontal shots roll at once on the
   * spawn row; vertical shots travel one row up or down, or roll at once
   * when that row is off the grid.
   */
  function Launch(sx: real, sy: real, dir: int, coin: bool): Shot
    requires KnownDirection(dir)
  {
    var row := SpawnRow(sy);
    if dir == 0 then Shot(sx, RestY(row), RollSpeed, 0.0, true, true, false, Lifetime, 0.0)
    else if dir == 2 then Shot(sx, RestY(row), -RollSpeed, 0.0, true, true, false, Lifetime, 0.0)
    else
      var desired := LaunchRow(row, dir);
      if desired != row then
        Shot(sx, sy, 0.0, if dir == 1 then -ProjectileSpeed else ProjectileSpeed, true, false, true, Lifetime, 0.0)
      else
        Shot(sx, RestY(row), RollVelocity(0, coin), 0.0, true, true, false, Lifetime, 0.0)
  }

  /** The row a vertical shot aims for: one up or one down, kept on the grid. */
  function LaunchRow(row: int, dir: int): int {
    if dir == 1 then Max(0, row - 1)
    else if dir == 3 then Min(LevelHeight - 1, row + 1)
    else row
  }

  /**
   * Every launch is active with a full lifetime and a consistent phase; a
   * horizontal shot rolls toward its side at once, and a vertical shot
   * travels at full speed exactly when it has a row to reach.
   */
  lemma LaunchStartsConsistent(sx: real, sy: real, dir: int, coin: bool)
    requires KnownDirection(dir)
    ensures var s := Launch(sx, sy, dir, coin);
            s.active && s.lifetime == Lifetime && PhaseOk(s) && s.x == sx &&
            (dir == 0 ==> s.rolling && s.vx == RollSpeed) &&
            (dir == 2 ==> s.rolling && s.vx == -RollSpeed) &&
            (s.rolling ==> s.y == RestY(SpawnRow(sy)) && s.vy == 0.0 && (s.vx == RollSpeed || s.vx == -RollSpeed)) &&
            (dir == 1 ==> (s.movingToRow <==> SpawnRow(sy) != 0) && (s.movingToRow ==> s.vy == -ProjectileSpeed)) &&
            (dir == 3 ==> (s.movingToRow <==> SpawnRow(sy) != LevelHeight - 1) && (s.movingToRow ==> s.vy == ProjectileSpeed))
  {
  }

  /** Travel toward the target row; on reaching it, snap to its surface and roll. */
  function MoveToRow(t: Shot, dir: int, desiredRow: int, rollDir: int, coin: bool): Shot {
    var y := t.y + t.vy;
    var target := RestY(desiredRow);
    var reached := if dir == 1 then y <= target else y >= target;
    if reached then
      t.(y := target, vy := 0.0, rolling := true, movingToRow := false,
         vx := if t.vx == 0.0 then RollVelocity(rollDir, coin) else t.vx)
    else t.(y := y)
  }

  /** The grid cell under a projectile's bottom centre. */
  function ProbeRow(y: real): int { CellOf(y + Size as real) }
  function ProbeCol(x: real): int { CellOf(x + (Size / 2) as real) }

  /** Free flight; touching any standable tile puts it on that tile's surface, rolling. */
  function Fly(lv: Level, t: Shot, rollDir: int, coin: bool): Shot
    requires lv.Valid()
    reads lv.tiles, lv.slopeOffset
  {
    var x := t.x + t.vx;
    var y := t.y + t.vy;
    var row := ProbeRow(y);
    var col := ProbeCol(x);
    if SolidSample(lv, row, col) then
      t.(x := x, y := (PlatformTopYAt(lv, row, col) - Size) as real, vy := 0.0, rolling := true,
         vx := if t.vx == 0.0 then RollVelocity(rollDir, coin) else t.vx)
    else t.(x := x, y := y)
  }

  /** Rolling with half gravity, resting on surfaces, bouncing off the screen sides. */
  function Roll(lv: Level, t: Shot): Shot
    requires lv.Valid()
    reads lv.tiles, lv.slopeOffset
  {
    var x := t.x + t.vx;
    var vy := t.vy + Gravity * 0.5;
    var y := t.y + vy;
    var row := ProbeRow(y);
    var col := ProbeCol(x);
    var (y1, vy1) := if SolidSample(lv, row, col) then ((PlatformTopYAt(lv, row, col) - Size) as real, 0.0) else (y, vy);
    var (x2, vx2) := if x < 10.0 then (10.0, RollSpeed) else (x, t.vx);
    var (x3, vx3) := if x2 > (ScreenWidth - Size - 10) as real then ((ScreenWidth - Size - 10) as real, -RollSpeed) else (x2, vx2);
    var (y4, vy4) := if y1 > (ScreenHeight - Size) as real then ((ScreenHeight - Size) as real, 0.0) else (y1, vy1);
    t.(x := x3, y := y4, vx := vx3, vy := vy4)
  }

  /** Projectile::update for one frame of `dt` seconds. */
  function Step(lv: Level, s: Shot, dt: real, dir: int, desiredRow: int, rollDir: int, coin: bool): Shot
    requires lv.Valid()
    reads lv.tiles, lv.slopeOffset
  {
    if !s.active then s
    else if s.lifetime - dt <= 0.0 then s.(lifetime := s.lifetime - dt, active := false)
    else
      var t := s.(lifetime := s.lifetime - dt);
      var m := if t.movingToRow then MoveToRow(t, dir, desiredRow, rollDir, coin)
               else if !t.rolling then Fly(lv, t, rollDir, coin)
               else Roll(lv, t);
      m.(rotation := m.rotation + (if m.rolling then Abs(m.vx) * 1.2 else SpinSpeed))
  }

  /**
   * Phases only move toward rolling: a rolling projectile stays rolling, one
   * not travelling to a row never starts to, and the two flags stay exclusive.
   * An inactive projectile is left as it is, and one whose lifetime runs
   * out is deactivated whatever its phase, with nothing else moved.
   */
  lemma PhasesOnlyAdvance(lv: Level, s: Shot, dt: real, dir: int, desiredRow: int, rollDir: int, coin: bool)
    requires lv.Valid()
    ensures var r := Step(lv, s, dt, dir, desiredRow, rollDir, coin);
            (s.rolling ==> r.rolling) && (!s.movingToRow ==> !r.movingToRow) &&
            (PhaseOk(s) ==> PhaseOk(r)) && (r.active ==> s.active) &&
            (!s.active ==> r == s) &&
            (s.active && s.lifetime - dt <= 0.0 ==> r == s.(lifetime := s.lifetime - dt, active := false))
  {
  }

  /**
   * A projectile travelling to a row that reaches it this frame lands on
   * the row's surface and rolls; one that has not reached it keeps going.
   */
  lemma ReachingRowStartsRolling(lv: Level, s: Shot, dt: real, dir: int, desiredRow: int, rollDir: int, coin: bool)
    requires lv.Valid() && s.active && s.lifetime - dt > 0.0 && s.movingToRow
    ensures var r := Step(lv, s, dt, dir, desiredRow, rollDir, coin);
            var y := s.y + s.vy;
            var reached := if dir == 1 then y <= RestY(desiredRow) else y >= RestY(desiredRow);
            r.active && r.x == s.x &&
            (reached ==> r.rolling && !r.movingToRow && r.y == RestY(desiredRow) && r.vy == 0.0 && r.vx != 0.0) &&
            (!reached ==> r.movingToRow && r.y == y && r.vy == s.vy)
  {
  }

  /**
   * A flying projectile whose probe cell holds a standable tile lands on
   * that cell's surface and rolls; over empty cells it keeps flying.
   */
  lemma AerialLandingStartsRolling(lv: Level, s: Shot, dt: real, dir: int, desiredRow: int, rollDir: int, coin: bool)
    requires lv.Valid() && s.active && s.lifetime - dt > 0.0 && !s.movingToRow && !s.rolling
    ensures var r := Step(lv, s, dt, dir, desiredRow, rollDir, coin);
            var row := ProbeRow(s.y + s.vy);
            var col := ProbeCol(s.x + s.vx);
            r.active && !r.movingToRow && r.x == s.x + s.vx &&
            (SolidSample(lv, row, col) ==>
               r.rolling && r.vy == 0.0 && r.vx != 0.0 && r.y == (PlatformTopYAt(lv, row, col) - Size) as real) &&
            (!SolidSample(lv, row, col) ==> !r.rolling && r.y == s.y + s.vy && r.vx == s.vx)
  {
  }

  /**
   * A rolling projectile stays between the bounce walls and above the
   * screen floor, and after a bounce it heads back inward.
   */
  lemma RollingStaysOnScreen(lv: Level, s: Shot, dt: real, dir: int, desiredRow: int, rollDir: int, coin: bool)
    requires lv.Valid() && s.active && s.lifetime - dt > 0.0 && !s.movingToRow && s.rolling
    ensures var r := Step(lv, s, dt, dir, desiredRow, rollDir, coin);
            r.rolling && 10.0 <= r.x <= (ScreenWidth - Size - 10) as real &&
            r.y <= (ScreenHeight - Size) as real &&
            (s.x + s.vx < 10.0 ==> r.vx == RollSpeed) &&
            (s.x + s.vx > (ScreenWidth - Size - 10) as real ==> r.vx == -RollSpeed)
  {
  }

  /**
   * The lifetime falls by the frame time on every active frame, so a
   * projectile is deactivated once the frames it has lived total its lifetime.
   */
  lemma LifetimeCountsDown(lv: Level, s: Shot, dt: real, dir: int, desiredRow: int, rollDir: int, coin: bool)
    requires lv.Valid() && s.active
    ensures var r := Step(lv, s, dt, dir, desiredRow, rollDir, coin);
            r.lifetime == s.lifetime - dt && (r.active <==> s.lifetime - dt > 0.0)
  {
  }

  class Projectile {
    var shot: Shot
    var dir: int
    var desiredRow: int
    var rollDir: int
    const spawnRow: int
    const enemyType: int

    predicate Valid()
      reads this`shot
    {
      PhaseOk(shot)
    }

    /** Projectile(sx, sy, dir, type); `coin` stands for the rand() roll direction draw. */
    constructor (sx: real, sy: real, d: int, t: int, coin: bool)
      requires KnownDirection(d)
      ensures Valid()
      ensures shot == Launch(sx, sy, d, coin)
      ensures dir == d && enemyType == t && rollDir == 0
      ensures spawnRow == SpawnRow(sy) && desiredRow == LaunchRow(spawnRow, d)
    {
      var row := SpawnRow(sy);
      spawnRow := row;
      dir := d;
      enemyType := t;
      rollDir := 0;
      var x, y, vx, vy := sx, sy, 0.0, 0.0;
      var rolling, moving := false, false;
      var desired := row;
      if d == 0 || d == 2 {
        rolling := true;
        y := RestY(row);
        vx := if d == 0 then RollSpeed else -RollSpeed;
      } else {
        vy := if d == 1 then -ProjectileSpeed else ProjectileSpeed;
        desired := if d == 1 then Max(0, row - 1) else Min(LevelHeight - 1, row + 1);
        moving := desired != row;
        if !moving {
          rolling := true;
          y := RestY(row);
          vy := 0.0;
          vx := RollVelocity(0, coin);
        }
      }
      desiredRow := desired;
      shot := Shot(x, y, vx, vy, true, rolling, moving, Lifetime, 0.0);
      LaunchStartsConsistent(sx, sy, d, coin);
    }

    /**
     * The launcher's roll direction: a shot fired sideways rolls on, after
     * any retargeting, the way the player faces; other shots keep theirs.
     */
    method SetRollDirection(facingRight: bool)
      modifies this`rollDir
      ensures dir == 0 || dir == 2 ==> rollDir == (if facingRight then 1 else -1)
      ensures !(dir == 0 || dir == 2) ==> rollDir == old(rollDir)
    {
      if dir == 0 || dir == 2 {
        rollDir := if facingRight then 1 else -1;
      }
    }

    /**
     * The launcher's retargeting: when the best platform row `br` exists and
     * differs from the spawn row, travel straight to it with no sideways speed.
     */
    method AimAtRow(br: int)
      requires Valid()
      modifies this`shot, this`dir, this`desiredRow
      ensures Valid()
      ensures br != -1 && br != spawnRow ==>
                desiredRow == br && dir == (if br < spawnRow then 1 else 3) &&
                shot == old(shot).(movingToRow := true, rolling := false, vx := 0.0,
                                   vy := if br < spawnRow then -ProjectileSpeed else ProjectileSpeed)
      ensures !(br != -1 && br != spawnRow) ==> shot == old(shot) && dir == old(dir) && desiredRow == old(desiredRow)
    {
      if br != -1 && br != spawnRow {
        desiredRow := br;
        dir := if br < spawnRow then 1 else 3;
        shot := shot.(movingToRow := true, rolling := false, vx := 0.0,
                      vy := if dir == 1 then -ProjectileSpeed else ProjectileSpeed);
      }
    }

    /** Projectile::update; `coin` stands for the rand() roll direction draw. */
    method Update(dt: real, lv: Level, coin: bool)
      requires Valid() && lv.Valid()
      modifies this`shot
      ensures Valid()
      ensures shot == old(Step(lv, shot, dt, dir, desiredRow, rollDir, coin))
    {
      var s := shot;
      ghost var start := s;
      if !s.active {
        return;
      }
      var lifetime := s.lifetime - dt;
      if lifetime <= 0.0 {
        shot := s.(lifetime := lifetime, active := false);
        return;
      }
      var x, y, vx, vy, rolling, moving := s.x, s.y, s.vx, s.vy, s.rolling, s.movingToRow;
      if moving {
        y := y + vy;
        var targetY := RestY(desiredRow);
        var reached := if dir == 1 then y <= targetY else y >= targetY;
        if reached {
          y := targetY;
          vy := 0.0;
          rolling := true;
          moving := false;
          if vx == 0.0 {
            vx := RollVelocity(rollDir, coin);
          }
        }
      } else if !rolling {
        x := x + vx;
        y := y + vy;
        var gridY := ProbeRow(y);
        var gridX := ProbeCol(x);
        if SolidSample(lv, gridY, gridX) {
          rolling := true;
          y := (PlatformTopYAt(lv, gridY, gridX) - Size) as real;
          vy := 0.0;
          if vx == 0.0 {
            vx := RollVelocity(rollDir, coin);
          }
        }
      } else {
        x := x + vx;
        vy := vy + Gravity * 0.5;
        y := y + vy;
        var gridY := ProbeRow(y);
        var gridX := ProbeCol(x);
        if SolidSample(lv, gridY, gridX) {
          y := (PlatformTopYAt(lv, gridY, gridX) - Size) as real;
          vy := 0.0;
        }
        if x < 10.0 {
          x := 10.0;
          vx := RollSpeed;
        }
        if x > (ScreenWidth - Size - 10) as real {
          x := (ScreenWidth - Size - 10) as real;
          vx := -RollSpeed;
        }
        if y > (ScreenHeight - Size) as real {
          y := (ScreenHeight - Size) as real;
          vy := 0.0;
        }
      }
      var rotation := s.rotation + (if rolling then Abs(vx) * 1.2 else SpinSpeed);
      ghost var stepped := Step(lv, start, dt, dir, desiredRow, rollDir, coin);
      assert Shot(x, y, vx, vy, true, rolling, moving, lifetime, rotation) == stepped;
      PhasesOnlyAdvance(lv, start, dt, dir, desiredRow, rollDir, coin);
      shot := Shot(x, y, vx, vy, true, rolling, moving, lifetime, rotation);
    }
  }
}
