// The collision resolvers shared by the player and the enemies: gravity
// integration, the three-sample floor probe with its row search order, the
// two-of-three ceiling probe, and the screen clamps.
module Physics {
  import opened Numeric
  import opened Grid

  /** The vertical state a collision pass reads and rewrites, plus x. */
  datatype Body = Body(x: real, y: real, vy: real, onGround: bool)

  /** How a row of three foot samples counts as support. */
  datatype FootRule =
    | CentreOrBoth  // the player: the centre sample, or both outer samples
    | AnyOfThree    // an enemy: any one sample

  predicate RowSupports(rule: FootRule, lv: Level, row: int, left: int, centre: int, right: int)
    requires lv.Valid()
    reads lv.tiles
  {
    0 <= row < LevelHeight &&
    match rule
    case CentreOrBoth =>
      SolidSample(lv, row, centre) || (SolidSample(lv, row, left) && SolidSample(lv, row, right))
    case AnyOfThree =>
      SolidSample(lv, row, left) || SolidSample(lv, row, centre) || SolidSample(lv, row, right)
  }

  /**
   * The floor row found by the probe, or -1: rows are tried in the order
   * base, base + 1, base - 1 and the first that supports wins.
   */
  function FloorHitRow(rule: FootRule, lv: Level, base: int, left: int, centre: int, right: int): (hit: int)
    requires lv.Valid()
    reads lv.tiles
    ensures hit == -1 <==>
              !RowSupports(rule, lv, base, left, centre, right) &&
              !RowSupports(rule, lv, base + 1, left, centre, right) &&
              !RowSupports(rule, lv, base - 1, left, centre, right)
    ensures hit != -1 ==>
              RowSupports(rule, lv, hit, left, centre, right) &&
              (hit == base ||
               (hit == base + 1 && !RowSupports(rule, lv, base, left, centre, right)) ||
               (hit == base - 1 && !RowSupports(rule, lv, base, left, centre, right) &&
                !RowSupports(rule, lv, base + 1, left, centre, right)))
  {
    if RowSupports(rule, lv, base, left, centre, right) then base
    else if RowSupports(rule, lv, base + 1, left, centre, right) then base + 1
    else if RowSupports(rule, lv, base - 1, left, centre, right) then base - 1
    else -1
  }

  /**
   * One frame of free motion before collision: gravity only while airborne,
   * capped at the terminal velocity; x moves by the frame-scaled horizontal
   * velocity and y by the vertical velocity.
   */
  function Integrate(b: Body, vx: real, dt: real): (r: Body)
    ensures r.onGround == b.onGround
    ensures b.onGround ==> r.vy == b.vy
    ensures !b.onGround ==> r.vy <= TerminalVelocity && (b.vy + Gravity <= TerminalVelocity ==> r.vy == b.vy + Gravity)
    ensures !b.onGround && b.vy + Gravity > TerminalVelocity ==> r.vy == TerminalVelocity
    ensures r.x == b.x + vx * dt * 60.0
    ensures r.y == b.y + r.vy
  {
    var vy := if b.onGround then b.vy
              else if b.vy + Gravity > TerminalVelocity then TerminalVelocity
              else b.vy + Gravity;
    Body(b.x + vx * dt * 60.0, b.y + vy, vy, b.onGround)
  }

  // ---------------------------------------------------------------------------
  // The player's resolver

  function PlayerBaseRow(b: Body, ph: int): int { CellOf(b.y + ph as real + 2.0) }
  function PlayerLeftCol(b: Body): int { CellOf(b.x + 10.0) }
  function PlayerRightCol(b: Body, pw: int): int { CellOf(b.x + pw as real - 10.0) }
  function PlayerCentreCol(b: Body, pw: int): int
    requires pw >= 0
  {
    CellOf(b.x + (pw / 2) as real)
  }

  /** The player's floor row, probed at the position the pass starts from. */
  function PlayerFloorRow(lv: Level, b: Body, pw: int, ph: int): int
    requires lv.Valid() && pw >= 0
    reads lv.tiles
  {
    FloorHitRow(CentreOrBoth, lv, PlayerBaseRow(b, ph), PlayerLeftCol(b), PlayerCentreCol(b, pw), PlayerRightCol(b, pw))
  }

  function HeadRow(b: Body): int { CellOf(b.y - 2.0) }

  /** How many of the three head samples (shifted 8 px toward the facing side) are walls. */
  function HeadWallCount(lv: Level, b: Body, pw: int, facingRight: bool): (n: nat)
    requires lv.Valid()
    reads lv.tiles
    ensures n <= 3
  {
    var off := if facingRight then 8.0 else -8.0;
    var row := HeadRow(b);
    (if WallSample(lv, row, CellOf(b.x + off + pw as real * 0.25)) then 1 else 0) +
    (if WallSample(lv, row, CellOf(b.x + off + pw as real * 0.5)) then 1 else 0) +
    (if WallSample(lv, row, CellOf(b.x + off + pw as real * 0.75)) then 1 else 0)
  }

  /** The ceiling probe: only while rising, and only against two or more wall samples. */
  function PlayerCeiling(lv: Level, b: Body, pw: int, facingRight: bool): Body
    requires lv.Valid()
    reads lv.tiles
  {
    if b.vy < 0.0 && HeadWallCount(lv, b, pw, facingRight) >= 2
    then b.(y := ((HeadRow(b) + 1) * CellSize) as real, vy := 0.0)
    else b
  }

  /** The clamp to the screen's bottom edge, which also grounds the entity. */
  function ClampToScreenFloor(b: Body, h: int): Body {
    if b.y > (ScreenHeight - h) as real then b.(y := (ScreenHeight - h) as real, vy := 0.0, onGround := true) else b
  }

  /** The clamp of x to [0, SCREEN_WIDTH - width], done as two separate tests. */
  function ClampToScreenSides(b: Body, w: int): Body {
    var x1 := if b.x < 0.0 then 0.0 else b.x;
    var x2 := if x1 > (ScreenWidth - w) as real then (ScreenWidth - w) as real else x1;
    b.(x := x2)
  }

  /** The surface a player standing on row `hit` is snapped to (its top minus the height). */
  function PlayerSnapTop(lv: Level, b: Body, pw: int, ph: int, hit: int): int
    requires lv.Valid() && pw >= 0
    reads lv.slopeOffset
  {
    PlatformTopYAt(lv, hit, PlayerCentreCol(b, pw)) - ph
  }

  /** The player's floor snap applies: a row was found and the player is not rising above it. */
  predicate PlayerSnaps(lv: Level, b: Body, pw: int, ph: int, facingRight: bool)
    requires lv.Valid() && pw >= 0
    reads lv.tiles, lv.slopeOffset
  {
    var hit := PlayerFloorRow(lv, b, pw, ph);
    var c := PlayerCeiling(lv, b, pw, facingRight);
    hit != -1 && (c.vy >= 0.0 || c.y > PlayerSnapTop(lv, b, pw, ph, hit) as real)
  }

  /** The ceiling probe followed by the floor snap. */
  function PlayerProbe(lv: Level, b: Body, pw: int, ph: int, facingRight: bool): Body
    requires lv.Valid() && pw >= 0
    reads lv.tiles, lv.slopeOffset
  {
    var c := PlayerCeiling(lv, b, pw, facingRight);
    if PlayerSnaps(lv, b, pw, ph, facingRight)
    then c.(y := PlayerSnapTop(lv, b, pw, ph, PlayerFloorRow(lv, b, pw, ph)) as real, vy := 0.0, onGround := true)
    else c.(onGround := false)
  }

  /**
   * Player::checkCollisions. The foot probe is taken at the incoming
   * position; the ceiling probe may first move the player down under a
   * ceiling; the floor snap then applies when the player is not rising or is
   * already below the surface; finally the screen clamps.
   */
  function ResolvePlayer(lv: Level, b: Body, pw: int, ph: int, facingRight: bool): Body
    requires lv.Valid() && pw >= 0
    reads lv.tiles, lv.slopeOffset
  {
    ClampToScreenFloor(ClampToScreenSides(PlayerProbe(lv, b, pw, ph, facingRight), pw), ph)
  }

  /** After the pass the player is on the screen, and a grounded player is at rest vertically. */
  lemma PlayerStaysOnScreen(lv: Level, b: Body, pw: int, ph: int, facingRight: bool)
    requires lv.Valid() && 0 <= pw
    ensures var r := ResolvePlayer(lv, b, pw, ph, facingRight);
            (pw <= ScreenWidth ==> 0.0 <= r.x <= (ScreenWidth - pw) as real) &&
            (0.0 <= b.x <= (ScreenWidth - pw) as real ==> r.x == b.x) &&
            r.y <= (ScreenHeight - ph) as real &&
            (r.onGround ==> r.vy == 0.0)
  {
  }

  /**
   * The floor snap: when it applies the player stands on the surface of the
   * first supporting row in search order (or on the screen floor if that
   * is higher up the screen); otherwise the player is grounded only by the
   * screen floor.
   */
  lemma PlayerSnapsToFloorRow(lv: Level, b: Body, pw: int, ph: int, facingRight: bool)
    requires lv.Valid() && 0 <= pw
    ensures var r := ResolvePlayer(lv, b, pw, ph, facingRight);
            var c := PlayerCeiling(lv, b, pw, facingRight);
            var top := PlayerSnapTop(lv, b, pw, ph, PlayerFloorRow(lv, b, pw, ph));
            (PlayerSnaps(lv, b, pw, ph, facingRight) ==>
               r.onGround && r.vy == 0.0 && r.y == (if top > ScreenHeight - ph then ScreenHeight - ph else top) as real) &&
            (!PlayerSnaps(lv, b, pw, ph, facingRight) ==> (r.onGround <==> c.y > (ScreenHeight - ph) as real))
  {
  }

  /** A grounded player stands on the surface of the probed floor row or on the screen floor. */
  lemma PlayerGroundedOnSurface(lv: Level, b: Body, pw: int, ph: int, facingRight: bool)
    requires lv.Valid() && 0 <= pw
    ensures var r := ResolvePlayer(lv, b, pw, ph, facingRight);
            var hit := PlayerFloorRow(lv, b, pw, ph);
            r.onGround ==>
              r.y == (ScreenHeight - ph) as real || (hit != -1 && r.y == PlayerSnapTop(lv, b, pw, ph, hit) as real)
  {
  }

  // ---------------------------------------------------------------------------
  // The enemies' resolver

  function EnemyBaseRow(b: Body, h: int): int { CellOf(b.y + h as real + 2.0) }
  function EnemyCentreCol(b: Body, w: int): int
    requires w >= 0
  {
    CellOf(b.x + (w / 2) as real)
  }

  function EnemyFloorRow(lv: Level, b: Body, w: int, h: int): int
    requires lv.Valid() && w >= 0
    reads lv.tiles
  {
    FloorHitRow(AnyOfThree, lv, EnemyBaseRow(b, h), CellOf(b.x + 5.0), EnemyCentreCol(b, w), CellOf(b.x + w as real - 5.0))
  }

  /**
   * Enemy::checkPlatformCollision: any one foot sample supports, the snap
   * happens only while not rising, x is never clamped, and there is no
   * ceiling probe.
   */
  function ResolveEnemy(lv: Level, b: Body, w: int, h: int): Body
    requires lv.Valid() && w >= 0
    reads lv.tiles, lv.slopeOffset
  {
    var hit := EnemyFloorRow(lv, b, w, h);
    var snapped :=
      if hit != -1 && b.vy >= 0.0 then
        b.(y := (PlatformTopYAt(lv, hit, EnemyCentreCol(b, w)) - h) as real, vy := 0.0, onGround := true)
      else b.(onGround := false);
    ClampToScreenFloor(snapped, h)
  }

  /**
   * After an enemy's pass: x is untouched, the enemy is above the screen
   * floor, a grounded enemy is at rest and stands on its floor row's surface
   * or the screen floor; a falling enemy over a supporting row snaps to it;
   * a rising enemy passes through platforms.
   */
  lemma EnemyLandsOnFloorRow(lv: Level, b: Body, w: int, h: int)
    requires lv.Valid() && 0 <= w
    ensures var r := ResolveEnemy(lv, b, w, h);
            var hit := EnemyFloorRow(lv, b, w, h);
            var top := PlatformTopYAt(lv, hit, EnemyCentreCol(b, w)) - h;
            r.x == b.x && r.y <= (ScreenHeight - h) as real && (r.onGround ==> r.vy == 0.0) &&
            (r.onGround ==> r.y == (ScreenHeight - h) as real || (hit != -1 && r.y == top as real)) &&
            (hit != -1 && b.vy >= 0.0 ==>
               r.onGround && r.vy == 0.0 && r.y == (if top > ScreenHeight - h then ScreenHeight - h else top) as real) &&
            (b.vy < 0.0 && b.y <= (ScreenHeight - h) as real ==> r == b.(onGround := false))
  {
  }
}
