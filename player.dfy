// The player: the capture inventory (a bounded stack in a five-slot array),
// the powerup timers with the health cap, the choice of animation state,
// the vacuum beam's animation machine, and the per-frame update around the
// collision resolver.
module PlayerModel {
  import opened Numeric
  import opened Grid
  import opened Physics

  const PlayerScale: real := 1.95
  const PlayerFrameSize: int := 96

  datatype AnimState =
    | Idle | Run | Slide | JumpStart | JumpMid | JumpPeak | Fall | Alert | Land | Crouch
    | Hurt | Knockdown | Victory | DeathFade | PowerRun | Jetpack | Shoot | ShootForward | ShootSide

  datatype PowerupType = SpeedUp | RangeUp | PowerUp | ExtraLife

  /** The beam animation: 0 = off, 1 = grow, 2 = sustain, 3 = shrink in the source. */
  datatype VacuumAnim = Off | Grow | Sustain | Shrink

  // ---------------------------------------------------------------------------
  // The capture inventory

  const Slots: int := 5

  /** The five slots, how many are in use, and how many may be. */
  datatype Inventory = Inventory(slots: seq<int>, count: int, capacity: int)

  /** Slots at and past the count hold -1; the count stays within the capacity of 3 or 5. */
  predicate InventoryValid(v: Inventory) {
    |v.slots| == Slots && (v.capacity == 3 || v.capacity == 5) && 0 <= v.count <= v.capacity &&
    forall i :: v.count <= i < Slots ==> v.slots[i] == -1
  }

  /** The captured enemy types, oldest first. */
  function Held(v: Inventory): seq<int>
    requires 0 <= v.count <= |v.slots|
  {
    v.slots[..v.count]
  }

  function EmptySlots(): (s: seq<int>)
    ensures |s| == Slots && forall i :: 0 <= i < Slots ==> s[i] == -1
  {
    [-1, -1, -1, -1, -1]
  }

  /** captureEnemy: pushes the type when there is room; on a full stack nothing changes. */
  function CaptureSpec(v: Inventory, t: int): (r: Inventory)
    requires InventoryValid(v)
    ensures InventoryValid(r) && r.capacity == v.capacity
    ensures v.count < v.capacity ==> r.count == v.count + 1 && Held(r) == Held(v) + [t]
    ensures v.count == v.capacity ==> r == v
  {
    if v.count < v.capacity then v.(slots := v.slots[v.count := t], count := v.count + 1) else v
  }

  /**
   * releaseOneEnemy: pops and returns the most recent capture, clearing its
   * slot; on an empty stack returns -1 and changes nothing.
   */
  function ReleaseOneSpec(v: Inventory): (r: (Inventory, int))
    requires InventoryValid(v)
    ensures InventoryValid(r.0) && r.0.capacity == v.capacity
    ensures v.count > 0 ==> r.1 == Held(v)[v.count - 1] && r.0.count == v.count - 1 && Held(r.0) == Held(v)[..v.count - 1]
    ensures v.count == 0 ==> r == (v, -1)
  {
    if v.count > 0 then (v.(slots := v.slots[v.count - 1 := -1], count := v.count - 1), v.slots[v.count - 1])
    else (v, -1)
  }

  function Reverse(s: seq<int>): (r: seq<int>)
    ensures |r| == |s| && forall i :: 0 <= i < |s| ==> r[i] == s[|s| - 1 - i]
  {
    seq(|s|, i requires 0 <= i < |s| => s[|s| - 1 - i])
  }

  /** releaseAllEnemies: the captured types newest first, and an empty stack. */
  function ReleaseAllSpec(v: Inventory): (r: (Inventory, seq<int>))
    requires InventoryValid(v)
    ensures InventoryValid(r.0) && r.0.count == 0 && r.0.capacity == v.capacity
    ensures |r.1| == v.count
  {
    (Inventory(EmptySlots(), 0, v.capacity), Reverse(Held(v)))
  }

  /** Popping until empty, collecting the popped types in order. */
  function Drain(v: Inventory): (r: (Inventory, seq<int>))
    requires InventoryValid(v)
    decreases v.count
  {
    if v.count == 0 then (v, [])
    else
      var (v', t) := ReleaseOneSpec(v);
      var (w, ts) := Drain(v');
      (w, [t] + ts)
  }

  /** A capture followed by a release gives back the captured type and the former stack. */
  lemma {:induction false} CaptureThenRelease(v: Inventory, t: int)
    requires InventoryValid(v) && v.count < v.capacity
    ensures ReleaseOneSpec(CaptureSpec(v, t)) == (v, t)
  {
    var c := CaptureSpec(v, t);
    assert c.slots[v.count := -1] == v.slots;
  }

  /** Releasing everything at once is the same as releasing one at a time until empty. */
  lemma {:induction false} ReleaseAllIsRepeatedRelease(v: Inventory)
    requires InventoryValid(v)
    ensures ReleaseAllSpec(v) == Drain(v)
    decreases v.count
  {
    if v.count == 0 {
      assert v.slots == EmptySlots();
    } else {
      var (v', t) := ReleaseOneSpec(v);
      ReleaseAllIsRepeatedRelease(v');
      assert Reverse(Held(v)) == [t] + Reverse(Held(v'));
    }
  }

  // ---------------------------------------------------------------------------
  // Powerups

  const BoostDuration: real := 10.0
  const MaxHealth: int := 5

  /** The boosted values, their base values, the three boost timers and the health. */
  datatype Boosts = Boosts(
    speed: real, baseSpeed: real,
    vacuumRange: real, baseVacuumRange: real,
    vacuumAngle: real, baseVacuumAngle: real,
    speedTimer: real, rangeTimer: real, powerTimer: real,
    health: int)

  predicate IsTimed(t: PowerupType) { t != ExtraLife }

  function Timer(b: Boosts, t: PowerupType): real
    requires IsTimed(t)
  {
    match t
    case SpeedUp => b.speedTimer
    case RangeUp => b.rangeTimer
    case PowerUp => b.powerTimer
  }

  /** The value a timed powerup boosts: speed, the cone angle (range) or the reach (power). */
  function Boosted(b: Boosts, t: PowerupType): real
    requires IsTimed(t)
  {
    match t
    case SpeedUp => b.speed
    case RangeUp => b.vacuumAngle
    case PowerUp => b.vacuumRange
  }

  function BaseOf(b: Boosts, t: PowerupType): real
    requires IsTimed(t)
  {
    match t
    case SpeedUp => b.baseSpeed
    case RangeUp => b.baseVacuumAngle
    case PowerUp => b.baseVacuumRange
  }

  function Factor(t: PowerupType): real {
    if t == SpeedUp then 2.0 else 1.5
  }

  predicate SameBases(a: Boosts, b: Boosts) {
    a.baseSpeed == b.baseSpeed && a.baseVacuumRange == b.baseVacuumRange && a.baseVacuumAngle == b.baseVacuumAngle
  }

  /** A boost whose timer has run out holds its base value. */
  predicate Settled(b: Boosts, t: PowerupType)
    requires IsTimed(t)
  {
    Timer(b, t) <= 0.0 ==> Boosted(b, t) == BaseOf(b, t)
  }

  predicate BoostsSettled(b: Boosts) {
    Settled(b, SpeedUp) && Settled(b, RangeUp) && Settled(b, PowerUp)
  }

  /**
   * applyPowerup: a timed powerup starts its ten-second timer and sets its
   * value to the base times its factor, touching nothing else; an extra life
   * adds one health up to the cap of five.
   */
  function ApplyPowerupSpec(b: Boosts, t: PowerupType): (r: Boosts)
    ensures SameBases(r, b)
    ensures IsTimed(t) ==> Timer(r, t) == BoostDuration && Boosted(r, t) == Factor(t) * BaseOf(b, t) && r.health == b.health
    ensures IsTimed(t) ==> forall u :: IsTimed(u) && u != t ==> Timer(r, u) == Timer(b, u) && Boosted(r, u) == Boosted(b, u)
    ensures t == ExtraLife ==> r.health <= MaxHealth && r == b.(health := r.health)
    ensures t == ExtraLife && b.health < MaxHealth ==> r.health == b.health + 1
    ensures t == ExtraLife && b.health >= MaxHealth ==> r.health == MaxHealth
    ensures BoostsSettled(b) ==> BoostsSettled(r)
  {
    match t
    case SpeedUp => b.(speedTimer := 10.0, speed := b.baseSpeed * 2.0)
    case RangeUp => b.(rangeTimer := 10.0, vacuumAngle := b.baseVacuumAngle * 1.5)
    case PowerUp => b.(powerTimer := 10.0, vacuumRange := b.baseVacuumRange * 1.5)
    case ExtraLife =>
      var h := b.health + 1;
      b.(health := if h > 5 then 5 else h)
  }

  /** One timer's step: a running timer counts down and restores the base value when it runs out. */
  predicate TimerStep(b: Boosts, r: Boosts, t: PowerupType, dt: real)
    requires IsTimed(t)
  {
    (Timer(b, t) <= 0.0 ==> Timer(r, t) == Timer(b, t) && Boosted(r, t) == Boosted(b, t)) &&
    (Timer(b, t) > 0.0 ==>
       Timer(r, t) == Timer(b, t) - dt &&
       Boosted(r, t) == (if Timer(r, t) <= 0.0 then BaseOf(b, t) else Boosted(b, t)))
  }

  /** updatePowerups: each of the three timers steps on its own; bases and health are kept. */
  function UpdatePowerupsSpec(b: Boosts, dt: real): Boosts {
    var b1 :=
      if b.speedTimer > 0.0 then
        var t := b.speedTimer - dt;
        b.(speedTimer := t, speed := if t <= 0.0 then b.baseSpeed else b.speed)
      else b;
    var b2 :=
      if b1.rangeTimer > 0.0 then
        var t := b1.rangeTimer - dt;
        b1.(rangeTimer := t, vacuumAngle := if t <= 0.0 then b1.baseVacuumAngle else b1.vacuumAngle)
      else b1;
    if b2.powerTimer > 0.0 then
      var t := b2.powerTimer - dt;
      b2.(powerTimer := t, vacuumRange := if t <= 0.0 then b2.baseVacuumRange else b2.vacuumRange)
    else b2
  }

  /** Each of the three timers steps on its own; bases and health are kept, and settled boosts stay settled. */
  lemma TimersStepIndependently(b: Boosts, dt: real)
    ensures var r := UpdatePowerupsSpec(b, dt);
            TimerStep(b, r, SpeedUp, dt) && TimerStep(b, r, RangeUp, dt) && TimerStep(b, r, PowerUp, dt) &&
            SameBases(r, b) && r.health == b.health &&
            (BoostsSettled(b) ==> BoostsSettled(r))
  {
  }

  function UpdateAll(b: Boosts, dts: seq<real>): Boosts
    decreases |dts|
  {
    if dts == [] then b else UpdateAll(UpdatePowerupsSpec(b, dts[0]), dts[1..])
  }

  /** A boost keeps its value while the frames passed add up to less than its timer. */
  lemma {:induction false} BoostHolds(b: Boosts, t: PowerupType, dts: seq<real>)
    requires IsTimed(t) && AllNonNegative(dts) && Sum(dts) < Timer(b, t)
    ensures Boosted(UpdateAll(b, dts), t) == Boosted(b, t)
    ensures Timer(UpdateAll(b, dts), t) == Timer(b, t) - Sum(dts)
    decreases |dts|
  {
    if dts != [] {
      assert dts[0] >= 0.0;
      SumNonNegative(dts[1..]);
      var b1 := UpdatePowerupsSpec(b, dts[0]);
      TimersStepIndependently(b, dts[0]);
      BoostHolds(b1, t, dts[1..]);
    }
  }

  /** Once its timer has run out a boost's value and timer stay put. */
  lemma {:induction false} ExpiredBoostStays(b: Boosts, t: PowerupType, dts: seq<real>)
    requires IsTimed(t) && Timer(b, t) <= 0.0
    ensures Boosted(UpdateAll(b, dts), t) == Boosted(b, t) && Timer(UpdateAll(b, dts), t) == Timer(b, t)
    ensures SameBases(UpdateAll(b, dts), b)
    decreases |dts|
  {
    if dts != [] {
      var b1 := UpdatePowerupsSpec(b, dts[0]);
      TimersStepIndependently(b, dts[0]);
      ExpiredBoostStays(b1, t, dts[1..]);
    }
  }

  /** A running boost falls back to its base value once frames totalling its timer have passed. */
  lemma {:induction false} BoostExpires(b: Boosts, t: PowerupType, dts: seq<real>)
    requires IsTimed(t) && AllNonNegative(dts) && 0.0 < Timer(b, t) <= Sum(dts)
    ensures Boosted(UpdateAll(b, dts), t) == BaseOf(b, t)
    decreases |dts|
  {
    var b1 := UpdatePowerupsSpec(b, dts[0]);
    TimersStepIndependently(b, dts[0]);
    if Timer(b1, t) <= 0.0 {
      ExpiredBoostStays(b1, t, dts[1..]);
    } else {
      BoostExpires(b1, t, dts[1..]);
    }
  }

  /** A collected timed powerup lasts exactly ten seconds of frames. */
  lemma PowerupLastsTenSeconds(b: Boosts, t: PowerupType, dts: seq<real>)
    requires IsTimed(t) && AllNonNegative(dts)
    ensures Sum(dts) < BoostDuration ==> Boosted(UpdateAll(ApplyPowerupSpec(b, t), dts), t) == Factor(t) * BaseOf(b, t)
    ensures Sum(dts) >= BoostDuration ==> Boosted(UpdateAll(ApplyPowerupSpec(b, t), dts), t) == BaseOf(b, t)
  {
    var a := ApplyPowerupSpec(b, t);
    if Sum(dts) < BoostDuration {
      BoostHolds(a, t, dts);
    } else {
      BoostExpires(a, t, dts);
    }
  }

  // ---------------------------------------------------------------------------
  // Animation state

  /** Hurt, knockdown and the shooting poses play for a minimum time before motion may replace them. */
  predicate Committed(s: AnimState, stateTimer: real) {
    (s == Hurt && stateTimer < 0.35) ||
    (s == Knockdown && stateTimer < 0.5) ||
    ((s == Shoot || s == ShootForward || s == ShootSide) && stateTimer < 0.3)
  }

  predicate GroundState(s: AnimState) { s == Idle || s == Run || s == PowerRun }
  predicate AirState(s: AnimState) { s == JumpStart || s == JumpMid || s == JumpPeak || s == Fall }

  /** The band of upward speeds in which the airborne choice keeps the previous state. */
  predicate HoldBand(vy: real) { -2.0 <= vy <= -1.8 }

  /**
   * The motion-driven choice of animation state: a committed state is
   * kept; on the ground idle, run or power run; in the air a jump phase by
   * vertical speed.
   */
  function NextAnimState(current: AnimState, stateTimer: real, onGround: bool, vx: real, vy: real, boosted: bool): AnimState {
    if Committed(current, stateTimer) then current
    else if onGround then
      if !(Abs(vx) > 0.1) then Idle else if boosted then PowerRun else Run
    else if vy < -9.0 then JumpStart
    else if vy < -2.0 then JumpMid
    else if Abs(vy) < 1.8 then JumpPeak
    else if vy > 0.0 then Fall
    else current
  }

  /**
   * The choice keeps a committed state; on the ground it is idle exactly
   * when not moving and power run exactly when moving while boosted; in the
   * air it keeps the state inside the hold band and otherwise picks the jump
   * phase from the vertical speed.
   */
  lemma AnimChoiceFollowsMotion(current: AnimState, stateTimer: real, onGround: bool, vx: real, vy: real, boosted: bool)
    ensures var r := NextAnimState(current, stateTimer, onGround, vx, vy, boosted);
            (Committed(current, stateTimer) ==> r == current) &&
            (!Committed(current, stateTimer) && onGround ==>
               GroundState(r) && (r == Idle <==> Abs(vx) <= 0.1) && (r == PowerRun <==> Abs(vx) > 0.1 && boosted)) &&
            (!Committed(current, stateTimer) && !onGround && HoldBand(vy) ==> r == current) &&
            (!Committed(current, stateTimer) && !onGround && !HoldBand(vy) ==>
               AirState(r) && (r == JumpStart <==> vy < -9.0) && (r == JumpPeak <==> -1.8 < vy < 1.8) &&
               (r == Fall <==> vy >= 1.8))
  {
  }

  /**
   * The frame counter: the timer accumulates, and once it exceeds one
   * frame's time (for a sequence of more than one frame) the frame steps,
   * wrapping at the sequence length, and the timer restarts.
   */
  function AdvanceFrame(frame: int, timer: real, dt: real, frames: int, fps: real): (int, real)
    requires fps > 0.0
  {
    var t := timer + dt;
    if frames > 1 && t > 1.0 / fps then ((frame + 1) % Max(1, frames), 0.0)
    else (frame, t)
  }

  /**
   * The frame stays inside the sequence; either the timer just accumulates
   * and the frame is kept, or the frame steps by one with wrap-around and
   * the timer restarts.
   */
  lemma FrameStaysInSequence(frame: int, timer: real, dt: real, frames: int, fps: real)
    requires fps > 0.0
    ensures var r := AdvanceFrame(frame, timer, dt, frames, fps);
            (0 <= frame ==> 0 <= r.0) &&
            (frames > 1 && 0 <= frame < frames ==> r.0 < frames) &&
            (r.1 != timer + dt ==> r.1 == 0.0 && frames > 1 && r.0 == (frame + 1) % frames) &&
            (r.1 == timer + dt ==> r.0 == frame)
  {
  }

  // ---------------------------------------------------------------------------
  // The vacuum beam animation

  /** The frame stays within the sheet, and an idle beam rests on frame 0. */
  predicate VacuumInv(s: VacuumAnim, frame: real, totalFrames: int) {
    0.0 <= frame && (totalFrames > 0 ==> frame < totalFrames as real) && (s == Off ==> frame == 0.0)
  }

  /**
   * One frame of the beam animation: holding the button makes an off or
   * shrinking beam grow, releasing it makes a growing or sustained beam
   * shrink; then, when the sheet has frames, growing advances to the last
   * frame and turns to sustain, sustain loops back to 60% of the sheet, and
   * shrinking runs backwards one and a half times as fast to frame 0 and off.
   */
  function VacuumStep(s: VacuumAnim, frame: real, active: bool, totalFrames: int, dt: real, animSpeed: real): (r: (VacuumAnim, real))
    ensures active ==> r.0 == Grow || r.0 == Sustain
    ensures !active ==> r.0 == Off || r.0 == Shrink
    ensures active && s == Sustain ==> r.0 == Sustain
    ensures !active && s == Off ==> r == (Off, frame)
    ensures VacuumInv(s, frame, totalFrames) && dt >= 0.0 && animSpeed >= 0.0 ==> VacuumInv(r.0, r.1, totalFrames)
    ensures totalFrames <= 0 ==> r.1 == frame
    // a growing beam turns to sustain exactly when it reaches the last frame, and rests there
    ensures totalFrames > 0 && active && s != Sustain ==>
              (r.0 == Sustain <==> frame + dt * animSpeed >= (totalFrames - 1) as real) &&
              r.1 == (if r.0 == Sustain then (totalFrames - 1) as real else frame + dt * animSpeed)
    // a sustained beam loops back to 60% of the sheet when it runs past the end
    ensures totalFrames > 0 && active && s == Sustain ==>
              r.1 == (if frame + dt * animSpeed >= totalFrames as real then 0.6 * totalFrames as real
                      else frame + dt * animSpeed)
    // a shrinking beam runs back at one and a half times the speed, and is off exactly at frame 0
    ensures totalFrames > 0 && !active && s != Off ==>
              (r.0 == Off <==> frame - dt * animSpeed * 1.5 <= 0.0) &&
              r.1 == (if r.0 == Off then 0.0 else frame - dt * animSpeed * 1.5)
  {
    var s1 :=
      if active then (if s.Off? || s.Shrink? then Grow else s)
      else (if !s.Off? && !s.Shrink? then Shrink else s);
    if totalFrames > 0 then
      var vacMax := totalFrames as real;
      var growEnd := vacMax - 1.0;
      var sustainStart := if vacMax * 0.6 < 0.0 then 0.0 else vacMax * 0.6;
      match s1
      case Grow =>
        var f := frame + dt * animSpeed;
        if f >= growEnd then (Sustain, growEnd) else (Grow, f)
      case Sustain =>
        var f := frame + dt * animSpeed;
        if f >= vacMax then (Sustain, sustainStart) else (Sustain, f)
      case Shrink =>
        var f := frame - dt * animSpeed * 1.5;
        if f <= 0.0 then (Off, 0.0) else (Shrink, f)
      case Off => (Off, frame)
    else (s1, frame)
  }

  // ---------------------------------------------------------------------------
  // The slide pose

  /** The tile under the middle of the player's feet is a ramp tile and the player runs on it. */
  predicate SlideApplies(lv: Level, b: Body, frameW: int, frameH: int, vx: real)
    requires lv.Valid()
    reads lv.tiles
  {
    var footRow := CellOf(b.y + frameH as real * PlayerScale);
    var centerCol := CellOf(b.x + frameW as real * PlayerScale / 2.0);
    InGrid(footRow, centerCol) && IsSlopeTile(lv.tiles[footRow, centerCol]) && b.onGround && Abs(vx) > 0.1
  }

  // ---------------------------------------------------------------------------
  // The player object

  /**
   * The player. The position, vertical speed and ground contact are held
   * together as one Body, and the boosted values, their bases, the boost
   * timers and the health as one Boosts record; the capture stack keeps its
   * five-slot array.
   */
  class Player {
    var body: Body
    var velocityX: real
    var facingRight: bool
    var isYellow: bool
    var boosts: Boosts
    var jumpBoostTimer: real

    var vacuumActive: bool
    const capturedEnemies: array<int>
    var capturedCount: int
    var maxCapacity: int

    var vacuumAnimState: VacuumAnim
    var vacuumAnimFrame: real
    const vacuumAnimSpeed: real

    var animFrame: int
    var animTimer: real
    var animState: AnimState
    var prevAnimState: AnimState
    var animStateTimer: real
    const frameW: int
    const frameH: int

    function Inv(): Inventory
      reads this`capturedCount, this`maxCapacity, capturedEnemies
    {
      Inventory(capturedEnemies[..], capturedCount, maxCapacity)
    }

    predicate Valid()
      reads this`capturedCount, this`maxCapacity, capturedEnemies, this`boosts
    {
      capturedEnemies.Length == Slots && InventoryValid(Inv()) && BoostsSettled(boosts) &&
      frameW >= 0 && frameH >= 0 && vacuumAnimSpeed >= 0.0
    }

    /** The collision width, `(int)(frameW * PLAYER_SCALE)`. */
    function Width(): int {
      Trunc(frameW as real * PlayerScale)
    }

    function Height(): int {
      Trunc(frameH as real * PlayerScale)
    }

    constructor ()
      ensures Valid() && fresh(capturedEnemies)
      ensures Inv() == Inventory(EmptySlots(), 0, 3)
      ensures body == Body(100.0, 500.0, 0.0, false) && velocityX == 0.0 && facingRight && isYellow
      ensures boosts == Boosts(8.0, 8.0, 150.0, 150.0, 45.0, 45.0, 0.0, 0.0, 0.0, 3)
      ensures animState == Idle && vacuumAnimState == Off && vacuumAnimFrame == 0.0 && vacuumAnimSpeed == 24.0
      ensures frameW == PlayerFrameSize && frameH == PlayerFrameSize
    {
      body := Body(100.0, 500.0, 0.0, false);
      velocityX := 0.0;
      isYellow := true;
      facingRight := true;
      boosts := Boosts(8.0, 8.0, 150.0, 150.0, 45.0, 45.0, 0.0, 0.0, 0.0, 3);
      vacuumActive := false;
      capturedCount := 0;
      maxCapacity := 3;
      vacuumAnimState := Off;
      vacuumAnimFrame := 0.0;
      vacuumAnimSpeed := 24.0;
      jumpBoostTimer := 0.0;
      animFrame := 0;
      animTimer := 0.0;
      animState := Idle;
      prevAnimState := Idle;
      animStateTimer := 0.0;
      frameW, frameH := PlayerFrameSize, PlayerFrameSize;
      capturedEnemies := new int[Slots](_ => -1);
      new;
      assert capturedEnemies[..] == EmptySlots();
    }

    /**
     * setCharacter: the yellow character is slower with a wider, longer
     * beam; the boosted values restart from the new bases and the timers are
     * left alone.
     */
    method SetCharacter(yellow: bool)
      requires Valid()
      modifies this`isYellow, this`boosts
      ensures Valid() && isYellow == yellow
      ensures yellow ==> boosts.baseSpeed == 8.0 && boosts.baseVacuumRange == 180.0 && boosts.baseVacuumAngle == 54.0
      ensures !yellow ==> boosts.baseSpeed == 12.0 && boosts.baseVacuumRange == 150.0 && boosts.baseVacuumAngle == 45.0
      ensures boosts == old(boosts).(speed := boosts.baseSpeed, baseSpeed := boosts.baseSpeed,
                                     vacuumRange := boosts.baseVacuumRange, baseVacuumRange := boosts.baseVacuumRange,
                                     vacuumAngle := boosts.baseVacuumAngle, baseVacuumAngle := boosts.baseVacuumAngle)
    {
      isYellow := yellow;
      var b := boosts;
      if yellow {
        b := b.(baseSpeed := 8.0, baseVacuumRange := 180.0, baseVacuumAngle := 54.0);
      } else {
        b := b.(baseSpeed := 12.0, baseVacuumRange := 150.0, baseVacuumAngle := 45.0);
      }
      boosts := b.(speed := b.baseSpeed, vacuumRange := b.baseVacuumRange, vacuumAngle := b.baseVacuumAngle);
    }

    method ApplyPowerup(t: PowerupType)
      requires Valid()
      modifies this`boosts
      ensures Valid()
      ensures boosts == ApplyPowerupSpec(old(boosts), t)
    {
      var b := boosts;
      match t {
        case SpeedUp =>
          b := b.(speedTimer := 10.0, speed := b.baseSpeed * 2.0);
        case RangeUp =>
          b := b.(rangeTimer := 10.0, vacuumAngle := b.baseVacuumAngle * 1.5);
        case PowerUp =>
          b := b.(powerTimer := 10.0, vacuumRange := b.baseVacuumRange * 1.5);
        case ExtraLife =>
          b := b.(health := b.health + 1);
          if b.health > 5 {
            b := b.(health := 5);
          }
      }
      boosts := b;
    }

    method UpdatePowerups(dt: real)
      requires Valid()
      modifies this`boosts
      ensures Valid()
      ensures boosts == UpdatePowerupsSpec(old(boosts), dt)
    {
      var b := boosts;
      if b.speedTimer > 0.0 {
        b := b.(speedTimer := b.speedTimer - dt);
        if b.speedTimer <= 0.0 {
          b := b.(speed := b.baseSpeed);
        }
      }
      if b.rangeTimer > 0.0 {
        b := b.(rangeTimer := b.rangeTimer - dt);
        if b.rangeTimer <= 0.0 {
          b := b.(vacuumAngle := b.baseVacuumAngle);
        }
      }
      if b.powerTimer > 0.0 {
        b := b.(powerTimer := b.powerTimer - dt);
        if b.powerTimer <= 0.0 {
          b := b.(vacuumRange := b.baseVacuumRange);
        }
      }
      TimersStepIndependently(boosts, dt);
      boosts := b;
    }

    method CaptureEnemy(t: int)
      requires Valid()
      modifies this`capturedCount, capturedEnemies
      ensures Valid()
      ensures Inv() == CaptureSpec(old(Inv()), t)
    {
      if capturedCount < maxCapacity {
        capturedEnemies[capturedCount] := t;
        capturedCount := capturedCount + 1;
      }
    }

    method ReleaseOneEnemy() returns (t: int)
      requires Valid()
      modifies this`capturedCount, capturedEnemies
      ensures Valid()
      ensures (Inv(), t) == ReleaseOneSpec(old(Inv()))
    {
      if capturedCount > 0 {
        capturedCount := capturedCount - 1;
        t := capturedEnemies[capturedCount];
        capturedEnemies[capturedCount] := -1;
        return;
      }
      return -1;
    }

    /** releaseAllEnemies: writes the released types into `types`, newest first, and returns how many. */
    method ReleaseAllEnemies(types: array<int>) returns (count: int)
      requires Valid() && types.Length >= Slots && types != capturedEnemies
      modifies this`capturedCount, capturedEnemies, types
      ensures Valid()
      ensures count == old(capturedCount)
      ensures types[..count] == ReleaseAllSpec(old(Inv())).1
      ensures types[count..] == old(types[count..])
      ensures Inv() == ReleaseAllSpec(old(Inv())).0
    {
      count := capturedCount;
      for i := 0 to capturedCount
        modifies types
        invariant forall k :: 0 <= k < i ==> types[k] == capturedEnemies[capturedCount - 1 - k]
        invariant forall k :: i <= k < types.Length ==> types[k] == old(types[k])
      {
        types[i] := capturedEnemies[capturedCount - 1 - i];
      }
      assert types[..count] == Reverse(Held(old(Inv())));
      capturedCount := 0;
      ClearSlots();
    }

    /** The loop that writes -1 into every slot. */
    method ClearSlots()
      requires capturedEnemies.Length == Slots
      modifies capturedEnemies
      ensures capturedEnemies[..] == EmptySlots()
    {
      for i := 0 to Slots
        invariant forall k :: 0 <= k < i ==> capturedEnemies[k] == -1
      {
        capturedEnemies[i] := -1;
      }
    }

    /** Player::checkCollisions, proved against the pure resolver. */
    method CheckCollisions(lv: Level)
      requires Valid() && lv.Valid()
      modifies this`body
      ensures body == old(ResolvePlayer(lv, body, Width(), Height(), facingRight))
    {
      var pw := Width();
      var ph := Height();
      // the foot probe's rows and columns come from the incoming position
      var feet := body;
      var centerX := PlayerCentreCol(feet, pw);
      var nx, ny, nvy, grounded := feet.x, feet.y, feet.vy, false;
      if nvy < 0.0 {
        if HeadWallCount(lv, feet, pw, facingRight) >= 2 {
          ny := ((HeadRow(feet) + 1) * CellSize) as real;
          nvy := 0.0;
        }
      }
      assert Body(nx, ny, nvy, feet.onGround) == PlayerCeiling(lv, feet, pw, facingRight);
      var hitRow := PlayerFloorRow(lv, feet, pw, ph);
      if hitRow != -1 {
        var topY := PlatformTopYAt(lv, hitRow, centerX) - ph;
        if nvy >= 0.0 || ny > topY as real {
          ny := topY as real;
          nvy := 0.0;
          grounded := true;
        }
      }
      ghost var probed := PlayerProbe(lv, feet, pw, ph, facingRight);
      assert Body(nx, ny, nvy, grounded) == probed;
      if nx < 0.0 {
        nx := 0.0;
      }
      if nx > (ScreenWidth - pw) as real {
        nx := (ScreenWidth - pw) as real;
      }
      assert Body(nx, ny, nvy, grounded) == ClampToScreenSides(probed, pw);
      if ny > (ScreenHeight - ph) as real {
        ny := (ScreenHeight - ph) as real;
        nvy := 0.0;
        grounded := true;
      }
      assert Body(nx, ny, nvy, grounded) == ClampToScreenFloor(ClampToScreenSides(probed, pw), ph);
      body := Body(nx, ny, nvy, grounded);
    }

    /** Gravity while airborne, then the frame's motion. */
    method Move(dt: real)
      modifies this`body
      ensures body == Integrate(old(body), velocityX, dt)
    {
      var b := body;
      if !b.onGround {
        b := b.(vy := b.vy + Gravity);
        if b.vy > TerminalVelocity {
          b := b.(vy := TerminalVelocity);
        }
      }
      body := b.(x := b.x + velocityX * dt * 60.0, y := b.y + b.vy);
    }

    /**
     * The animation part of Player::update: the motion-driven choice, the
     * restart of frame and timers on a change of state, the frame advance
     * for the new state's sequence (`frames` frames at `fps`, which the
     * source reads from its sprite-sheet table), and the slide pose on ramps.
     */
    method Animate(dt: real, lv: Level, frames: int, fps: real)
      requires lv.Valid() && fps > 0.0
      modifies this`animStateTimer, this`prevAnimState, this`animState, this`animFrame, this`animTimer
      ensures prevAnimState == old(animState)
      ensures var chosen := NextAnimState(old(animState), old(animStateTimer) + dt, body.onGround, velocityX, body.vy, boosts.speedTimer > 0.0);
              var changed := chosen != old(animState);
              animState == (if old(SlideApplies(lv, body, frameW, frameH, velocityX)) then Slide else chosen) &&
              animStateTimer == (if changed then 0.0 else old(animStateTimer) + dt) &&
              (animFrame, animTimer) ==
                AdvanceFrame(if changed then 0 else old(animFrame), if changed then 0.0 else old(animTimer), dt, frames, fps)
    {
      var slide := SlideApplies(lv, body, frameW, frameH, velocityX);
      var stateTimer := animStateTimer + dt;
      var chosen := NextAnimState(animState, stateTimer, body.onGround, velocityX, body.vy, boosts.speedTimer > 0.0);
      var frame, timer := animFrame, animTimer;
      if chosen != animState {
        frame, timer, stateTimer := 0, 0.0, 0.0;
      }
      ghost var start := (frame, timer);
      timer := timer + dt;
      if frames > 1 && timer > 1.0 / fps {
        frame := (frame + 1) % Max(1, frames);
        timer := 0.0;
      }
      assert (frame, timer) == AdvanceFrame(start.0, start.1, dt, frames, fps);
      prevAnimState := animState;
      animState, animStateTimer, animFrame, animTimer := if slide then Slide else chosen, stateTimer, frame, timer;
    }

    /** The physics half of Player::update: gravity and motion, then the collision pass. */
    method MoveAndCollide(dt: real, lv: Level)
      requires Valid() && lv.Valid()
      modifies this`body
      ensures body == old(ResolvePlayer(lv, Integrate(body, velocityX, dt), Width(), Height(), facingRight))
    {
      Move(dt);
      CheckCollisions(lv);
    }

    /**
     * Player::update: powerup timers, gravity and motion, the collision
     * pass, then the animation state.
     */
    method Update(dt: real, lv: Level, frames: int, fps: real)
      requires Valid() && lv.Valid() && fps > 0.0
      modifies this`boosts, this`body, this`animStateTimer, this`prevAnimState, this`animState, this`animFrame, this`animTimer
      ensures Valid()
      ensures boosts == UpdatePowerupsSpec(old(boosts), dt)
      ensures body == old(ResolvePlayer(lv, Integrate(body, velocityX, dt), Width(), Height(), facingRight))
      ensures prevAnimState == old(animState)
      ensures var chosen := NextAnimState(old(animState), old(animStateTimer) + dt, body.onGround, velocityX, body.vy, boosts.speedTimer > 0.0);
              animState == (if SlideApplies(lv, body, frameW, frameH, velocityX) then Slide else chosen)
    {
      UpdatePowerups(dt);
      MoveAndCollide(dt, lv);
      ghost var slide := SlideApplies(lv, body, frameW, frameH, velocityX);
      Animate(dt, lv, frames, fps);
      assert slide == SlideApplies(lv, body, frameW, frameH, velocityX);
    }

    /** Player::reset: back to the start position with full health and an empty stack of 3 or 5. */
    method Reset(level: int)
      requires Valid()
      modifies this`body, this`velocityX, this`facingRight, this`boosts, this`jumpBoostTimer,
               this`capturedCount, this`maxCapacity, capturedEnemies
      ensures Valid()
      ensures Inv() == Inventory(EmptySlots(), 0, if level == 1 then 3 else 5)
      ensures body == Body(100.0, 700.0, 0.0, false) && velocityX == 0.0 && facingRight && jumpBoostTimer == 0.0
      ensures var b := old(boosts);
              boosts == Boosts(b.baseSpeed, b.baseSpeed, b.baseVacuumRange, b.baseVacuumRange,
                               b.baseVacuumAngle, b.baseVacuumAngle, 0.0, 0.0, 0.0, 3)
    {
      body := Body(100.0, 700.0, 0.0, false);
      velocityX := 0.0;
      facingRight := true;
      capturedCount := 0;
      maxCapacity := if level == 1 then 3 else 5;
      var b := boosts;
      boosts := b.(health := 3, speed := b.baseSpeed, vacuumRange := b.baseVacuumRange, vacuumAngle := b.baseVacuumAngle,
                   speedTimer := 0.0, rangeTimer := 0.0, powerTimer := 0.0);
      jumpBoostTimer := 0.0;
      ClearSlots();
    }
  }
}
