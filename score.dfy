// The score and combo engine: an integer score clamped at zero by the two
// penalties, a combo counter that a three-second timer decays, and the
// tiered bonuses. Each mutator of ScoreManager is specified by a pure
// function on the manager's state.
module Scoring {
  import opened Numeric

  datatype ScoreState = ScoreState(
    score: int,
    combo: int,
    comboTimer: real,
    noDamage: bool,
    levelTime: real,
    animTimer: real)  // the score pop effect

  const Fresh := ScoreState(0, 0, 0.0, true, 0.0, 0.0)

  /** How long a defeat keeps the combo alive. */
  const ComboWindow: real := 3.0

  /** The per-level bookkeeping is restarted; the score is kept. */
  function ResetLevel(s: ScoreState): (r: ScoreState)
    ensures r.score == s.score
    ensures r == Fresh.(score := s.score)
  {
    s.(combo := 0, comboTimer := 0.0, noDamage := true, levelTime := 0.0, animTimer := 0.0)
  }

  /**
   * One frame of time: the level clock advances; a running combo timer
   * counts down and the combo is dropped when it runs out; a timer that has
   * already run out leaves the combo alone.
   */
  function Tick(s: ScoreState, dt: real): (r: ScoreState)
    ensures r.score == s.score && r.noDamage == s.noDamage
    ensures r.levelTime == s.levelTime + dt
    ensures s.comboTimer <= 0.0 ==> r.combo == s.combo && r.comboTimer == s.comboTimer
    ensures s.comboTimer > 0.0 ==> r.comboTimer == s.comboTimer - dt
    ensures s.comboTimer > 0.0 && s.comboTimer - dt <= 0.0 ==> r.combo == 0
    ensures s.comboTimer - dt > 0.0 ==> r.combo == s.combo
  {
    var s1 := s.(levelTime := s.levelTime + dt);
    var s2 :=
      if s1.comboTimer > 0.0 then
        var t := s1.comboTimer - dt;
        s1.(comboTimer := t, combo := if t <= 0.0 then 0 else s1.combo)
      else s1;
    if s2.animTimer > 0.0 then s2.(animTimer := s2.animTimer - dt) else s2
  }

  function Capture(s: ScoreState, points: int): (r: ScoreState)
    ensures r.score == s.score + points
    ensures r.combo == s.combo && r.comboTimer == s.comboTimer && r.noDamage == s.noDamage
  {
    s.(score := s.score + points, animTimer := 0.3)
  }

  /**
   * The points a defeat is worth: doubled, then multiplied by 1.5 from a
   * combo of 3 and by 2 from a combo of 5. The float products are exact
   * because the doubled value is even.
   */
  function DefeatPoints(basePoints: int, combo: int): (p: int)
    ensures combo < 3 ==> p == 2 * basePoints
    ensures 3 <= combo < 5 ==> p == 3 * basePoints
    ensures 5 <= combo ==> p == 4 * basePoints
    ensures 0 <= basePoints ==> 0 <= p
  {
    var points := basePoints * 2;
    if combo >= 5 then Trunc(points as real * 2.0)
    else if combo >= 3 then
      assert points as real * 1.5 == (3 * basePoints) as real;
      Trunc(points as real * 1.5)
    else points
  }

  /** A defeat scores by the combo tier, then extends the combo and restarts its window. */
  function Defeat(s: ScoreState, basePoints: int): (r: ScoreState)
    ensures r.score == s.score + DefeatPoints(basePoints, s.combo)
    ensures r.combo == s.combo + 1 && r.comboTimer == ComboWindow
    ensures r.noDamage == s.noDamage && r.levelTime == s.levelTime
  {
    s.(score := s.score + DefeatPoints(basePoints, s.combo), combo := s.combo + 1,
       comboTimer := ComboWindow, animTimer := 0.4)
  }

  /** 500 for three or more enemies at once, 200 for two, nothing otherwise. */
  function MultiKillBonus(count: int): (bonus: int)
    ensures bonus >= 0
    ensures bonus > 0 <==> count >= 2
    ensures count >= 3 ==> bonus == 500
    ensures count == 2 ==> bonus == 200
  {
    if count >= 3 then 500 else if count == 2 then 200 else 0
  }

  /** 300 for releasing three or more captured enemies in one burst. */
  function BurstBonus(count: int): (bonus: int)
    ensures bonus > 0 <==> count >= 3
    ensures bonus > 0 ==> bonus == 300
  {
    if count >= 3 then 300 else 0
  }

  const AerialBonus: int := 150
  const CharacterBonus: int := 500

  /** A hit costs 50 points (never below zero), the no-damage flag and the combo. */
  function Hit(s: ScoreState): (r: ScoreState)
    ensures s.score >= 0 ==> 0 <= r.score <= s.score
    ensures s.score >= 50 ==> r.score == s.score - 50
    ensures s.score < 50 ==> r.score == 0
    ensures !r.noDamage && r.combo == 0 && r.comboTimer == 0.0
    ensures r.levelTime == s.levelTime
  {
    var sc := s.score - 50;
    s.(score := if sc < 0 then 0 else sc, noDamage := false, combo := 0, comboTimer := 0.0)
  }

  /** A death costs 200 points, never below zero, and nothing else. */
  function Death(s: ScoreState): (r: ScoreState)
    ensures s.score >= 0 ==> 0 <= r.score <= s.score
    ensures s.score >= 200 ==> r.score == s.score - 200
    ensures s.score < 200 ==> r.score == 0
    ensures r.(score := s.score) == s
  {
    var sc := s.score - 200;
    s.(score := if sc < 0 then 0 else sc)
  }

  /**
   * The time bonus of a cleared level: on level 1 under 30, 45 or 60
   * seconds earn 2000, 1000 or 500; on later levels under 60, 90 or 120
   * seconds earn 3000, 1500 or 750.
   */
  function TimeBonus(level: int, levelTime: real): (bonus: int)
    ensures bonus >= 0
    ensures level == 1 ==> (bonus > 0 <==> levelTime < 60.0) && bonus <= 2000
    ensures level != 1 ==> (bonus > 0 <==> levelTime < 120.0) && bonus <= 3000
  {
    if level == 1 then
      if levelTime < 30.0 then 2000 else if levelTime < 45.0 then 1000 else if levelTime < 60.0 then 500 else 0
    else
      if levelTime < 60.0 then 3000 else if levelTime < 90.0 then 1500 else if levelTime < 120.0 then 750 else 0
  }

  /** The clear bonus: a base, a no-damage bonus and the time bonus. */
  function LevelClearBonus(level: int, noDamage: bool, levelTime: real): (bonus: int)
    ensures level == 1 ==> 1000 <= bonus <= 4500
    ensures level != 1 ==> 2000 <= bonus <= 7500
    ensures bonus - TimeBonus(level, levelTime) ==
              (if level == 1 then 1000 else 2000) + (if noDamage then (if level == 1 then 1500 else 2500) else 0)
  {
    (if level == 1 then 1000 else 2000) +
    (if noDamage then (if level == 1 then 1500 else 2500) else 0) +
    TimeBonus(level, levelTime)
  }

  /** A faster clear never earns a smaller time bonus. */
  lemma FasterClearNeverWorse(level: int, t1: real, t2: real)
    requires t1 <= t2
    ensures TimeBonus(level, t1) >= TimeBonus(level, t2)
  {
  }

  // ---------------------------------------------------------------------------
  // Event sequences

  datatype ScoreEvent =
    | Update(dt: real)
    | CaptureEvent(points: int)
    | DefeatEvent(basePoints: int)
    | MultiKill(count: int)
    | VacuumBurst(count: int)
    | Aerial
    | CharacterEvent
    | PlayerHit
    | PlayerDeath
    | LevelComplete(level: int)
    | LevelReset

  function Apply(s: ScoreState, e: ScoreEvent): ScoreState {
    match e
    case Update(dt) => Tick(s, dt)
    case CaptureEvent(p) => Capture(s, p)
    case DefeatEvent(b) => Defeat(s, b)
    case MultiKill(n) => s.(score := s.score + MultiKillBonus(n))
    case VacuumBurst(n) => s.(score := s.score + BurstBonus(n))
    case Aerial => s.(score := s.score + AerialBonus)
    case CharacterEvent => s.(score := s.score + CharacterBonus)
    case PlayerHit => Hit(s)
    case PlayerDeath => Death(s)
    case LevelComplete(level) => s.(score := s.score + LevelClearBonus(level, s.noDamage, s.levelTime))
    case LevelReset => ResetLevel(s)
  }

  function Run(s: ScoreState, es: seq<ScoreEvent>): ScoreState
    decreases |es|
  {
    if es == [] then s else Run(Apply(s, es[0]), es[1..])
  }

  /** The capture and defeat events carry non-negative points. */
  predicate PointsNonNegative(e: ScoreEvent) {
    (e.CaptureEvent? ==> e.points >= 0) && (e.DefeatEvent? ==> e.basePoints >= 0)
  }

  /** Starting from a non-negative score, no sequence of events makes it negative. */
  lemma {:induction false} ScoreNeverNegative(s: ScoreState, es: seq<ScoreEvent>)
    requires s.score >= 0
    requires forall i :: 0 <= i < |es| ==> PointsNonNegative(es[i])
    ensures Run(s, es).score >= 0
    decreases |es|
  {
    if es != [] {
      assert PointsNonNegative(es[0]);
      ScoreNeverNegative(Apply(s, es[0]), es[1..]);
    }
  }

  /** Only a hit or a death lowers the score. */
  lemma {:induction false} ScoreMonotoneWithoutHarm(s: ScoreState, es: seq<ScoreEvent>)
    requires forall i :: 0 <= i < |es| ==> PointsNonNegative(es[i]) && !es[i].PlayerHit? && !es[i].PlayerDeath?
    ensures Run(s, es).score >= s.score
    decreases |es|
  {
    if es != [] {
      assert PointsNonNegative(es[0]);
      ScoreMonotoneWithoutHarm(Apply(s, es[0]), es[1..]);
    }
  }

  // ---------------------------------------------------------------------------
  // The combo window

  /** A run of frames with no scoring event. */
  function Ticks(s: ScoreState, dts: seq<real>): ScoreState
    decreases |dts|
  {
    if dts == [] then s else Ticks(Tick(s, dts[0]), dts[1..])
  }

  /** Once the combo timer has run out, further frames change neither the combo nor the timer. */
  lemma {:induction false} ExpiredComboStays(s: ScoreState, dts: seq<real>)
    requires s.comboTimer <= 0.0
    ensures Ticks(s, dts).combo == s.combo && Ticks(s, dts).comboTimer == s.comboTimer
    decreases |dts|
  {
    if dts != [] {
      ExpiredComboStays(Tick(s, dts[0]), dts[1..]);
    }
  }

  /** The combo survives frames that together last less than the time left on its timer. */
  lemma {:induction false} ComboHoldsWithinWindow(s: ScoreState, dts: seq<real>)
    requires AllNonNegative(dts) && Sum(dts) < s.comboTimer
    ensures Ticks(s, dts).combo == s.combo
    ensures Ticks(s, dts).comboTimer == s.comboTimer - Sum(dts)
    decreases |dts|
  {
    if dts != [] {
      assert dts[0] >= 0.0;
      SumNonNegative(dts[1..]);
      ComboHoldsWithinWindow(Tick(s, dts[0]), dts[1..]);
    }
  }

  /** A running combo is dropped once frames totalling its remaining time have passed. */
  lemma {:induction false} ComboExpires(s: ScoreState, dts: seq<real>)
    requires AllNonNegative(dts) && 0.0 < s.comboTimer <= Sum(dts)
    ensures Ticks(s, dts).combo == 0
    decreases |dts|
  {
    var s1 := Tick(s, dts[0]);
    if s1.comboTimer <= 0.0 {
      ExpiredComboStays(s1, dts[1..]);
    } else {
      ComboExpires(s1, dts[1..]);
    }
  }

  /** After a defeat the combo, one higher, lasts for any frames adding up to under three seconds. */
  lemma DefeatOpensWindow(s: ScoreState, basePoints: int, dts: seq<real>)
    requires AllNonNegative(dts) && Sum(dts) < ComboWindow
    ensures Ticks(Defeat(s, basePoints), dts).combo == s.combo + 1
  {
    ComboHoldsWithinWindow(Defeat(s, basePoints), dts);
  }

  // ---------------------------------------------------------------------------
  // The manager

  class ScoreManager {
    var score: int
    var combo: int
    var comboTimer: real
    var noDamage: bool
    var levelTime: real
    var scoreAnimTimer: real

    function State(): ScoreState
      reads this
    {
      ScoreState(score, combo, comboTimer, noDamage, levelTime, scoreAnimTimer)
    }

    constructor ()
      ensures State() == Fresh
    {
      score, combo, comboTimer, noDamage, levelTime, scoreAnimTimer := 0, 0, 0.0, true, 0.0, 0.0;
    }

    method Reset()
      modifies this
      ensures State() == Fresh
    {
      score, combo, comboTimer, noDamage, levelTime, scoreAnimTimer := 0, 0, 0.0, true, 0.0, 0.0;
    }

    method ResetLevel()
      modifies this
      ensures State() == Apply(old(State()), LevelReset)
    {
      combo := 0;
      comboTimer := 0.0;
      noDamage := true;
      levelTime := 0.0;
      scoreAnimTimer := 0.0;
    }

    method Update(dt: real)
      modifies this
      ensures State() == Apply(old(State()), ScoreEvent.Update(dt))
    {
      levelTime := levelTime + dt;
      if comboTimer > 0.0 {
        comboTimer := comboTimer - dt;
        if comboTimer <= 0.0 {
          combo := 0;
        }
      }
      if scoreAnimTimer > 0.0 {
        scoreAnimTimer := scoreAnimTimer - dt;
      }
    }

    method AddCapturePoints(points: int)
      modifies this
      ensures State() == Apply(old(State()), CaptureEvent(points))
    {
      score := score + points;
      scoreAnimTimer := 0.3;
    }

    method AddDefeatPoints(basePoints: int)
      modifies this
      ensures State() == Apply(old(State()), DefeatEvent(basePoints))
    {
      var points := basePoints * 2;
      if combo >= 5 {
        points := Trunc(points as real * 2.0);
      } else if combo >= 3 {
        points := Trunc(points as real * 1.5);
      }
      score := score + points;
      combo := combo + 1;
      comboTimer := 3.0;
      scoreAnimTimer := 0.4;
    }

    method AddMultiKillBonus(count: int)
      modifies this
      ensures State() == Apply(old(State()), MultiKill(count))
    {
      var bonus := 0;
      if count >= 3 {
        bonus := 500;
      } else if count == 2 {
        bonus := 200;
      }
      if bonus > 0 {
        score := score + bonus;
      }
    }

    method AddVacuumBurstBonus(count: int)
      modifies this
      ensures State() == Apply(old(State()), VacuumBurst(count))
    {
      if count >= 3 {
        score := score + 300;
      }
    }

    method AddAerialBonus()
      modifies this
      ensures State() == Apply(old(State()), Aerial)
    {
      score := score + 150;
    }

    method AddCharacterBonus()
      modifies this
      ensures State() == Apply(old(State()), CharacterEvent)
    {
      score := score + 500;
    }

    method PlayerHit()
      modifies this
      ensures State() == Apply(old(State()), ScoreEvent.PlayerHit)
    {
      score := score - 50;
      if score < 0 {
        score := 0;
      }
      noDamage := false;
      combo := 0;
      comboTimer := 0.0;
    }

    method PlayerDeath()
      modifies this
      ensures State() == Apply(old(State()), ScoreEvent.PlayerDeath)
    {
      score := score - 200;
      if score < 0 {
        score := 0;
      }
    }

    method LevelComplete(level: int)
      modifies this
      ensures State() == Apply(old(State()), ScoreEvent.LevelComplete(level))
    {
      if level == 1 {
        score := score + 1000;
        if noDamage {
          score := score + 1500;
        }
        if levelTime < 30.0 {
          score := score + 2000;
        } else if levelTime < 45.0 {
          score := score + 1000;
        } else if levelTime < 60.0 {
          score := score + 500;
        }
      } else {
        score := score + 2000;
        if noDamage {
          score := score + 2500;
        }
        if levelTime < 60.0 {
          score := score + 3000;
        } else if levelTime < 90.0 {
          score := score + 1500;
        } else if levelTime < 120.0 {
          score := score + 750;
        }
      }
    }
  }
}
