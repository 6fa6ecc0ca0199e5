// The game-level passes over the level and the enemy list: the platform row
// a fired projectile aims for, the push that keeps enemies on one row apart,
// the wave schedule of the later levels, and the vacuum beam animation.
module GameLoop {
  import opened Numeric
  import opened Grid
  import opened PlayerModel

  /**
   * What the game-level passes read and write of one enemy in the game's
   * enemy list (a list of values): position, horizontal speed, sprite box
   * size, and whether it is still in play (active and not captured).
   */
  datatype Foe = Foe(x: real, y: real, vx: real, w: int, h: int, live: bool)

  /** The row an enemy stands in: the cell of its bottom edge. */
  function FootRow(f: Foe): int {
    CellOf(f.y + f.h as real)
  }

  /** The live enemies of `s` standing in row `r`. */
  function CountOnRow(s: seq<Foe>, r: int): (n: nat)
    ensures n <= |s|
  {
    if |s| == 0 then 0
    else CountOnRow(s[..|s| - 1], r) + (if s[|s| - 1].live && FootRow(s[|s| - 1]) == r then 1 else 0)
  }

  /** A row holding at least one plain wall tile. */
  predicate RowHasWall(lv: Level, r: int)
    requires lv.Valid()
    reads lv.tiles
  {
    exists c :: 0 <= c < LevelWidth && WallSample(lv, r, c)
  }

  /** Total horizontal position of a list of enemies. */
  function SumX(s: seq<Foe>): real {
    if |s| == 0 then 0.0 else SumX(s[..|s| - 1]) + s[|s| - 1].x
  }

  lemma {:induction false} SumXUpdate(s: seq<Foe>, i: int, f: Foe)
    requires 0 <= i < |s|
    ensures SumX(s[i := f]) == SumX(s) - s[i].x + f.x
    decreases |s|
  {
    if i == |s| - 1 {
      assert s[i := f][..|s| - 1] == s[..|s| - 1];
    } else {
      assert s[i := f][..|s| - 1] == s[..|s| - 1][i := f];
      SumXUpdate(s[..|s| - 1], i, f);
    }
  }

  /** Both enemies keep everything but x and vx. */
  predicate SameButX(a: Foe, b: Foe) {
    a.y == b.y && a.w == b.w && a.h == b.h && a.live == b.live
  }

  /**
   * The push between two live enemies on the same row whose boxes overlap:
   * each moves half the overlap away from the other and turns to walk away.
   */
  function PushApart(a: Foe, b: Foe): (Foe, Foe) {
    var minGap := (a.w + b.w) as real * 0.5;
    var dx := (a.x + a.w as real * 0.5) - (b.x + b.w as real * 0.5);
    var overlap := minGap - Abs(dx);
    if overlap > 0.0 then
      var push := overlap * 0.5;
      if dx > 0.0 then (a.(x := a.x + push, vx := Abs(a.vx)), b.(x := b.x - push, vx := -Abs(b.vx)))
      else (a.(x := a.x - push, vx := -Abs(a.vx)), b.(x := b.x + push, vx := Abs(b.vx)))
    else (a, b)
  }

  /** Whether the separation pass considers the pair at all. */
  predicate Contends(a: Foe, b: Foe) {
    a.live && b.live && FootRow(a) == FootRow(b)
  }

  /**
   * The push is symmetric: it moves the pair's total position by nothing;
   * after it the centres are exactly the half-sum of widths apart, with the
   * first enemy walking away from the second; without overlap nothing moves.
   */
  lemma PushApartSeparates(a: Foe, b: Foe)
    ensures var (a', b') := PushApart(a, b);
            var minGap := (a.w + b.w) as real * 0.5;
            var dx := (a.x + a.w as real * 0.5) - (b.x + b.w as real * 0.5);
            var dx' := (a'.x + a.w as real * 0.5) - (b'.x + b.w as real * 0.5);
            SameButX(a, a') && SameButX(b, b') && a'.x + b'.x == a.x + b.x &&
            (minGap - Abs(dx) > 0.0 ==>
               Abs(dx') == minGap &&
               (dx' > 0.0 ==> a'.vx >= 0.0 && b'.vx <= 0.0) && (dx' < 0.0 ==> a'.vx <= 0.0 && b'.vx >= 0.0)) &&
            (minGap - Abs(dx) <= 0.0 ==> a' == a && b' == b)
  {
  }

  /** Enemy i pushed against enemies j, j+1, ... in turn: the inner loop of the pass. */
  function PushFrom(s: seq<Foe>, i: nat, j: nat): (r: seq<Foe>)
    requires i < j <= |s|
    ensures |r| == |s|
    decreases |s| - j
  {
    if j == |s| then s
    else if Contends(s[i], s[j]) then
      var p := PushApart(s[i], s[j]);
      PushFrom(s[i := p.0][j := p.1], i, j + 1)
    else PushFrom(s, i, j + 1)
  }

  /** The separation pass from enemy i on: each live enemy in turn is pushed against the later ones. */
  function SeparateFrom(s: seq<Foe>, i: nat): (r: seq<Foe>)
    requires i <= |s|
    ensures |r| == |s|
    decreases |s| - i
  {
    if i == |s| then s
    else if !s[i].live then SeparateFrom(s, i + 1)
    else SeparateFrom(PushFrom(s, i, i + 1), i + 1)
  }

  /** The whole same-row separation pass over the enemy list. */
  function SeparatePass(s: seq<Foe>): seq<Foe> {
    SeparateFrom(s, 0)
  }

  /** Enemy k contends with no other enemy of the list. */
  predicate Loner(s: seq<Foe>, k: int)
    requires 0 <= k < |s|
  {
    forall m :: 0 <= m < |s| && m != k ==> !Contends(s[k], s[m])
  }

  lemma {:induction false} PushFromKeeps(s: seq<Foe>, i: nat, j: nat)
    requires i < j <= |s|
    ensures var r := PushFrom(s, i, j);
            SumX(r) == SumX(s) &&
            (forall k :: 0 <= k < |s| ==> SameButX(s[k], r[k])) &&
            (forall k :: 0 <= k < |s| && k != i && (k < j || !Contends(s[i], s[k])) ==> r[k] == s[k]) &&
            ((forall k :: j <= k < |s| ==> !Contends(s[i], s[k])) ==> r[i] == s[i])
    decreases |s| - j
  {
    if j < |s| {
      if Contends(s[i], s[j]) {
        var p := PushApart(s[i], s[j]);
        PushApartSeparates(s[i], s[j]);
        var t := s[i := p.0][j := p.1];
        SumXUpdate(s, i, p.0);
        SumXUpdate(s[i := p.0], j, p.1);
        PushFromKeeps(t, i, j + 1);
        assert forall k :: 0 <= k < |s| && k != i && k != j ==> (Contends(t[i], t[k]) <==> Contends(s[i], s[k]));
      } else {
        PushFromKeeps(s, i, j + 1);
      }
    }
  }

  lemma {:induction false} SeparateFromKeeps(s: seq<Foe>, i: nat)
    requires i <= |s|
    ensures var r := SeparateFrom(s, i);
            SumX(r) == SumX(s) &&
            (forall k :: 0 <= k < |s| ==> SameButX(s[k], r[k])) &&
            (forall k :: 0 <= k < |s| && Loner(s, k) ==> r[k] == s[k])
    decreases |s| - i
  {
    if i < |s| {
      if !s[i].live {
        SeparateFromKeeps(s, i + 1);
      } else {
        var t := PushFrom(s, i, i + 1);
        PushFromKeeps(s, i, i + 1);
        SeparateFromKeeps(t, i + 1);
        forall k | 0 <= k < |s| && Loner(s, k)
          ensures Loner(t, k) && t[k] == s[k]
        {
          assert forall m :: 0 <= m < |s| ==> (Contends(t[k], t[m]) <==> Contends(s[k], s[m]));
          if k != i {
            assert !Contends(s[k], s[i]);
          }
        }
      }
    }
  }

  /**
   * The separation pass only moves enemies sideways and turns them: it keeps
   * the total position of the list and every enemy's row, size and status;
   * an enemy out of play, or one sharing its row with no other live enemy,
   * is left exactly as it was.
   */
  lemma SeparatePassKeeps(s: seq<Foe>)
    ensures |SeparatePass(s)| == |s|
    ensures SumX(SeparatePass(s)) == SumX(s)
    ensures forall k :: 0 <= k < |s| ==> SameButX(s[k], SeparatePass(s)[k])
    ensures forall k :: 0 <= k < |s| && Loner(s, k) ==> SeparatePass(s)[k] == s[k]
    ensures forall k :: 0 <= k < |s| && !s[k].live ==> SeparatePass(s)[k] == s[k]
  {
    SeparateFromKeeps(s, 0);
    forall k | 0 <= k < |s| && !s[k].live
      ensures Loner(s, k)
    {
    }
  }

  /** On a list of two enemies the pass is exactly one push when they contend, and nothing otherwise. */
  lemma SeparatePassOnPair(a: Foe, b: Foe)
    ensures SeparatePass([a, b]) == if Contends(a, b) then [PushApart(a, b).0, PushApart(a, b).1] else [a, b]
  {
    var s := [a, b];
    var p := PushApart(a, b);
    PushApartSeparates(a, b);
    var t := if Contends(a, b) then [p.0, p.1] else s;
    if a.live {
      if Contends(a, b) {
        assert s[0 := p.0][1 := p.1] == t;
      }
      assert PushFrom(s, 0, 1) == PushFrom(t, 0, 2) == t;
      assert SeparateFrom(s, 0) == SeparateFrom(t, 1);
    } else {
      assert SeparateFrom(s, 0) == SeparateFrom(t, 1);
    }
    assert PushFrom(t, 1, 2) == t;
    assert SeparateFrom(t, 1) == SeparateFrom(t, 2) == t;
  }

  class Game {
    const level: Level
    const enemies: array<Foe>
    var useWaveSpawning: bool
    var currentWave: int
    var waveDelay: real

    constructor (lv: Level, foes: array<Foe>)
      ensures level == lv && enemies == foes
      ensures !useWaveSpawning && currentWave == 0 && waveDelay == 0.0
    {
      level := lv;
      enemies := foes;
      useWaveSpawning := false;
      currentWave := 0;
      waveDelay := 0.0;
    }

    /**
     * Game::bestPlatformRow: among rows holding a wall tile, the one with
     * the most live enemies standing in it, the topmost on a tie; -1 when no
     * row holds a wall. A wall row with no enemy still beats no row at all.
     */
    method BestPlatformRow() returns (best: int)
      requires level.Valid()
      ensures best == -1 <==> forall r :: 0 <= r < LevelHeight ==> !RowHasWall(level, r)
      ensures best != -1 ==> 0 <= best < LevelHeight && RowHasWall(level, best)
      ensures best != -1 ==> forall r :: 0 <= r < LevelHeight && RowHasWall(level, r) ==>
                CountOnRow(enemies[..], r) <= CountOnRow(enemies[..], best)
      ensures best != -1 ==> forall r :: 0 <= r < best && RowHasWall(level, r) ==>
                CountOnRow(enemies[..], r) < CountOnRow(enemies[..], best)
    {
      best := -1;
      var bestCount := -1;
      for r := 0 to LevelHeight
        invariant best == -1 ==> bestCount == -1 && forall k :: 0 <= k < r ==> !RowHasWall(level, k)
        invariant best != -1 ==> 0 <= best < r && RowHasWall(level, best) && bestCount == CountOnRow(enemies[..], best)
        invariant forall k :: 0 <= k < r && RowHasWall(level, k) ==> CountOnRow(enemies[..], k) <= bestCount
        invariant forall k :: 0 <= k < best && RowHasWall(level, k) ==> CountOnRow(enemies[..], k) < bestCount
      {
        var hasPlatform := ScanRowForWall(r);
        if !hasPlatform {
          assert !RowHasWall(level, r);
          continue;
        }
        assert RowHasWall(level, r);
        var cnt := CountLiveOnRow(r);
        if cnt > bestCount {
          bestCount := cnt;
          best := r;
        } else {
          assert best != -1;
        }
      }
    }

    /** The column scan of bestPlatformRow: whether row r holds a plain wall tile. */
    method ScanRowForWall(r: int) returns (hasPlatform: bool)
      requires level.Valid() && 0 <= r < LevelHeight
      ensures hasPlatform <==> exists c :: 0 <= c < LevelWidth && level.tiles[r, c] == '#'
      ensures hasPlatform == RowHasWall(level, r)
    {
      var c := 0;
      while c < LevelWidth && level.tiles[r, c] != '#'
        invariant 0 <= c <= LevelWidth
        invariant forall k :: 0 <= k < c ==> level.tiles[r, k] != '#'
      {
        c := c + 1;
      }
      hasPlatform := c < LevelWidth;
      if hasPlatform {
        assert WallSample(level, r, c);
      } else {
        assert forall k :: 0 <= k < LevelWidth ==> !WallSample(level, r, k);
      }
    }

    /** The enemy loop of bestPlatformRow: the live enemies whose foot cell is in row r. */
    method CountLiveOnRow(r: int) returns (cnt: int)
      ensures cnt == CountOnRow(enemies[..], r)
    {
      cnt := 0;
      for i := 0 to enemies.Length
        invariant cnt == CountOnRow(enemies[..i], r)
      {
        assert enemies[..i + 1][..i] == enemies[..i];
        var e := enemies[i];
        if e.live && FootRow(e) == r {
          cnt := cnt + 1;
        }
      }
      assert enemies[..enemies.Length] == enemies[..];
    }

    /**
     * The same-row separation pass of the game update: for each live enemy
     * i, every later live enemy j on its row is pushed apart from it, with
     * enemy i as moved by the earlier pushes. The list becomes SeparatePass
     * of the old list.
     */
    method SeparateEnemies()
      modifies enemies
      ensures enemies[..] == SeparatePass(old(enemies[..]))
    {
      var n := enemies.Length;
      for i := 0 to n
        invariant SeparateFrom(enemies[..], i) == SeparatePass(old(enemies[..]))
      {
        if !enemies[i].live {
          continue;
        }
        ghost var start := enemies[..];
        for j := i + 1 to n
          invariant enemies[i].live
          invariant PushFrom(enemies[..], i, j) == PushFrom(start, i, i + 1)
        {
          var a, b := enemies[i], enemies[j];
          if !b.live || FootRow(a) != FootRow(b) {
            continue;
          }
          var (a', b') := PushApart(a, b);
          PushApartSeparates(a, b);
          ghost var before := enemies[..];
          enemies[i] := a';
          enemies[j] := b';
          assert enemies[..] == before[i := a'][j := b'];
        }
      }
    }

    /**
     * Game::spawnNextWave: with wave spawning on and fewer than three waves
     * done, advance the wave and name the kind and number of enemies the
     * new wave brings; otherwise nothing happens.
     */
    method SpawnNextWave() returns (spawned: Option<(int, int)>)
      modifies this`currentWave, this`waveDelay
      ensures (currentWave, spawned) == NextWave(old(useWaveSpawning), old(currentWave))
      ensures old(useWaveSpawning) && old(currentWave) < 3 ==> waveDelay == 0.0
      ensures !(old(useWaveSpawning) && old(currentWave) < 3) ==> waveDelay == old(waveDelay)
    {
      if !useWaveSpawning {
        return None;
      }
      if currentWave >= 3 {
        return None;
      }
      currentWave := currentWave + 1;
      if currentWave == 1 {
        spawned := Some((3, 4));
      } else if currentWave == 2 {
        spawned := Some((1, 9));
      } else if currentWave == 3 {
        spawned := Some((0, 4));
      } else {
        spawned := None;
      }
      waveDelay := 0.0;
    }
  }

  datatype Option<T> = None | Some(value: T)

  /** The wave reached and the (kind, count) it spawns, from the wave done so far. */
  function NextWave(enabled: bool, wave: int): (int, Option<(int, int)>) {
    if !enabled || wave >= 3 then (wave, None)
    else if wave + 1 == 1 then (1, Some((3, 4)))
    else if wave + 1 == 2 then (2, Some((1, 9)))
    else if wave + 1 == 3 then (3, Some((0, 4)))
    else (wave + 1, None)
  }

  /** The waves reached and spawned by `k` calls from wave `wave`. */
  function Waves(enabled: bool, wave: int, k: nat): (int, seq<(int, int)>)
    decreases k
  {
    if k == 0 then (wave, [])
    else
      var next := NextWave(enabled, wave);
      var rest := Waves(enabled, next.0, k - 1);
      (rest.0, (if next.1.Some? then [next.1.value] else []) + rest.1)
  }

  /**
   * From the start of a wave level, the schedule is four shooters, nine
   * skeletons, four ghosts, and then nothing more however often it is
   * asked: the wave count never passes three.
   */
  lemma {:induction false} WaveScheduleEndsAtThree(k: nat)
    requires k >= 3
    ensures Waves(true, 0, k).0 == 3 && Waves(true, 0, k).1 == [(3, 4), (1, 9), (0, 4)]
  {
    var k1: nat, k2: nat, k3: nat := k - 1, k - 2, k - 3;
    WavesStayDone(k3);
    assert NextWave(true, 2) == (3, Some((0, 4)));
    assert Waves(true, 2, k2) == (Waves(true, 3, k3).0, [(0, 4)] + Waves(true, 3, k3).1);
    assert Waves(true, 3, k3).0 == 3;
    assert Waves(true, 3, k3).1 == [];
    assert Waves(true, 2, k2).1 == [(0, 4)];
    assert Waves(true, 2, k2).0 == 3;
    assert NextWave(true, 1) == (2, Some((1, 9)));
    assert Waves(true, 1, k1) == (Waves(true, 2, k2).0, [(1, 9)] + Waves(true, 2, k2).1);
    assert Waves(true, 1, k1).0 == 3;
    assert Waves(true, 1, k1).1 == [(1, 9), (0, 4)];
    assert NextWave(true, 0) == (1, Some((3, 4)));
    assert Waves(true, 0, k) == (Waves(true, 1, k1).0, [(3, 4)] + Waves(true, 1, k1).1);
  }

  lemma {:induction false} WavesStayDone(k: nat)
    ensures Waves(true, 3, k) == (3, [])
  {
    if k > 0 {
      WavesStayDone(k - 1);
      assert NextWave(true, 3) == (3, None);
      assert Waves(true, 3, k).1 == [] + Waves(true, 3, k - 1).1;
    }
  }

  /** With wave spawning off, no call spawns or advances anything. */
  lemma {:induction false} NoWavesWhenDisabled(wave: int, k: nat)
    ensures Waves(false, wave, k) == (wave, [])
  {
    if k > 0 {
      NoWavesWhenDisabled(wave, k - 1);
      assert NextWave(false, wave) == (wave, None);
      assert Waves(false, wave, k).1 == [] + Waves(false, wave, k - 1).1;
    }
  }

  /**
   * The vacuum part of updateGameplay: the beam follows the button, then
   * the frame counter advances for a sheet of `totalFrames` frames.
   */
  method UpdateVacuumAnimation(p: Player, active: bool, totalFrames: int, dt: real)
    modifies p`vacuumActive, p`vacuumAnimState, p`vacuumAnimFrame
    ensures p.vacuumActive == active
    ensures (p.vacuumAnimState, p.vacuumAnimFrame) ==
              VacuumStep(old(p.vacuumAnimState), old(p.vacuumAnimFrame), active, totalFrames, dt, p.vacuumAnimSpeed)
  {
    p.vacuumActive := active;
    var s, frame := p.vacuumAnimState, p.vacuumAnimFrame;
    if active {
      if s == Off || s == Shrink {
        s := Grow;
      }
    } else {
      if s != Off && s != Shrink {
        s := Shrink;
      }
    }
    if totalFrames > 0 {
      var vacMax := totalFrames as real;
      var growEnd := vacMax - 1.0;
      var sustainStart := vacMax * 0.6;
      if sustainStart < 0.0 {
        sustainStart := 0.0;
      }
      if s == Grow {
        frame := frame + dt * p.vacuumAnimSpeed;
        if frame >= growEnd {
          s := Sustain;
          frame := growEnd;
        }
      } else if s == Sustain {
        frame := frame + dt * p.vacuumAnimSpeed;
        if frame >= vacMax {
          frame := sustainStart;
        }
      } else if s == Shrink {
        frame := frame - dt * p.vacuumAnimSpeed * 1.5;
        if frame <= 0.0 {
          frame := 0.0;
          s := Off;
        }
      }
    }
    p.vacuumAnimState, p.vacuumAnimFrame := s, frame;
  }
}
