// Game::buildLevel: the cleared grid, the two fixed platform layouts, and
// the ramp helpers that find the runs of wall tiles in a row, check that a
// ramp's cells are empty and write the ramp's tiles and slope offsets.
module LevelBuilder {
  import opened Numeric
  import opened Grid

  // ---------------------------------------------------------------------------
  // Fixed layouts

  /** A horizontal run of wall tiles on `row`, columns `from` up to but excluding `to`. */
  datatype Run = Run(row: int, from: int, to: int)

  predicate InRun(p: Run, r: int, c: int) {
    r == p.row && p.from <= c < p.to
  }

  /** The platform runs of each layout, in the order the builder lays them. */
  function Runs(level: int): (rs: seq<Run>)
    ensures forall i :: 0 <= i < |rs| ==>
              0 <= rs[i].row < LevelHeight && 0 <= rs[i].from <= rs[i].to <= LevelWidth
  {
    if level == 1 then
      [Run(13, 0, LevelWidth),
       Run(11, 2, 8), Run(11, 10, 16),
       Run(8, 1, 6), Run(8, 12, 17), Run(8, 8, 11),
       Run(5, 5, 13)]
    else
      [Run(13, 0, LevelWidth),
       Run(11, 0, 9), Run(11, 12, 15),
       Run(8, 3, 9), Run(8, 11, 18),
       Run(5, 5, 12),
       Run(2, 1, 4), Run(2, 14, 17)]
  }

  /** The cells the first `k` runs of a layout cover. */
  predicate PaintedBy(level: int, k: int, r: int, c: int)
    requires 0 <= k <= |Runs(level)|
  {
    exists i :: 0 <= i < k && InRun(Runs(level)[i], r, c)
  }

  predicate LayoutWall(level: int, r: int, c: int) {
    PaintedBy(level, |Runs(level)|, r, c)
  }

  /**
   * The deterministic part of buildLevel: every cell cleared to empty with a
   * zero slope offset, then the layout's platform runs filled with walls.
   */
  method BuildLayout(lv: Level, level: int)
    requires lv.Valid()
    modifies lv.tiles, lv.slopeOffset
    ensures forall r, c :: 0 <= r < LevelHeight && 0 <= c < LevelWidth ==>
              lv.tiles[r, c] == (if LayoutWall(level, r, c) then '#' else ' ')
    ensures forall r, c :: 0 <= r < LevelHeight && 0 <= c < LevelWidth ==> lv.slopeOffset[r, c] == 0
  {
    ClearLevel(lv);
    var runs := Runs(level);
    var k := 0;
    while k < |runs|
      invariant 0 <= k <= |runs|
      invariant forall r, c :: 0 <= r < LevelHeight && 0 <= c < LevelWidth ==>
                  lv.tiles[r, c] == (if PaintedBy(level, k, r, c) then '#' else ' ')
      invariant forall r, c :: 0 <= r < LevelHeight && 0 <= c < LevelWidth ==> lv.slopeOffset[r, c] == 0
    {
      FillRun(lv, runs[k]);
      forall r, c | 0 <= r < LevelHeight && 0 <= c < LevelWidth
        ensures lv.tiles[r, c] == (if PaintedBy(level, k + 1, r, c) then '#' else ' ')
      {
        if InRun(runs[k], r, c) {
          assert PaintedBy(level, k + 1, r, c);
        } else if PaintedBy(level, k + 1, r, c) {
          var i :| 0 <= i < k + 1 && InRun(Runs(level)[i], r, c);
          assert PaintedBy(level, k, r, c);
        }
      }
      k := k + 1;
    }
  }

  /** The clearing loop at the head of buildLevel. */
  method ClearLevel(lv: Level)
    requires lv.Valid()
    modifies lv.tiles, lv.slopeOffset
    ensures forall r, c :: 0 <= r < LevelHeight && 0 <= c < LevelWidth ==> lv.tiles[r, c] == ' '
    ensures forall r, c :: 0 <= r < LevelHeight && 0 <= c < LevelWidth ==> lv.slopeOffset[r, c] == 0
  {
    for i := 0 to LevelHeight
      invariant forall r, c :: 0 <= r < i && 0 <= c < LevelWidth ==> lv.tiles[r, c] == ' '
      invariant forall r, c :: 0 <= r < i && 0 <= c < LevelWidth ==> lv.slopeOffset[r, c] == 0
    {
      for j := 0 to LevelWidth
        invariant forall r, c :: 0 <= r < i && 0 <= c < LevelWidth ==> lv.tiles[r, c] == ' '
        invariant forall r, c :: 0 <= r < i && 0 <= c < LevelWidth ==> lv.slopeOffset[r, c] == 0
        invariant forall c :: 0 <= c < j ==> lv.tiles[i, c] == ' ' && lv.slopeOffset[i, c] == 0
      {
        lv.tiles[i, j] := ' ';
        lv.slopeOffset[i, j] := 0;
      }
    }
  }

  /** One `for (j = from; j < to; j++) levelMap[row][j] = '#'` loop. */
  method FillRun(lv: Level, p: Run)
    requires lv.Valid() && 0 <= p.row < LevelHeight && 0 <= p.from <= p.to <= LevelWidth
    modifies lv.tiles
    ensures forall r, c :: 0 <= r < LevelHeight && 0 <= c < LevelWidth ==>
              lv.tiles[r, c] == (if InRun(p, r, c) then '#' else old(lv.tiles[r, c]))
  {
    for j := p.from to p.to
      invariant forall r, c :: 0 <= r < LevelHeight && 0 <= c < LevelWidth ==>
                  lv.tiles[r, c] == (if r == p.row && p.from <= c < j then '#' else old(lv.tiles[r, c]))
    {
      lv.tiles[p.row, j] := '#';
    }
  }

  /** The ground row is a full wall row in both layouts. */
  lemma GroundRowFull(level: int, c: int)
    requires 0 <= c < LevelWidth
    ensures LayoutWall(level, 13, c)
  {
    assert InRun(Runs(level)[0], 13, c);
  }

  /** Walls of a fixed layout lie only on rows 2, 5, 8, 11 and 13; row 2 only on the later layout. */
  lemma LayoutRows(level: int, r: int, c: int)
    requires LayoutWall(level, r, c)
    ensures r == 2 || r == 5 || r == 8 || r == 11 || r == 13
    ensures level == 1 ==> r != 2
  {
    var i :| 0 <= i < |Runs(level)| && InRun(Runs(level)[i], r, c);
  }

  // ---------------------------------------------------------------------------
  // Ramp helpers

  /** The vertical drop per ramp tile: a full cell at 45 degrees, else round(64 * 0.577). */
  function RampStep(degrees: int): (s: int)
    ensures degrees == 45 ==> s == CellSize
    ensures degrees != 45 ==> s == 37
  {
    if degrees == 45 then CellSize else RoundHalfAway(CellSize as real * 0.577)
  }

  /** The first column a ramp covers: right after a right edge, or `tiles` before a left edge. */
  function RampStart(edgeCol: int, fromRight: bool, tiles: int): int {
    if fromRight then edgeCol + 1 else edgeCol - tiles
  }

  /** The last column a ramp covers. */
  function RampEnd(edgeCol: int, fromRight: bool, tiles: int): (e: int)
    ensures e - RampStart(edgeCol, fromRight, tiles) == tiles - 1
  {
    if fromRight then edgeCol + tiles else edgeCol - 1
  }

  /** The slope offset a ramp writes in column `j`, `k * step` away from its first column. */
  function RampOffset(j: int, start: int, fromRight: bool, degrees: int): int {
    (if fromRight then 1 else -1) * ((j - start) * RampStep(degrees))
  }

  /** A maximal run of `#` in row `r`, as its first and last column. */
  predicate IsSpan(lv: Level, r: int, s: (int, int))
    requires lv.Valid() && 0 <= r < LevelHeight
    reads lv.tiles
  {
    0 <= s.0 <= s.1 < LevelWidth &&
    (forall c :: s.0 <= c <= s.1 ==> lv.tiles[r, c] == '#') &&
    !WallSample(lv, r, s.0 - 1) && !WallSample(lv, r, s.1 + 1)
  }

  /** Every wall in columns [0, upTo) of row `r` lies in one of the spans. */
  predicate SpansCover(lv: Level, r: int, spans: seq<(int, int)>, upTo: int)
    requires lv.Valid() && 0 <= r < LevelHeight
    reads lv.tiles
  {
    forall c :: 0 <= c < upTo && c < LevelWidth && lv.tiles[r, c] == '#' ==>
      exists i :: 0 <= i < |spans| && spans[i].0 <= c <= spans[i].1
  }

  predicate SpansOrdered(spans: seq<(int, int)>) {
    forall i, j :: 0 <= i < j < |spans| ==> spans[i].1 < spans[j].0
  }

  /**
   * collectSpans: the maximal runs of `#` in a row, as (first, last)
   * column pairs, left to right, covering every wall of the row.
   */
  method CollectSpans(lv: Level, r: int) returns (spans: seq<(int, int)>)
    requires lv.Valid() && 0 <= r < LevelHeight
    ensures forall i :: 0 <= i < |spans| ==> IsSpan(lv, r, spans[i])
    ensures SpansOrdered(spans)
    ensures SpansCover(lv, r, spans, LevelWidth)
  {
    spans := [];
    var c := 0;
    while c < LevelWidth
      invariant 0 <= c <= LevelWidth
      invariant c == 0 || c == LevelWidth || !WallSample(lv, r, c)
      invariant forall i :: 0 <= i < |spans| ==> IsSpan(lv, r, spans[i]) && spans[i].1 < c
      invariant SpansOrdered(spans)
      invariant SpansCover(lv, r, spans, c)
      decreases LevelWidth - c
    {
      var c0 := c;
      while c < LevelWidth && lv.tiles[r, c] != '#'
        invariant c0 <= c <= LevelWidth
        invariant c == c0 || !WallSample(lv, r, c - 1)
        invariant forall c' :: c0 <= c' < c ==> lv.tiles[r, c'] != '#'
      {
        c := c + 1;
      }
      var a := c;
      while c < LevelWidth && lv.tiles[r, c] == '#'
        invariant a <= c <= LevelWidth
        invariant c == a ==> a == LevelWidth || WallSample(lv, r, a)
        invariant forall c' :: a <= c' < c ==> lv.tiles[r, c'] == '#'
      {
        c := c + 1;
      }
      var b := c - 1;
      if a <= b {
        ghost var old' := spans;
        spans := spans + [(a, b)];
        assert IsSpan(lv, r, (a, b));
        forall c' | 0 <= c' < c && c' < LevelWidth && lv.tiles[r, c'] == '#'
          ensures exists i :: 0 <= i < |spans| && spans[i].0 <= c' <= spans[i].1
        {
          if c' < c0 {
            var i :| 0 <= i < |old'| && old'[i].0 <= c' <= old'[i].1;
            assert spans[i] == old'[i];
          } else {
            assert spans[|spans| - 1].0 <= c' <= spans[|spans| - 1].1;
          }
        }
      }
    }
  }

  /**
   * canPlaceRamp: the ramp's columns lie on the grid and are all empty.
   * (The source also takes the step, which it does not use.)
   */
  method CanPlaceRamp(lv: Level, row: int, edgeCol: int, fromRight: bool, tiles: int) returns (ok: bool)
    requires lv.Valid() && 0 <= row < LevelHeight
    ensures ok <==>
              0 <= RampStart(edgeCol, fromRight, tiles) && RampEnd(edgeCol, fromRight, tiles) < LevelWidth &&
              forall j :: RampStart(edgeCol, fromRight, tiles) <= j <= RampEnd(edgeCol, fromRight, tiles) ==>
                lv.tiles[row, j] == ' '
  {
    var startCol := RampStart(edgeCol, fromRight, tiles);
    var endCol := RampEnd(edgeCol, fromRight, tiles);
    if startCol < 0 || endCol >= LevelWidth {
      return false;
    }
    var j := startCol;
    while j <= endCol
      invariant startCol <= j <= endCol + 1 || (j == startCol && endCol < startCol)
      invariant forall j' :: startCol <= j' < j ==> lv.tiles[row, j'] == ' '
    {
      if lv.tiles[row, j] != ' ' {
        return false;
      }
      j := j + 1;
    }
    return true;
  }

  /**
   * attachRamp: every ramp column gets the ramp symbol (`/` off a right
   * edge, `\` off a left edge) and an offset `k * step` growing from the
   * ramp's first column (downwards off a right edge, upwards off a left
   * edge); then the wall just past the ramp's far end, if any, is cleared.
   * The caller has checked that the ramp's columns lie on the grid.
   */
  method AttachRamp(lv: Level, row: int, edgeCol: int, fromRight: bool, tiles: int, degrees: int)
    requires lv.Valid() && 0 <= row < LevelHeight && tiles >= 1
    requires 0 <= RampStart(edgeCol, fromRight, tiles) && RampEnd(edgeCol, fromRight, tiles) < LevelWidth
    modifies lv.tiles, lv.slopeOffset
    ensures var s := RampStart(edgeCol, fromRight, tiles);
            var e := RampEnd(edgeCol, fromRight, tiles);
            forall r, c :: 0 <= r < LevelHeight && 0 <= c < LevelWidth ==>
              lv.tiles[r, c] ==
                (if r == row && s <= c <= e then (if fromRight then '/' else '\\')
                 else if r == row && old(lv.tiles[r, c]) == '#' &&
                         ((!fromRight && c == s - 1) || (fromRight && c == e + 1)) then ' '
                 else old(lv.tiles[r, c]))
    ensures var s := RampStart(edgeCol, fromRight, tiles);
            var e := RampEnd(edgeCol, fromRight, tiles);
            forall r, c :: 0 <= r < LevelHeight && 0 <= c < LevelWidth ==>
              lv.slopeOffset[r, c] ==
                (if r == row && s <= c <= e then RampOffset(c, s, fromRight, degrees)
                 else old(lv.slopeOffset[r, c]))
  {
    var step := RampStep(degrees);
    var startCol := RampStart(edgeCol, fromRight, tiles);
    var endCol := RampEnd(edgeCol, fromRight, tiles);
    var j := startCol;
    while j <= endCol
      invariant startCol <= j <= endCol + 1
      invariant forall r, c :: 0 <= r < LevelHeight && 0 <= c < LevelWidth ==>
                  lv.tiles[r, c] ==
                    (if r == row && startCol <= c < j then (if fromRight then '/' else '\\') else old(lv.tiles[r, c]))
      invariant forall r, c :: 0 <= r < LevelHeight && 0 <= c < LevelWidth ==>
                  lv.slopeOffset[r, c] ==
                    (if r == row && startCol <= c < j then RampOffset(c, startCol, fromRight, degrees)
                     else old(lv.slopeOffset[r, c]))
    {
      var k := j - startCol;
      var delta := (if fromRight then 1 else -1) * (k * step);
      lv.tiles[row, j] := if fromRight then '/' else '\\';
      lv.slopeOffset[row, j] := delta;
      j := j + 1;
    }
    if !fromRight && startCol - 1 >= 0 && lv.tiles[row, startCol - 1] == '#' {
      lv.tiles[row, startCol - 1] := ' ';
    }
    if fromRight && endCol + 1 < LevelWidth && lv.tiles[row, endCol + 1] == '#' {
      lv.tiles[row, endCol + 1] := ' ';
    }
  }

  /**
   * A ramp's surface is a straight line: its first column sits at the row's
   * plain height and each further column is one step lower (off a right
   * edge) or higher (off a left edge) than the one before.
   */
  lemma RampSurfaceStraight(j: int, start: int, fromRight: bool, degrees: int)
    ensures RampOffset(start, start, fromRight, degrees) == 0
    ensures RampOffset(j + 1, start, fromRight, degrees) - RampOffset(j, start, fromRight, degrees) ==
              (if fromRight then RampStep(degrees) else -RampStep(degrees))
  {
    var s := RampStep(degrees);
    assert (j + 1 - start) * s == (j - start) * s + s;
  }
}
