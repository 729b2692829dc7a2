/** Spawning a row of pipes: the gap size as a function of the score, the
    range the gap centre is drawn from, and where the two pipes go. */
module Spawner {
  import opened Config
  import opened Geometry
  import opened Entities

  /** The engine's clamp: `v` pulled into [lo, hi]. */
  function Clamp(v: int, lo: int, hi: int): (r: int)
    requires lo <= hi
    ensures lo <= r <= hi
    ensures lo <= v <= hi ==> r == v
    ensures v < lo ==> r == lo
    ensures hi < v ==> r == hi
  {
    if v < lo then lo else if hi < v then hi else v
  }

  /** Gap size for a row spawned at `score`. The reduction is the score
      floored to whole intervals; scores are never negative, so Dafny's
      division agrees with `Math.floor` here. */
  function GapSize(score: nat): (gap: int)
    ensures MinGapSize <= gap <= MaxGapSize
    ensures score / GapShrinkInterval <= BaseGapSize - MinGapSize ==>
              gap == BaseGapSize - score / GapShrinkInterval
    ensures score / GapShrinkInterval >= BaseGapSize - MinGapSize ==> gap == MinGapSize
  {
    Clamp(BaseGapSize - score / GapShrinkInterval, MinGapSize, MaxGapSize)
  }

  /** The gap never widens as the score grows. */
  lemma GapSizeMonotone(s: nat, t: nat)
    requires s <= t
    ensures GapSize(t) <= GapSize(s)
  {
  }

  /** From score 350 on the gap stays at its minimum. */
  lemma GapSizeFloor(score: nat)
    requires score >= 350
    ensures GapSize(score) == MinGapSize
  {
  }

  /** The first sizes of the schedule. */
  lemma GapSizeSchedule()
    ensures GapSize(0) == 220 && GapSize(4) == 220 && GapSize(5) == 219
    ensures GapSize(349) == 151 && GapSize(1000) == 150
  {
  }

  /** Bounds of the range the gap centre is drawn from. */
  function MinGapCenter(gap: int): real
  {
    gap as real / 2.0 + GapMargin
  }

  function MaxGapCenter(gap: int): real
  {
    BaseHeight - gap as real / 2.0 - GapMargin
  }

  predicate ValidGapCenter(gap: int, center: int)
  {
    MinGapCenter(gap) <= center as real <= MaxGapCenter(gap)
  }

  /** For every gap size the spawner can produce, the range is non-empty:
      it always holds the middle of the screen, so an integer centre exists. */
  lemma GapCenterRangeNonEmpty(gap: int)
    requires MinGapSize <= gap <= MaxGapSize
    ensures MinGapCenter(gap) <= MaxGapCenter(gap)
    ensures ValidGapCenter(gap, 300) && 300.0 == BaseHeight / 2.0
  {
  }

  /** Horizontal centre of every new pipe. */
  const SpawnX: real := BaseWidth + PipeDisplayWidth / 2.0 + SpawnPadding

  /** The row spawned at `score` around `center`: a top pipe whose lower edge
      and a bottom pipe whose upper edge are the gap apart and centred on
      `center`, both just beyond the right edge of the screen and moving left. */
  function PlaceRow(score: nat, center: int): (row: (Pipe, Pipe))
    requires ValidGapCenter(GapSize(score), center)
    ensures IsRow(row.0, row.1)
    ensures row.1.y - row.0.y == GapSize(score) as real
    ensures row.0.y + row.1.y == 2.0 * center as real
    ensures GapMargin <= row.0.y && row.1.y <= BaseHeight - GapMargin
    ensures row.0.x == row.1.x == SpawnX == 945.0
    ensures row.0.x - row.0.displayWidth / 2.0 == BaseWidth + SpawnPadding
    ensures row.0.vx == row.1.vx == PipeSpeed
  {
    var gap := GapSize(score) as real;
    (Pipe(SpawnX, center as real - gap / 2.0, PipeSpeed, PipeDisplayWidth, Top),
     Pipe(SpawnX, center as real + gap / 2.0, PipeSpeed, PipeDisplayWidth, Bottom))
  }
}
