/** The penguin and the pipes as the game session sees them, and the shape
    the pipe collection keeps: a run of rows, each a top pipe followed by the
    bottom pipe spawned with it. */
module Entities {
  import opened Config
  import opened Geometry

  datatype Role = Top | Bottom

  /** A pipe sprite. For a top pipe `y` is its lower edge (origin (0.5, 1));
      for a bottom pipe it is its upper edge (origin (0.5, 0)). `x` is the
      horizontal centre in both cases. */
  datatype Pipe = Pipe(x: real, y: real, vx: real, displayWidth: real, role: Role)

  /** The penguin: position, vertical velocity, displayed height, and whether
      the engine applies gravity to it. */
  datatype Penguin = Penguin(x: real, y: real, vy: real, displayHeight: real, gravity: bool)

  /** A pipe whose right edge has passed the left edge of the screen. */
  predicate OffScreen(p: Pipe)
  {
    p.x + p.displayWidth / 2.0 < 0.0
  }

  /** The penguin's centre is closer to the top or bottom of the screen than
      half its displayed height. */
  predicate OutOfBounds(b: Penguin)
  {
    b.y < b.displayHeight / 2.0 || b.y > BaseHeight - b.displayHeight / 2.0
  }

  /** `top` and `bottom` form one row: same column and width, a gap whose
      size lies between the minimum and maximum, and the gap kept at least
      the margin away from both screen edges. */
  predicate IsRow(top: Pipe, bottom: Pipe)
  {
    && top.role == Top && bottom.role == Bottom
    && top.x == bottom.x
    && top.displayWidth == bottom.displayWidth == PipeDisplayWidth
    && GapMargin <= top.y
    && bottom.y <= BaseHeight - GapMargin
    && MinGapSize as real <= bottom.y - top.y <= MaxGapSize as real
  }

  /** `ps` is a sequence of whole rows, top pipe first in each. */
  predicate Rows(ps: seq<Pipe>)
    decreases |ps|
  {
    |ps| == 0 || (|ps| >= 2 && IsRow(ps[0], ps[1]) && Rows(ps[2..]))
  }

  /** A sequence of rows has even length, and its members are top pipes at
      even positions and bottom pipes at odd ones. */
  lemma {:induction false} RowsShape(ps: seq<Pipe>)
    requires Rows(ps)
    ensures |ps| % 2 == 0
    ensures forall i :: 0 <= i < |ps| ==> ps[i].role == (if i % 2 == 0 then Top else Bottom)
    decreases |ps|
  {
    if |ps| > 0 {
      RowsShape(ps[2..]);
      forall i | 2 <= i < |ps|
        ensures ps[i].role == (if i % 2 == 0 then Top else Bottom)
      {
        assert ps[i] == ps[2..][i - 2];
      }
    }
  }

  /** Appending a row to a sequence of rows yields a sequence of rows. */
  lemma {:induction false} RowsAppend(ps: seq<Pipe>, top: Pipe, bottom: Pipe)
    requires Rows(ps) && IsRow(top, bottom)
    ensures Rows(ps + [top, bottom])
    decreases |ps|
  {
    if |ps| == 0 {
      assert (ps + [top, bottom])[2..] == [];
    } else {
      RowsAppend(ps[2..], top, bottom);
      assert (ps + [top, bottom])[2..] == ps[2..] + [top, bottom];
    }
  }

  /** Every pipe stopped where it is: same count, order, positions, widths
      and roles, horizontal velocity zero. */
  function FreezeAll(ps: seq<Pipe>): (r: seq<Pipe>)
    ensures |r| == |ps|
    ensures forall i :: 0 <= i < |r| ==>
      && r[i].vx == 0.0
      && r[i].x == ps[i].x && r[i].y == ps[i].y
      && r[i].displayWidth == ps[i].displayWidth && r[i].role == ps[i].role
  {
    seq(|ps|, i requires 0 <= i < |ps| => ps[i].(vx := 0.0))
  }

  /** Freezing keeps the row structure. */
  lemma {:induction false} RowsFreezeAll(ps: seq<Pipe>)
    requires Rows(ps)
    ensures Rows(FreezeAll(ps))
    decreases |ps|
  {
    if |ps| > 0 {
      RowsFreezeAll(ps[2..]);
      assert FreezeAll(ps)[2..] == FreezeAll(ps[2..]);
    }
  }
}
