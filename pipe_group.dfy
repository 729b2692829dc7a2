/** Pruning the pipe collection: each frame of play, every pipe whose right
    edge has left the screen is destroyed. */
module PipeGroup {
  import opened Geometry
  import opened Entities

  /** The pipes that survive a prune, in their original order. */
  function Prune(ps: seq<Pipe>): (r: seq<Pipe>)
    ensures |r| <= |ps|
    ensures forall i :: 0 <= i < |r| ==> !OffScreen(r[i])
    decreases |ps|
  {
    if ps == [] then []
    else (if OffScreen(ps[0]) then [] else [ps[0]]) + Prune(ps[1..])
  }

  /** Pruning works pipe by pipe: pruning a concatenation is the
      concatenation of the prunes. */
  lemma {:induction false} PruneAppend(a: seq<Pipe>, b: seq<Pipe>)
    ensures Prune(a + b) == Prune(a) + Prune(b)
    decreases |a|
  {
    if a == [] {
      assert a + b == b;
    } else {
      PruneAppend(a[1..], b);
      assert (a + b)[1..] == a[1..] + b;
    }
  }

  /** Each pipe is removed exactly when it is off screen, and kept in place
      among its neighbours otherwise. */
  lemma PruneOrder(a: seq<Pipe>, p: Pipe, b: seq<Pipe>)
    ensures Prune(a + [p] + b) == Prune(a) + (if OffScreen(p) then [] else [p]) + Prune(b)
  {
    PruneAppend(a + [p], b);
    PruneAppend(a, [p]);
    assert [p][1..] == [];
    assert Prune([p]) == (if OffScreen(p) then [] else [p]);
  }

  /** A pipe survives the prune if and only if it was there and is on screen. */
  lemma {:induction false} PruneMembers(ps: seq<Pipe>, p: Pipe)
    ensures p in Prune(ps) <==> p in ps && !OffScreen(p)
    decreases |ps|
  {
    if ps != [] {
      PruneMembers(ps[1..], p);
      assert ps == [ps[0]] + ps[1..];
    }
  }

  /** When no pipe is off screen the prune changes nothing. */
  lemma {:induction false} PruneNoneOff(ps: seq<Pipe>)
    requires forall i :: 0 <= i < |ps| ==> !OffScreen(ps[i])
    ensures Prune(ps) == ps
    decreases |ps|
  {
    if ps != [] {
      PruneNoneOff(ps[1..]);
    }
  }

  /** Both pipes of a row share a column, so pruning removes whole rows and
      the collection stays a sequence of rows. */
  lemma {:induction false} PruneRows(ps: seq<Pipe>)
    requires Rows(ps)
    ensures Rows(Prune(ps))
    decreases |ps|
  {
    if ps != [] {
      PruneRows(ps[2..]);
      assert ps == [ps[0], ps[1]] + ps[2..];
      PruneAppend([ps[0], ps[1]], ps[2..]);
      assert Prune([ps[0], ps[1]]) == (if OffScreen(ps[0]) then [] else [ps[0], ps[1]]) by {
        assert Prune([ps[0], ps[1]]) ==
          (if OffScreen(ps[0]) then [] else [ps[0]]) + (if OffScreen(ps[1]) then [] else [ps[1]]) + Prune([]);
      }
      if !OffScreen(ps[0]) {
        var r := Prune(ps);
        assert r == [ps[0], ps[1]] + Prune(ps[2..]);
        assert r[0] == ps[0] && r[1] == ps[1] && r[2..] == Prune(ps[2..]);
      } else {
        assert OffScreen(ps[1]);
        assert Prune(ps) == [] + Prune(ps[2..]) == Prune(ps[2..]);
      }
    }
  }

  /** A row whose right edge is 5 pixels past the left edge of the screen is
      pruned; a row whose right edge is 5 pixels inside it is kept. */
  lemma PruneEdgeCases()
    ensures var gone := Pipe(-5.0 - PipeDisplayWidth / 2.0, 100.0, -220.0, PipeDisplayWidth, Top);
            var kept := Pipe(5.0 - PipeDisplayWidth / 2.0, 100.0, -220.0, PipeDisplayWidth, Top);
            Prune([gone, kept]) == [kept]
  {
  }

  /** The prune as main.js writes it: `forEach` walks the group's live
      children array by index, up to its length at the start, skipping
      indices that no longer exist; `destroy` removes the pipe from that
      array at once, so the pipe that moves into the freed index is not
      visited during this pass. */
  function PruneAsWritten(ps: seq<Pipe>): (r: seq<Pipe>)
    ensures |r| <= |ps|
    ensures Prune(r) == Prune(ps)
  {
    DestroyFromPrune(ps, 0, |ps|);
    DestroyFrom(ps, 0, |ps|)
  }

  function DestroyFrom(live: seq<Pipe>, k: nat, len: nat): seq<Pipe>
    decreases len - k
  {
    if len <= k then live
    else if k < |live| && OffScreen(live[k]) then DestroyFrom(live[..k] + live[k + 1..], k + 1, len)
    else DestroyFrom(live, k + 1, len)
  }

  /** The as-written pass destroys only off-screen pipes, so what remains
      after it prunes to the same pipes, in the same order, as the input. */
  lemma {:induction false} DestroyFromPrune(live: seq<Pipe>, k: nat, len: nat)
    ensures |DestroyFrom(live, k, len)| <= |live|
    ensures Prune(DestroyFrom(live, k, len)) == Prune(live)
    decreases len - k
  {
    if len <= k {
    } else if k < |live| && OffScreen(live[k]) {
      var rest := live[..k] + live[k + 1..];
      DestroyFromPrune(rest, k + 1, len);
      assert live == live[..k] + [live[k]] + live[k + 1..];
      PruneOrder(live[..k], live[k], live[k + 1..]);
      PruneAppend(live[..k], live[k + 1..]);
    } else {
      DestroyFromPrune(live, k + 1, len);
    }
  }

  /** A whole row that has left the screen comes out of the as-written prune
      as a lone bottom pipe, which is no longer a sequence of rows; the
      intended prune removes the row. */
  lemma PruneAsWrittenKeepsHalfRow()
    ensures var top := Pipe(-200.0, 190.0, -220.0, PipeDisplayWidth, Top);
            var bottom := Pipe(-200.0, 410.0, -220.0, PipeDisplayWidth, Bottom);
            && Rows([top, bottom])
            && PruneAsWritten([top, bottom]) == [bottom]
            && !Rows(PruneAsWritten([top, bottom]))
            && Prune([top, bottom]) == []
  {
  }
}
