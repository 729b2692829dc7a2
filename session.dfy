/** The game session: the score, the two state flags and the pipe
    collection that main.js keeps in module-level variables, and the
    handlers the engine calls on input, on each frame, on each spawn-timer
    tick and on a penguin-pipe collision. */
module Session {
  import opened Config
  import opened Geometry
  import opened Entities
  import opened Spawner
  import opened PipeGroup

  /** The two inputs the scene listens to: a pointer press and the SPACE key. */
  datatype Input = Pointer | Space

  /** Horizontal velocity every pipe has before and after the game is over. */
  function PipeVelocity(over: bool): real
  {
    if over then 0.0 else PipeSpeed
  }

  class GameSession {
    var score: nat
    var gameStarted: bool
    var gameOver: bool
    var penguin: Penguin
    var pipes: seq<Pipe>
    /** One-shot start listeners that have not fired yet. */
    var startListeners: set<Input>
    /** Looping spawn timers armed so far; each tick of each one spawns a row. */
    var spawnTimers: nat

    /** Every start listener that fired armed one timer; pipes exist only
        once the game has started; the collection is a run of whole rows, at
        most one per point of score; every pipe moves left at pipe speed
        until the game is over and stands still after. */
    ghost predicate Valid()
      reads this
    {
      && startListeners <= {Pointer, Space}
      && spawnTimers + |startListeners| == 2
      && (spawnTimers > 0 ==> gameStarted)
      && (pipes != [] ==> gameStarted)
      && Rows(pipes)
      && |pipes| <= 2 * score
      && (forall p :: p in pipes ==> p.vx == PipeVelocity(gameOver))
    }

    /** The scene as `create` leaves it: penguin at a quarter of the width
        and half the height, at rest and without gravity, no pipes, both
        start listeners registered. */
    constructor (penguinDisplayHeight: real)
      ensures Valid()
      ensures score == 0 && !gameStarted && !gameOver && pipes == []
      ensures startListeners == {Pointer, Space} && spawnTimers == 0
      ensures penguin == Penguin(PenguinStartX, PenguinStartY, 0.0, penguinDisplayHeight, false)
    {
      score := 0;
      gameStarted := false;
      gameOver := false;
      penguin := Penguin(PenguinStartX, PenguinStartY, 0.0, penguinDisplayHeight, false);
      pipes := [];
      startListeners := {Pointer, Space};
      spawnTimers := 0;
    }

    /** One press of `via`: its one-shot start listener fires first if it is
        still registered, then the flap listener. */
    method Press(via: Input, gapCenter: int)
      requires Valid()
      requires via in startListeners && !gameOver ==> ValidGapCenter(GapSize(score), gapCenter)
      modifies this
      ensures Valid()
      ensures startListeners == old(startListeners) - {via}
      ensures spawnTimers == old(spawnTimers) + (if via in old(startListeners) then 1 else 0)
      ensures gameOver == old(gameOver)
      ensures gameStarted == (old(gameStarted) || via in old(startListeners))
      ensures if via in old(startListeners) && !old(gameOver)
              then var row := PlaceRow(old(score), gapCenter);
                   score == old(score) + 1 && pipes == old(pipes) + [row.0, row.1]
              else score == old(score) && pipes == old(pipes)
      ensures penguin.x == old(penguin).x && penguin.y == old(penguin).y
      ensures penguin.displayHeight == old(penguin).displayHeight
      ensures penguin.gravity == (old(penguin).gravity || via in old(startListeners))
      ensures penguin.vy == if gameStarted && !gameOver then FlapVelocity else old(penguin).vy
    {
      if via in startListeners {
        StartGame(via, gapCenter);
      }
      Flap();
    }

    /** Start of play: gravity on, a row at once and a looping spawn timer.
        Nothing guards it, so a second start input arms a second timer and,
        unless the game is over by then, spawns another row. */
    method StartGame(via: Input, gapCenter: int)
      requires Valid() && via in startListeners
      requires !gameOver ==> ValidGapCenter(GapSize(score), gapCenter)
      modifies this
      ensures Valid()
      ensures gameStarted && gameOver == old(gameOver)
      ensures penguin == old(penguin).(gravity := true)
      ensures startListeners == old(startListeners) - {via}
      ensures spawnTimers == old(spawnTimers) + 1
      ensures if old(gameOver) then score == old(score) && pipes == old(pipes)
              else var row := PlaceRow(old(score), gapCenter);
                   score == old(score) + 1 && pipes == old(pipes) + [row.0, row.1]
    {
      gameStarted := true;
      penguin := penguin.(gravity := true);
      AddPipeRow(gapCenter);
      startListeners := startListeners - {via};
      spawnTimers := spawnTimers + 1;
    }

    /** The per-frame handler. Before the start and after the end it does
        nothing. Otherwise a penguin too close to the top or bottom ends the
        game, and then, in the same call, off-screen pipes are pruned. */
    method Update()
      requires Valid()
      modifies this`gameOver, this`penguin, this`pipes
      ensures Valid()
      ensures old(gameOver || !gameStarted) ==>
                gameOver == old(gameOver) && penguin == old(penguin) && pipes == old(pipes)
      ensures old(!gameOver && gameStarted) ==>
                && gameOver == OutOfBounds(old(penguin))
                && penguin == (if OutOfBounds(old(penguin)) then old(penguin).(vy := 0.0) else old(penguin))
                && pipes == Prune(if OutOfBounds(old(penguin)) then FreezeAll(old(pipes)) else old(pipes))
    {
      if gameOver || !gameStarted {
        return;
      }
      if OutOfBounds(penguin) {
        EndGame();
      }
      PruneOffScreen();
    }

    /** Destroys every pipe whose right edge has left the screen. */
    method PruneOffScreen()
      requires Valid()
      modifies this`pipes
      ensures Valid()
      ensures pipes == Prune(old(pipes))
    {
      var all := pipes;
      var kept: seq<Pipe> := [];
      var i := 0;
      while i < |all|
        invariant 0 <= i <= |all|
        invariant kept == Prune(all[..i])
      {
        PruneAppend(all[..i], [all[i]]);
        assert all[..i + 1] == all[..i] + [all[i]];
        assert Prune([all[i]]) == (if OffScreen(all[i]) then [] else [all[i]]) + Prune([]);
        if !OffScreen(all[i]) {
          kept := kept + [all[i]];
        }
        i := i + 1;
      }
      assert all[..i] == all;
      PruneRows(all);
      forall p | p in kept
        ensures p.vx == PipeVelocity(gameOver)
      {
        PruneMembers(all, p);
      }
      pipes := kept;
    }

    /** The flap input: while the game runs, the penguin's vertical velocity
        becomes the flap velocity, whatever it was. */
    method Flap()
      requires Valid()
      modifies this`penguin
      ensures Valid()
      ensures penguin == if old(gameStarted && !gameOver) then old(penguin).(vy := FlapVelocity)
                         else old(penguin)
    {
      if gameOver || !gameStarted {
        return;
      }
      penguin := penguin.(vy := FlapVelocity);
    }

    /** One spawn-timer tick (and the first row of `StartGame`): unless the
        game is over, a new row is appended behind the existing pipes and the
        score goes up by one. The score counts spawned rows. */
    method AddPipeRow(gapCenter: int)
      requires Valid() && gameStarted
      requires !gameOver ==> ValidGapCenter(GapSize(score), gapCenter)
      modifies this`pipes, this`score
      ensures Valid()
      ensures if old(gameOver) then score == old(score) && pipes == old(pipes)
              else var row := PlaceRow(old(score), gapCenter);
                   score == old(score) + 1 && pipes == old(pipes) + [row.0, row.1]
    {
      if gameOver {
        return;
      }
      var row := PlaceRow(score, gapCenter);
      RowsAppend(pipes, row.0, row.1);
      pipes := pipes + [row.0, row.1];
      // Both branches of the label check increment the score.
      score := score + 1;
    }

    /** The collision handler: ends the game once; later collisions change nothing. */
    method HitPipe()
      requires Valid()
      modifies this`gameOver, this`penguin, this`pipes
      ensures Valid() && gameOver
      ensures old(gameOver) ==> penguin == old(penguin) && pipes == old(pipes)
      ensures !old(gameOver) ==> penguin == old(penguin).(vy := 0.0) && pipes == FreezeAll(old(pipes))
    {
      if gameOver {
        return;
      }
      EndGame();
    }

    /** The terminal transition: the game is over, the penguin stops and
        every pipe stops where it is. */
    method EndGame()
      requires Valid()
      modifies this`gameOver, this`penguin, this`pipes
      ensures Valid() && gameOver
      ensures penguin == old(penguin).(vy := 0.0)
      ensures pipes == FreezeAll(old(pipes))
    {
      gameOver := true;
      penguin := penguin.(vy := 0.0);
      var i := 0;
      while i < |pipes|
        invariant gameOver && penguin == old(penguin).(vy := 0.0)
        invariant 0 <= i <= |pipes| == |old(pipes)|
        invariant forall j :: 0 <= j < i ==> pipes[j] == old(pipes)[j].(vx := 0.0)
        invariant forall j :: i <= j < |pipes| ==> pipes[j] == old(pipes)[j]
      {
        pipes := pipes[i := pipes[i].(vx := 0.0)];
        i := i + 1;
      }
      assert pipes == FreezeAll(old(pipes));
      RowsFreezeAll(old(pipes));
    }
  }

  /** A client run: the pointer press starts the game and flaps at once; a
      later SPACE press, before the game is over, starts it a second time,
      spawning another row and arming a second spawn timer. */
  method DoubleStart()
  {
    var s := new GameSession(60.0);
    GapCenterRangeNonEmpty(GapSize(0));
    s.Press(Pointer, 300);
    assert s.gameStarted && s.score == 1 && |s.pipes| == 2 && s.penguin.vy == FlapVelocity;
    GapCenterRangeNonEmpty(GapSize(1));
    s.Press(Space, 300);
    assert s.score == 2 && |s.pipes| == 4 && s.spawnTimers == 2 && s.startListeners == {};
    s.Press(Pointer, 300);
    assert s.score == 2 && |s.pipes| == 4;
    s.HitPipe();
    assert s.gameOver && forall p :: p in s.pipes ==> p.vx == 0.0;
    s.AddPipeRow(0);
    assert s.score == 2 && |s.pipes| == 4;
  }
}
