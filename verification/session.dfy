/**
 * The game session: the module-level state of the shooting game and the
 * functions and timer callbacks that change it. Timers are not scheduled here:
 * each callback is a method the host calls when its interval fires, and an
 * interval's existence and period are recorded as plain fields.
 */
module Session {
  import opened Wrappers
  import opened Arith
  import Geometry
  import opened Difficulty

  /** Why a game ended, as shown on the game-over screen. */
  datatype EndReason = TimesUp | TooManyMisses {
    function Message(): string {
      match this
      case TimesUp => "Time's up!"
      case TooManyMisses => "Too many misses!"
    }
  }

  /**
   * What the game-over screen shows: the reason (as its `Message()` text), the
   * final score and the highest level.
   */
  datatype GameOver = GameOver(reason: EndReason, finalScore: int, highestLevel: int)

  class GameSession {
    var score: int
    var level: int
    var timeRemaining: int
    var missesRemaining: int
    var gameActive: bool
    var isPaused: bool
    var targetSpeed: int
    var highScore: int
    var maxLevel: int
    var targetSize: int
    /** `gameInterval` is set (the one-second countdown runs). */
    var countdownScheduled: bool
    /** `moveInterval`: the period it was scheduled with, or None once cleared. */
    var moveInterval: Option<int>
    /** The target's `left`/`top`, None until `moveTarget` first places it. */
    var targetPos: Option<Geometry.Point>
    /** The game-over screen, None while it is hidden. */
    var gameOver: Option<GameOver>
    /** The game container is open (`classList` holds "active"). */
    var panelOpen: bool

    /** The counters as one value. */
    function Counters(): Stats
      reads this
    {
      Stats(score, level, timeRemaining, missesRemaining, targetSpeed, targetSize, maxLevel)
    }

    /**
     * The session invariant: the counters stay on the level curve; only a
     * running game can be paused; both intervals exist exactly while a game
     * runs, the auto-move one at the current speed; a running game has time and
     * misses left and hides the game-over screen.
     */
    ghost predicate Valid()
      reads this
    {
      OnCurve(Counters()) &&
      (isPaused ==> gameActive) &&
      countdownScheduled == gameActive &&
      moveInterval == (if gameActive then Some(targetSpeed) else None) &&
      (gameActive ==> timeRemaining >= 1 && missesRemaining >= 1 && gameOver == None)
    }

    /** The state when the script loads; `stored` is what localStorage holds under "highScore". */
    constructor (stored: Option<int>)
      ensures Valid()
      ensures Counters() == Fresh() && !gameActive && !isPaused && !panelOpen
      ensures highScore == stored.GetOr(0)
      ensures targetPos == None && gameOver == None
    {
      score, level, timeRemaining, missesRemaining := 0, 1, 30, 5;
      gameActive, isPaused := false, false;
      targetSpeed, maxLevel, targetSize := 2000, 1, 70;
      highScore := stored.GetOr(0);
      countdownScheduled, moveInterval := false, None;
      targetPos, gameOver, panelOpen := None, None, false;
    }

    /** `toggleGame`: open or close the game container; opening it starts a game unless one runs. */
    method ToggleGame(layout: Geometry.Layout, u: real, v: real)
      requires Valid()
      modifies this
      ensures Valid()
      ensures panelOpen == !old(panelOpen)
      ensures panelOpen && !old(gameActive) ==>
                Counters() == Fresh() && gameActive && !isPaused && gameOver == None &&
                targetPos == Some(Geometry.Place(layout, u, v)) && highScore == old(highScore)
      ensures !(panelOpen && !old(gameActive)) ==>
                Counters() == old(Counters()) && gameActive == old(gameActive) && isPaused == old(isPaused) &&
                countdownScheduled == old(countdownScheduled) && moveInterval == old(moveInterval) &&
                targetPos == old(targetPos) && gameOver == old(gameOver) && highScore == old(highScore)
    {
      panelOpen := !panelOpen;
      if panelOpen && !gameActive {
        StartGame(layout, u, v);
      }
    }

    /** `startGame`: reset the counters, run the game, place the target, start both intervals. */
    method StartGame(layout: Geometry.Layout, u: real, v: real)
      modifies this`score, this`level, this`timeRemaining, this`missesRemaining, this`gameActive,
               this`isPaused, this`targetSpeed, this`maxLevel, this`targetSize,
               this`countdownScheduled, this`moveInterval, this`targetPos, this`gameOver
      ensures Valid()
      ensures Counters() == Fresh() && gameActive && !isPaused
      ensures moveInterval == Some(2000)
      ensures targetPos == Some(Geometry.Place(layout, u, v))
      ensures gameOver == None
    {
      score := 0;
      level := 1;
      timeRemaining := 30;
      missesRemaining := 5;
      gameActive := true;
      isPaused := false;
      targetSpeed := 2000;
      maxLevel := 1;
      targetSize := 70;
      gameOver := None;
      MoveTarget(layout, u, v);
      StartGameLoop();
    }

    /** `startGameLoop`: (re)start the countdown and the auto-move interval at the current speed. */
    method StartGameLoop()
      modifies this`countdownScheduled, this`moveInterval
      ensures countdownScheduled && moveInterval == Some(targetSpeed)
    {
      countdownScheduled := true;
      moveInterval := Some(targetSpeed);
    }

    /** The countdown interval's callback, fired once a second. */
    method CountdownTick()
      requires Valid()
      modifies this`timeRemaining, this`gameActive, this`isPaused, this`countdownScheduled,
               this`moveInterval, this`highScore, this`gameOver
      ensures Valid()
      ensures old(isPaused || !gameActive) ==>
                timeRemaining == old(timeRemaining) && gameActive == old(gameActive) &&
                isPaused == old(isPaused) && highScore == old(highScore) && gameOver == old(gameOver)
      ensures old(gameActive && !isPaused) ==>
                timeRemaining == old(timeRemaining) - 1 && !isPaused &&
                (gameActive <==> timeRemaining > 0) &&
                (gameActive ==> gameOver == old(gameOver) && highScore == old(highScore)) &&
                (!gameActive ==> gameOver == Some(GameOver(TimesUp, score, maxLevel)) &&
                                 highScore == Max(old(highScore), score))
    {
      if !isPaused && gameActive {
        timeRemaining := timeRemaining - 1;
        if timeRemaining <= 0 {
          EndGame(TimesUp);
        }
      }
    }

    /** The auto-move interval's callback, fired every `targetSpeed` milliseconds. */
    method AutoMoveTick(layout: Geometry.Layout, u: real, v: real)
      modifies this`targetPos
      ensures targetPos == if gameActive && !isPaused then Some(Geometry.Place(layout, u, v)) else old(targetPos)
    {
      if !isPaused && gameActive {
        MoveTarget(layout, u, v);
      }
    }

    /**
     * `handleTargetHit`: a hit on a running game scores a point and levels up on
     * every tenth point. The target reappears 200 ms later through a `MoveTarget` call.
     */
    method HandleTargetHit()
      requires Valid()
      modifies this`score, this`level, this`timeRemaining, this`missesRemaining, this`targetSpeed,
               this`targetSize, this`maxLevel, this`countdownScheduled, this`moveInterval
      ensures Valid()
      ensures Counters() == if old(gameActive && !isPaused) then Hit(old(Counters())) else old(Counters())
    {
      if !gameActive || isPaused {
        return;
      }
      HitStaysOnCurve(Counters());
      score := score + 1;
      if score % 10 == 0 {
        LevelUp();
      }
    }

    /**
     * `handleMissedClick`: a click on the game area that is not on the target costs
     * a miss; the last miss ends the game.
     */
    method HandleMissedClick(onTarget: bool)
      requires Valid()
      modifies this`missesRemaining, this`gameActive, this`isPaused, this`countdownScheduled,
               this`moveInterval, this`highScore, this`gameOver
      ensures Valid()
      ensures old(!gameActive || isPaused || onTarget) ==>
                missesRemaining == old(missesRemaining) && gameActive == old(gameActive) &&
                isPaused == old(isPaused) && highScore == old(highScore) && gameOver == old(gameOver)
      ensures old(gameActive && !isPaused && !onTarget) ==>
                missesRemaining == old(missesRemaining) - 1 && !isPaused &&
                (gameActive <==> missesRemaining > 0) &&
                (gameActive ==> gameOver == old(gameOver) && highScore == old(highScore)) &&
                (!gameActive ==> gameOver == Some(GameOver(TooManyMisses, score, maxLevel)) &&
                                 highScore == Max(old(highScore), score))
    {
      if !gameActive || isPaused {
        return;
      }
      if onTarget {
        return;
      }
      missesRemaining := missesRemaining - 1;
      if missesRemaining <= 0 {
        EndGame(TooManyMisses);
      }
    }

    /** `moveTarget`: on a running game, put the target at the clamped random position. */
    method MoveTarget(layout: Geometry.Layout, u: real, v: real)
      modifies this`targetPos
      ensures targetPos == if gameActive && !isPaused then Some(Geometry.Place(layout, u, v)) else old(targetPos)
    {
      if !gameActive || isPaused {
        return;
      }
      var maxX := (layout.areaWidth - layout.targetWidth) as real;
      var maxY := (layout.areaHeight - layout.targetHeight) as real;
      var x := Geometry.Clamp(u * maxX, maxX);
      var y := Geometry.Clamp(v * maxY, maxY);
      assert Geometry.Place(layout, u, v) == Geometry.Point(x, y);
      targetPos := Some(Geometry.Point(x, y));
    }

    /** `levelUp`: raise the level and the difficulty, and restart the intervals at the new speed. */
    method LevelUp()
      modifies this`level, this`maxLevel, this`targetSpeed, this`targetSize, this`timeRemaining,
               this`missesRemaining, this`countdownScheduled, this`moveInterval
      ensures Counters() == Difficulty.LevelUp(old(Counters()))
      ensures countdownScheduled && moveInterval == Some(targetSpeed)
    {
      level := level + 1;
      maxLevel := Max(maxLevel, level);
      targetSpeed := Max(400, targetSpeed - 200);
      targetSize := Max(30, targetSize - 5);
      var bonusTime := Max(2, 6 - level / 3);
      timeRemaining := timeRemaining + bonusTime;
      if level % 3 == 0 && level > 3 {
        missesRemaining := Max(3, missesRemaining - 1);
      }
      StartGameLoop();
    }

    /** `togglePause`: pause or resume a running game; nothing happens when no game runs. */
    method TogglePause()
      requires Valid()
      modifies this`isPaused
      ensures Valid()
      ensures isPaused == if gameActive then !old(isPaused) else old(isPaused)
    {
      if !gameActive {
        return;
      }
      isPaused := !isPaused;
    }

    /**
     * `endGame`: stop the game and the intervals, keep the best score, show the
     * game-over screen. The script's default reason "Time's up!" is never used:
     * both callers pass their reason, so the parameter has no default here.
     */
    method EndGame(reason: EndReason)
      requires OnCurve(Counters())
      modifies this`gameActive, this`isPaused, this`countdownScheduled, this`moveInterval,
               this`highScore, this`gameOver
      ensures Valid()
      ensures !gameActive && !isPaused && !countdownScheduled && moveInterval == None
      ensures highScore == Max(old(highScore), score)
      ensures gameOver == Some(GameOver(reason, score, maxLevel))
    {
      gameActive := false;
      isPaused := false;
      countdownScheduled := false;
      moveInterval := None;
      if score > highScore {
        highScore := score;
      }
      gameOver := Some(GameOver(reason, score, maxLevel));
    }
  }
}
