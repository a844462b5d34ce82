/**
 * Whole games played against the session's contracts: a run of hits, a run of
 * misses, the clock running out, a new best score, and a pause that swallows ticks.
 */
module Scenarios {
  import opened Wrappers
  import opened Arith
  import Geometry
  import opened Difficulty
  import opened Session

  /** A 600 x 400 area with the 70 px target of a fresh game. */
  function Arena(): Geometry.Layout {
    Geometry.Layout(600, 400, 70, 70)
  }

  /** A fresh game hit `n` times in a row: the level, speed and size follow the completed tens. */
  method HitRun(n: nat) returns (s: Stats)
    ensures s.score == n && s.level == n / 10 + 1 && s.maxLevel == s.level
    ensures s.targetSpeed == Max(400, 2000 - 200 * (n / 10))
    ensures s.targetSize == Max(30, 70 - 5 * (n / 10))
    ensures s.missesRemaining == if n < 50 then 5 else if n < 80 then 4 else 3
  {
    var g := new GameSession(None);
    g.StartGame(Arena(), 0.5, 0.5);
    var i := 0;
    while i < n
      invariant 0 <= i <= n
      invariant g.Valid() && g.gameActive && !g.isPaused
      invariant g.Counters() == Hits(Fresh(), i)
    {
      assert Hits(Fresh(), i + 1) == Hit(Hits(Fresh(), i));
      g.HandleTargetHit();
      i := i + 1;
    }
    s := g.Counters();
    HitsFromFresh(n);
  }

  /** Five misses in a fresh game end it for too many misses. */
  method FiveMisses() returns (active: bool, over: Option<GameOver>)
    ensures !active && over == Some(GameOver(TooManyMisses, 0, 1))
    ensures over.value.reason.Message() == "Too many misses!"
  {
    var g := new GameSession(None);
    g.StartGame(Arena(), 0.5, 0.5);
    var i := 0;
    while i < 5
      invariant 0 <= i <= 5
      invariant g.Valid() && g.Counters() == Fresh().(missesRemaining := 5 - i)
      invariant g.gameActive == (i < 5) && !g.isPaused
      invariant g.gameOver == if i < 5 then None else Some(GameOver(TooManyMisses, 0, 1))
    {
      g.HandleMissedClick(false);
      i := i + 1;
    }
    active, over := g.gameActive, g.gameOver;
  }

  /** Thirty countdown ticks end a fresh game because the time is up. */
  method ClockRunsOut() returns (active: bool, over: Option<GameOver>)
    ensures !active && over == Some(GameOver(TimesUp, 0, 1))
    ensures over.value.reason.Message() == "Time's up!"
  {
    var g := new GameSession(None);
    g.StartGame(Arena(), 0.5, 0.5);
    var i := 0;
    while i < 30
      invariant 0 <= i <= 30
      invariant g.Valid() && g.Counters() == Fresh().(timeRemaining := 30 - i)
      invariant g.gameActive == (i < 30) && !g.isPaused
      invariant g.gameOver == if i < 30 then None else Some(GameOver(TimesUp, 0, 1))
    {
      g.CountdownTick();
      i := i + 1;
    }
    active, over := g.gameActive, g.gameOver;
  }

  /** A game that ends at 12 points beats a stored best of 7. */
  method NewHighScore() returns (best: int)
    ensures best == 12
  {
    var g := new GameSession(Some(7));
    g.StartGame(Arena(), 0.5, 0.5);
    var i := 0;
    while i < 12
      invariant 0 <= i <= 12
      invariant g.Valid() && g.gameActive && !g.isPaused
      invariant g.score == i && g.highScore == 7
    {
      g.HandleTargetHit();
      i := i + 1;
    }
    while g.gameActive
      invariant g.Valid() && g.score == 12 && !g.isPaused
      invariant g.gameActive ==> g.highScore == 7
      invariant !g.gameActive ==> g.highScore == 12
      decreases g.missesRemaining
    {
      g.HandleMissedClick(false);
    }
    best := g.highScore;
  }

  /** Ticks that arrive while the game is paused are dropped: no time is lost for them after resuming. */
  method PauseSwallowsTicks(n: nat) returns (before: int, after: int)
    ensures before == after == 30
  {
    var g := new GameSession(None);
    g.StartGame(Arena(), 0.5, 0.5);
    before := g.timeRemaining;
    g.TogglePause();
    var i := 0;
    while i < n
      invariant g.Valid() && g.gameActive && g.isPaused && g.timeRemaining == before
    {
      g.CountdownTick();
      i := i + 1;
    }
    g.TogglePause();
    after := g.timeRemaining;
  }
}
