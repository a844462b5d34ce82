/**
 * The counters of a game and the rules that change them on a hit: the score,
 * the level reached every ten points, and the difficulty that each level-up
 * raises (faster and smaller target, less bonus time, fewer misses allowed).
 */
module Difficulty {

  import opened Arith

  /** The game's counters, as the globals `score` ... `maxLevel` hold them. */
  datatype Stats = Stats(
    score: int,
    level: int,
    timeRemaining: int,
    missesRemaining: int,
    targetSpeed: int,     // milliseconds between automatic moves of the target
    targetSize: int,      // target width and height in pixels
    maxLevel: int)

  /** The values `startGame` resets the counters to (the same the globals start with on load). */
  function Fresh(): (s: Stats)
    ensures OnCurve(s)
  {
    Stats(0, 1, 30, 5, 2000, 70, 1)
  }

  /** The auto-move interval at a given level, when every level-up since level 1 took 200 ms off. */
  function SpeedAt(level: int): int { Max(400, 2200 - 200 * level) }

  /** The target size at a given level, when every level-up since level 1 took 5 px off. */
  function SizeAt(level: int): int { Max(30, 75 - 5 * level) }

  /**
   * The relation every game keeps between its counters: the level is one more
   * than the number of completed tens (`level == score / 10 + 1`), the highest level is the current one, and
   * speed and size are those of the level.
   */
  predicate OnCurve(s: Stats) {
    s.score >= 0 &&
    10 * (s.level - 1) <= s.score < 10 * s.level &&
    s.maxLevel == s.level &&
    s.targetSpeed == SpeedAt(s.level) &&
    s.targetSize == SizeAt(s.level)
  }

  /** `Math.max(400, targetSpeed - 200)`: never under 400 ms, never more than 200 ms faster. */
  function NextSpeed(speed: int): (r: int)
    ensures r >= 400
    ensures speed >= 400 ==> speed - 200 <= r <= speed
  {
    Max(400, speed - 200)
  }

  /** `Math.max(30, targetSize - 5)`: never under 30 px, never more than 5 px smaller. */
  function NextSize(size: int): (r: int)
    ensures r >= 30
    ensures size >= 30 ==> size - 5 <= r <= size
  {
    Max(30, size - 5)
  }

  /**
   * `Math.max(2, 6 - Math.floor(level / 3))`. Dafny's `/` with the positive
   * divisor 3 rounds down like `Math.floor`, also for negative levels.
   * The bonus is 2 to 6 seconds and settles at 2 from level 12 on.
   */
  function BonusTime(level: int): (b: int)
    ensures 2 <= b
    ensures level >= 0 ==> b <= 6
    ensures level >= 12 ==> b == 2
  {
    Max(2, 6 - level / 3)
  }

  /** Less bonus time at higher levels: the bonus never grows as the level rises. */
  lemma BonusNeverGrows(a: int, b: int)
    requires a <= b
    ensures BonusTime(b) <= BonusTime(a)
  {
  }

  /** True when a level-up to `level` takes a miss away: level 6, 9, 12, ... */
  predicate CostsAMiss(level: int) {
    level % 3 == 0 && level > 3
  }

  /** The misses left after a level-up to `level`: `Math.max(3, missesRemaining - 1)` on the levels that cost a miss. */
  function ReducedMisses(level: int, misses: int): (r: int)
    ensures !CostsAMiss(level) ==> r == misses
    ensures CostsAMiss(level) ==> r >= 3 && r >= misses - 1
    ensures CostsAMiss(level) && misses >= 4 ==> r == misses - 1
    ensures misses >= 3 ==> misses - 1 <= r <= misses
  {
    if CostsAMiss(level) then Max(3, misses - 1) else misses
  }

  /**
   * The "reduction" is a floor as well: a player down to one or two misses who
   * reaches level 6, 9, 12, ... gets back up to three.
   */
  lemma MissFloorRaisesLowCounts(level: int, misses: int)
    requires CostsAMiss(level) && misses < 3
    ensures ReducedMisses(level, misses) == 3 > misses
  {
  }

  /** The counters after `levelUp`. */
  function LevelUp(s: Stats): (r: Stats)
    ensures r.score == s.score && r.level == s.level + 1
    ensures r.maxLevel == Max(s.maxLevel, s.level + 1)
    ensures r.targetSpeed == NextSpeed(s.targetSpeed) && r.targetSize == NextSize(s.targetSize)
    ensures r.targetSpeed >= 400 && r.targetSize >= 30
    ensures r.timeRemaining == s.timeRemaining + BonusTime(s.level + 1)
    ensures s.level >= -1 ==> s.timeRemaining + 2 <= r.timeRemaining <= s.timeRemaining + 6
    ensures r.missesRemaining == ReducedMisses(s.level + 1, s.missesRemaining)
  {
    var level := s.level + 1;
    Stats(
      s.score,
      level,
      s.timeRemaining + BonusTime(level),
      ReducedMisses(level, s.missesRemaining),
      NextSpeed(s.targetSpeed),
      NextSize(s.targetSize),
      Max(s.maxLevel, level))
  }

  /** The counters after a valid hit: one more point, and a level-up when it completes a ten. */
  function Hit(s: Stats): (r: Stats)
    ensures r.score == s.score + 1
    ensures (r.level == s.level + 1) <==> (r.score % 10 == 0)
    ensures r.score % 10 != 0 ==> r == s.(score := s.score + 1)
  {
    var t := s.(score := s.score + 1);
    if t.score % 10 == 0 then LevelUp(t) else t
  }

  /** `n` level-ups in a row. */
  function LevelUps(s: Stats, n: nat): Stats {
    if n == 0 then s else LevelUp(LevelUps(s, n - 1))
  }

  /** The floors hold after any number of level-ups, whatever the counters were before. */
  lemma {:induction false} FloorsSurviveLevelUps(s: Stats, n: nat)
    requires n >= 1
    ensures LevelUps(s, n).targetSpeed >= 400 && LevelUps(s, n).targetSize >= 30
    ensures LevelUps(s, n).level == s.level + n
    ensures s.missesRemaining >= 3 ==> LevelUps(s, n).missesRemaining >= 3
  {
    if n > 1 {
      FloorsSurviveLevelUps(s, n - 1);
    }
  }

  /** A hit keeps the counters on the curve: the level follows the tens of the score. */
  lemma HitStaysOnCurve(s: Stats)
    requires OnCurve(s)
    ensures OnCurve(Hit(s))
  {
  }

  /** `n` valid hits in a row. */
  function Hits(s: Stats, n: nat): Stats {
    if n == 0 then s else Hit(Hits(s, n - 1))
  }

  /** The misses after the level-up at a positive multiple `n` of ten, in a game without misses. */
  lemma MissesAtTen(n: int, m: int)
    requires n > 0 && n % 10 == 0
    requires m == if n - 1 < 50 then 5 else if n - 1 < 80 then 4 else 3
    ensures ReducedMisses(n / 10 + 1, m) == if n < 50 then 5 else if n < 80 then 4 else 3
  {
  }

  /**
   * The counters after `n` hits without a miss from a fresh game: level
   * `n / 10 + 1`, 200 ms and 5 px off per completed ten down to 400 ms and
   * 30 px, and one miss taken away at 50 and at 80 points.
   */
  lemma {:induction false} HitsFromFresh(n: nat)
    ensures OnCurve(Hits(Fresh(), n))
    ensures Hits(Fresh(), n).score == n
    ensures Hits(Fresh(), n).level == n / 10 + 1
    ensures Hits(Fresh(), n).targetSpeed == Max(400, 2000 - 200 * (n / 10))
    ensures Hits(Fresh(), n).targetSize == Max(30, 70 - 5 * (n / 10))
    ensures Hits(Fresh(), n).missesRemaining == if n < 50 then 5 else if n < 80 then 4 else 3
  {
    if n > 0 {
      var s := Hits(Fresh(), n - 1);
      HitsFromFresh(n - 1);
      HitStaysOnCurve(s);
      var k := n / 10;
      if n % 10 == 0 {
        assert (n - 1) / 10 == k - 1;
        assert Hit(s) == LevelUp(s.(score := n));
        MissesAtTen(n, s.missesRemaining);
      } else {
        assert (n - 1) / 10 == k;
        assert Hit(s) == s.(score := n);
      }
    }
  }
}
