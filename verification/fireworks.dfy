/**
 * The bookkeeping of one firework of the fireworks display: the rocket's
 * bounded trail, its explosion into a batch of particles, the fading and
 * removal of those particles, and the test that the firework is finished.
 * Particles are reduced to what that bookkeeping reads: opacity and decay.
 */
module Fireworks {
  import opened Arith
  import opened Geometry

  /** `maxTrailLength`. */
  const MaxTrailLength: int := 10

  /** A particle as its firework sees it: `alpha` (opacity) and the `decay` it loses per frame. */
  datatype Particle = Particle(alpha: real, decay: real)

  /** The trail after one frame: push the position, then drop the oldest entry when over the bound. */
  function Pushed(trail: seq<Point>, p: Point): (r: seq<Point>)
    ensures |trail| <= MaxTrailLength ==> |r| <= MaxTrailLength
    ensures |trail| < MaxTrailLength ==> r == trail + [p]
    ensures |trail| >= MaxTrailLength ==> |r| == |trail| && r == (trail + [p])[1..]
  {
    var t := trail + [p];
    if |t| > MaxTrailLength then t[1..] else t
  }

  /** The trail of a rocket that has been at the positions `ps`, oldest first. */
  function Trail(ps: seq<Point>): seq<Point> {
    if ps == [] then [] else Pushed(Trail(ps[..|ps| - 1]), ps[|ps| - 1])
  }

  /** The trail holds exactly the last ten positions, in order. */
  lemma {:induction false} TrailIsLastTen(ps: seq<Point>)
    ensures Trail(ps) == ps[|ps| - Min(|ps|, MaxTrailLength)..]
  {
    if ps != [] {
      var init := ps[..|ps| - 1];
      TrailIsLastTen(init);
      var m := Min(|init|, MaxTrailLength);
      assert init[|init| - m..] + [ps[|ps| - 1]] == ps[|ps| - 1 - m..];
    }
  }

  /** One frame of a particle's fade. Its motion is not modelled. */
  function Fade(p: Particle): Particle {
    p.(alpha := p.alpha - p.decay)
  }

  /**
   * One frame of an exploded firework: every particle fades, and those whose
   * opacity reached zero are dropped; the others keep their order.
   */
  function Survivors(ps: seq<Particle>): (r: seq<Particle>)
    ensures |r| <= |ps|
    ensures forall i :: 0 <= i < |r| ==> r[i].alpha > 0.0
    ensures forall i :: 0 <= i < |ps| && Fade(ps[i]).alpha > 0.0 ==> Fade(ps[i]) in r
  {
    if ps == [] then [] else Survivors(ps[..|ps| - 1]) + Kept(ps[|ps| - 1])
  }

  /** What a frame keeps of one particle: its faded self while that is still visible, else nothing. */
  function Kept(p: Particle): seq<Particle> {
    var q := Fade(p);
    if q.alpha > 0.0 then [q] else []
  }

  /** Every survivor is the faded copy of some particle of the frame before. */
  lemma {:induction false} SurvivorsComeFromFrame(ps: seq<Particle>)
    ensures forall q :: q in Survivors(ps) ==> exists i :: 0 <= i < |ps| && q == Fade(ps[i])
  {
    if ps != [] {
      var init := ps[..|ps| - 1];
      SurvivorsComeFromFrame(init);
      forall q | q in Survivors(ps)
        ensures exists i :: 0 <= i < |ps| && q == Fade(ps[i])
      {
        if q in Survivors(init) {
          var i :| 0 <= i < |init| && q == Fade(init[i]);
          assert ps[i] == init[i];
        } else {
          assert q == Fade(ps[|ps| - 1]);
        }
      }
    }
  }

  /** A single particle survives a frame as its faded self exactly when that is still visible. */
  lemma SurvivorsOfOne(p: Particle)
    ensures Survivors([p]) == if Fade(p).alpha > 0.0 then [Fade(p)] else []
  {
    assert [p][..0] == [];
    assert Survivors([p]) == Survivors([]) + Kept(p);
  }

  /** The last particle is handled after all the others. */
  lemma SurvivorsOfLast(ps: seq<Particle>, p: Particle)
    ensures Survivors(ps + [p]) == Survivors(ps) + Kept(p)
  {
    assert (ps + [p])[..|ps|] == ps;
  }

  /**
   * A frame treats the particles one at a time, in order: the survivors of a
   * concatenation are the survivors of its parts, concatenated. With
   * SurvivorsOfOne this fixes the result completely, so every visible
   * particle is kept once per occurrence, in its place.
   */
  lemma {:induction false} SurvivorsInOrder(a: seq<Particle>, b: seq<Particle>)
    ensures Survivors(a + b) == Survivors(a) + Survivors(b)
    decreases |b|
  {
    if b == [] {
      assert a + b == a;
    } else {
      var init := b[..|b| - 1];
      var last := b[|b| - 1];
      assert Survivors(a + init) == Survivors(a) + Survivors(init) by {
        SurvivorsInOrder(a, init);
      }
      assert Survivors(a + b) == Survivors(a + init) + Kept(last) by {
        SplitLast(a, b);
        SurvivorsOfLast(a + init, last);
      }
      assert Survivors(b) == Survivors(init) + Kept(last) by {
        assert b == init + [last];
        SurvivorsOfLast(init, last);
      }
      Regroup(Survivors(a + b), Survivors(a), Survivors(init), Kept(last), Survivors(b));
    }
  }

  /** Regrouping a three-part concatenation whose last two parts make up a known sequence. */
  lemma Regroup(whole: seq<Particle>, x: seq<Particle>, y: seq<Particle>, z: seq<Particle>, yz: seq<Particle>)
    requires whole == (x + y) + z
    requires yz == y + z
    ensures whole == x + yz
  {
  }

  /** Appending to a nonempty sequence is appending to its front part, then its last element. */
  lemma SplitLast(a: seq<Particle>, b: seq<Particle>)
    requires b != []
    ensures a + b == (a + b[..|b| - 1]) + [b[|b| - 1]]
  {
    assert b == b[..|b| - 1] + [b[|b| - 1]];
  }

  /** When every particle is still visible after its fade, a frame keeps all of them, faded, in order. */
  lemma {:induction false} AllVisibleAllKept(ps: seq<Particle>)
    requires forall i :: 0 <= i < |ps| ==> Fade(ps[i]).alpha > 0.0
    ensures |Survivors(ps)| == |ps|
    ensures forall i :: 0 <= i < |ps| ==> Survivors(ps)[i] == Fade(ps[i])
  {
    if ps != [] {
      var init := ps[..|ps| - 1];
      var last := ps[|ps| - 1];
      AllVisibleAllKept(init);
      assert Survivors(ps) == Survivors(init) + [Fade(last)];
      forall i | 0 <= i < |ps|
        ensures Survivors(ps)[i] == Fade(ps[i])
      {
        if i < |ps| - 1 {
          assert ps[i] == init[i];
        }
      }
    }
  }

  /**
   * A frame leaves an exploded firework without particles only when every one
   * of them faded to opacity zero or below in that frame.
   */
  lemma EmptiedOnlyWhenAllDark(ps: seq<Particle>)
    requires Survivors(ps) == []
    ensures forall i :: 0 <= i < |ps| ==> Fade(ps[i]).alpha <= 0.0
  {
  }

  /** When every particle fades by at least `d` and is at most `a` bright, every survivor fades by at least `d` and is at most `a - d` bright. */
  lemma {:induction false} SurvivorsFade(ps: seq<Particle>, d: real, a: real)
    requires forall i :: 0 <= i < |ps| ==> ps[i].decay >= d && ps[i].alpha <= a
    ensures forall i :: 0 <= i < |Survivors(ps)| ==>
              Survivors(ps)[i].decay >= d && Survivors(ps)[i].alpha <= a - d
  {
    if ps != [] {
      SurvivorsFade(ps[..|ps| - 1], d, a);
    }
  }

  /** Particles that each lose at least their whole opacity in one frame are all dropped. */
  lemma {:induction false} NoneSurvive(ps: seq<Particle>)
    requires forall i :: 0 <= i < |ps| ==> ps[i].alpha <= ps[i].decay
    ensures Survivors(ps) == []
  {
    if ps != [] {
      NoneSurvive(ps[..|ps| - 1]);
    }
  }

  /** `k` frames of an exploded firework. */
  function Frames(ps: seq<Particle>, k: nat): seq<Particle>
    decreases k
  {
    if k == 0 then ps else Frames(Survivors(ps), k - 1)
  }

  /** Particles at most `k` decays bright are all gone after `k` frames. */
  lemma {:induction false} BurnsOut(ps: seq<Particle>, d: real, k: nat)
    requires d > 0.0 && k >= 1
    requires forall i :: 0 <= i < |ps| ==> ps[i].decay >= d && ps[i].alpha <= (k as real) * d
    ensures Frames(ps, k) == []
    decreases k
  {
    if k == 1 {
      NoneSurvive(ps);
      assert Frames(ps, 1) == Frames(Survivors(ps), 0);
    } else {
      SurvivorsFade(ps, d, (k as real) * d);
      assert ((k - 1) as real) * d == (k as real) * d - d;
      BurnsOut(Survivors(ps), d, k - 1);
    }
  }

  /** A particle fresh from an explosion: full opacity and a decay of 0.015 + `draw` * 0.01. */
  function Spark(draw: real): (p: Particle)
    ensures 0.0 <= draw < 1.0 ==> p.alpha == 1.0 && 0.015 <= p.decay < 0.025
  {
    Particle(1.0, 0.015 + draw * 0.01)
  }

  /** The first `n` particles of an explosion whose i-th particle used the random number `draw(i)`. */
  function Batch(n: nat, draw: nat -> real): (r: seq<Particle>)
    ensures |r| == n
    ensures forall i: nat :: i < n ==> r[i] == Spark(draw(i))
  {
    if n == 0 then [] else Batch(n - 1, draw) + [Spark(draw(n - 1))]
  }

  /** Every particle of an explosion is fully opaque and fades by 0.015 to 0.025 a frame. */
  lemma BatchIsFresh(n: nat, draw: nat -> real)
    requires forall k: nat :: 0.0 <= draw(k) < 1.0
    ensures forall i :: 0 <= i < n ==>
              Batch(n, draw)[i].alpha == 1.0 && 0.015 <= Batch(n, draw)[i].decay < 0.025
  {
  }

  /** How many times `for (let i = 0; i < count; i++)` runs: the least natural number not below `count`. */
  function BatchSize(count: real): (n: nat)
    ensures count > 0.0 ==> (n - 1) as real < count <= n as real
    ensures count <= 0.0 ==> n == 0
  {
    if count <= 0.0 then 0 else -((-count).Floor)
  }

  /** An explosion, whose count is `50 + Math.random() * 50`, makes 50 to 100 particles. */
  lemma ExplosionSize(r: real)
    requires 0.0 <= r < 1.0
    ensures 50 <= BatchSize(50.0 + r * 50.0) <= 100
  {
  }

  /** Fresh particles (opacity 1, decay at least 0.015) are all gone after 67 frames. */
  lemma BurnsOutWithin67Frames(ps: seq<Particle>)
    requires forall i :: 0 <= i < |ps| ==> ps[i].decay >= 0.015 && ps[i].alpha <= 1.0
    ensures Frames(ps, 67) == []
  {
    BurnsOut(ps, 0.015, 67);
  }

  class Firework {
    var x: real
    var y: real
    var targetY: real
    var speed: real
    var exploded: bool
    var particles: seq<Particle>
    var trail: seq<Point>

    /**
     * The trail stays within its bound, a rocket has no particles before it
     * explodes, and every particle still held is visible, at most fully
     * opaque and fades by at least 0.015 a frame.
     */
    ghost predicate Valid()
      reads this
    {
      |trail| <= MaxTrailLength &&
      (!exploded ==> particles == []) &&
      forall i :: 0 <= i < |particles| ==>
        0.0 < particles[i].alpha <= 1.0 && particles[i].decay >= 0.015
    }

    /** `new Firework(x, y)`: a rocket at the bottom of a canvas `height` high, aiming for height `y`. */
    constructor (x0: real, y0: real, height: real, speedDraw: real)
      ensures Valid()
      ensures x == x0 && y == height && targetY == y0 && speed == 2.0 + speedDraw * 3.0
      ensures !exploded && particles == [] && trail == []
    {
      x, y, targetY := x0, height, y0;
      speed := 2.0 + speedDraw * 3.0;
      exploded := false;
      particles := [];
      trail := [];
    }

    /** `isDone`: the firework can be removed: it has exploded and none of its particles is visible any more. */
    predicate IsDone()
      reads this
      ensures IsDone() ==> exploded
      ensures Valid() ==>
                (IsDone() <==> exploded && forall i :: 0 <= i < |particles| ==> particles[i].alpha <= 0.0)
    {
      assert Valid() && |particles| > 0 ==> particles[0].alpha > 0.0;
      exploded && |particles| == 0
    }

    /** `update`: one animation frame of the firework. */
    method Update(countDraw: real, draw: nat -> real)
      requires Valid()
      requires forall k: nat :: 0.0 <= draw(k) < 1.0
      modifies this`y, this`exploded, this`particles, this`trail
      ensures Valid()
      ensures old(exploded) ==>
                exploded && y == old(y) && trail == old(trail) &&
                particles == Survivors(old(particles))
      ensures !old(exploded) ==>
                trail == Pushed(old(trail), Point(x, old(y))) &&
                y == old(y) - speed &&
                (exploded <==> y <= targetY) &&
                particles == (if exploded then Batch(BatchSize(50.0 + countDraw * 50.0), draw) else [])
    {
      if !exploded {
        trail := Pushed(trail, Point(x, y));
        y := y - speed;
        assert |trail| <= MaxTrailLength;
        if y <= targetY {
          BatchIsFresh(BatchSize(50.0 + countDraw * 50.0), draw);
          Explode(countDraw, draw);
          assert Valid();
        }
      } else {
        SurvivorsFade(particles, 0.015, 1.0);
        FadeParticles();
        assert Valid();
      }
    }

    /** `explode`: mark the firework exploded and add `50 + Math.random() * 50` particles, rounded up. */
    method Explode(countDraw: real, draw: nat -> real)
      modifies this`exploded, this`particles
      ensures exploded
      ensures particles == old(particles) + Batch(BatchSize(50.0 + countDraw * 50.0), draw)
    {
      exploded := true;
      var count := 50.0 + countDraw * 50.0;
      ghost var n := BatchSize(count);
      var i := 0;
      while (i as real) < count
        invariant 0 <= i <= n
        invariant exploded
        invariant particles == old(particles) + Batch(i, draw)
        decreases n - i
      {
        particles := particles + [Spark(draw(i))];
        i := i + 1;
      }
    }

    /** The exploded branch of `update`: fade every particle, then keep those still visible. */
    method FadeParticles()
      modifies this`particles
      ensures particles == Survivors(old(particles))
    {
      var kept := [];
      var i := 0;
      while i < |particles|
        invariant 0 <= i <= |particles|
        invariant kept == Survivors(particles[..i])
      {
        var q := Fade(particles[i]);
        if q.alpha > 0.0 {
          kept := kept + [q];
        }
        assert particles[..i + 1][..i] == particles[..i];
        i := i + 1;
      }
      assert particles[..i] == particles;
      particles := kept;
    }
  }
}
