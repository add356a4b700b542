/**
 * components/effects/ParticleField.tsx: `count` floating particles whose
 * parameters come from a deterministic pseudo-random value, the fractional
 * part of `sin(seed) * 10000`. `Math.sin` is a parameter.
 */
module ParticleField {
  const DefaultCount: int := 30

  /** `v - Math.floor(v)`. */
  function Frac(v: real): (f: real)
    ensures 0.0 <= f < 1.0
    ensures (v - f).Floor as real == v - f
  {
    v - v.Floor as real
  }

  /** `seededRandom`. */
  function SeededRandom(sin: real -> real, seed: int): (r: real)
    ensures 0.0 <= r < 1.0
  {
    Frac(sin(seed as real) * 10000.0)
  }

  datatype Particle = Particle(id: int, x: real, y: real, size: real, duration: real,
                               delay: real, opacity: real, movementX: real)

  /** Particle i: `next(k)` draws seed `i + 1 + k`. */
  function MakeParticle(sin: real -> real, i: nat): (p: Particle)
    ensures p.id == i
    ensures 0.0 <= p.x < 100.0 && 0.0 <= p.y < 100.0
    ensures 1.0 <= p.size < 4.0
    ensures 15.0 <= p.duration < 25.0
    ensures 0.0 <= p.delay < 5.0
    ensures 0.1 <= p.opacity < 0.5
    ensures -20.0 <= p.movementX < 20.0
  {
    var baseSeed := i + 1;
    Particle(
      i,
      SeededRandom(sin, baseSeed + 1) * 100.0,
      SeededRandom(sin, baseSeed + 2) * 100.0,
      SeededRandom(sin, baseSeed + 3) * 3.0 + 1.0,
      SeededRandom(sin, baseSeed + 4) * 10.0 + 15.0,
      SeededRandom(sin, baseSeed + 5) * 5.0,
      SeededRandom(sin, baseSeed + 6) * 0.4 + 0.1,
      SeededRandom(sin, baseSeed + 7) * 40.0 - 20.0)
  }

  /** `Array.from({ length: count }, ...)`; a negative count gives no particles. */
  function Particles(sin: real -> real, count: int): (ps: seq<Particle>)
    ensures |ps| == if count < 0 then 0 else count
    ensures forall i :: 0 <= i < |ps| ==> ps[i].id == i
  {
    var n: nat := if count < 0 then 0 else count;
    seq(n, i requires 0 <= i < n => MakeParticle(sin, i))
  }

  /**
   * Determinism: a particle depends only on its index, so a smaller field
   * is a prefix of a larger one and rebuilding with the same count gives
   * the same particles.
   */
  lemma ParticlesArePrefixes(sin: real -> real, m: nat, n: nat)
    requires m <= n
    ensures Particles(sin, m) == Particles(sin, n)[..m]
  {
    assert forall i :: 0 <= i < m ==> Particles(sin, m)[i] == MakeParticle(sin, i) == Particles(sin, n)[i];
  }

  /** Adjacent particles share six of their seven seeds, shifted by one draw. */
  lemma ShiftedSeeds(sin: real -> real, i: nat)
    ensures MakeParticle(sin, i + 1).x == MakeParticle(sin, i).y
    ensures MakeParticle(sin, i + 1).delay / 5.0 == (MakeParticle(sin, i).opacity - 0.1) / 0.4
  {
  }

  /** A `framer-motion` animate target. */
  datatype Animate =
    | NoAnimation
    | Keyframes(y: seq<real>, x: seq<real>, opacity: seq<real>, scale: seq<real>)

  /** The looping float of one particle; empty under reduced motion. */
  function ParticleAnimate(p: Particle, reduced: bool): (a: Animate)
    ensures reduced <==> a.NoAnimation?
    ensures a.Keyframes? ==>
              |a.y| == |a.x| == |a.opacity| == |a.scale| == 3 &&
              a.y[0] == a.y[2] == 0.0 && a.x[0] == a.x[2] == 0.0 &&
              a.opacity[0] == a.opacity[2] == p.opacity && a.scale[0] == a.scale[2] == 1.0
    ensures a.Keyframes? ==> a.x[1] == p.movementX && a.y[1] == -100.0
  {
    if reduced then NoAnimation
    else Keyframes([0.0, -100.0, 0.0], [0.0, p.movementX, 0.0],
                   [p.opacity, p.opacity * 0.3, p.opacity], [1.0, 1.5, 1.0])
  }

  /** At its faintest a particle keeps 30% of its opacity, so it never vanishes. */
  lemma FaintestStaysVisible(sin: real -> real, i: nat)
    ensures var p := MakeParticle(sin, i);
            ParticleAnimate(p, false).opacity[1] >= 0.03 && ParticleAnimate(p, false).opacity[1] < p.opacity
  {
  }
}
