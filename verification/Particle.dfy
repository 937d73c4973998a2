/** The particle record and the best-so-far bookkeeping shared by the two
    particle-swarm optimisers. Positions are gene vectors; single-precision
    arithmetic is modelled over the reals. */
module Particle {
  import opened SimMath

  /** `float.MinValue`, the best fitness before any report. */
  const FLOAT_MIN: real := -340282346638528859811704183484516925440.0

  datatype Particle = Particle(position: seq<real>, velocity: seq<real>, bestPosition: seq<real>, bestFitness: real)

  predicate Shaped(p: Particle, dim: nat)
  {
    |p.position| == dim && |p.velocity| == dim && |p.bestPosition| == dim
  }

  /** Every coordinate lies in [lo, hi]. */
  predicate InBox(xs: seq<real>, lo: real, hi: real)
  {
    forall d :: 0 <= d < |xs| ==> lo <= xs[d] <= hi
  }

  /** Draws of `NextDouble`, each in [0, 1). */
  predicate UnitDraws(us: seq<real>)
  {
    forall i :: 0 <= i < |us| ==> 0.0 <= us[i] < 1.0
  }

  lemma MulNonNeg(a: real, b: real)
    requires a >= 0.0 && b >= 0.0
    ensures a * b >= 0.0
  {
  }

  lemma SpreadBetween(u: real, lo: real, hi: real)
    requires 0.0 <= u < 1.0 && lo <= hi
    ensures lo <= u * (hi - lo) + lo <= hi
  {
    MulNonNeg(u, hi - lo);
    MulNonNeg(1.0 - u, hi - lo);
    assert (1.0 - u) * (hi - lo) == (hi - lo) - u * (hi - lo);
  }

  /** `NextDouble() * (max - min) + min`: a draw spread over [min, max]. */
  function Spread(u: real, min: real, max: real): (x: real)
    ensures 0.0 <= u < 1.0 && min <= max ==> min <= x <= max
  {
    if 0.0 <= u < 1.0 && min <= max then
      SpreadBetween(u, min, max);
      u * (max - min) + min
    else u * (max - min) + min
  }

  /** A new particle: position drawn over [min, max], the given starting
      velocities, the best position a copy of the position and the best
      fitness `float.MinValue`. */
  function NewParticle(positionDraws: seq<real>, velocity: seq<real>, min: real, max: real): (p: Particle)
    requires |velocity| == |positionDraws|
    ensures Shaped(p, |positionDraws|)
    ensures p.bestPosition == p.position && p.velocity == velocity && p.bestFitness == FLOAT_MIN
    ensures UnitDraws(positionDraws) && min <= max ==> InBox(p.position, min, max)
  {
    var pos := seq(|positionDraws|, i requires 0 <= i < |positionDraws| => Spread(positionDraws[i], min, max));
    Particle(pos, velocity, pos, FLOAT_MIN)
  }

  /** `Array.Copy(src, dst, len)`: the first `len` entries of `dst` taken
      from `src`, the rest kept. */
  function CopyPrefix(src: seq<real>, dst: seq<real>, len: nat): (r: seq<real>)
    requires len <= |src| && len <= |dst|
    ensures |r| == |dst|
    ensures forall d :: 0 <= d < len ==> r[d] == src[d]
    ensures forall d :: len <= d < |dst| ==> r[d] == dst[d]
  {
    src[..len] + dst[len..]
  }

  /** The personal-best update of a fitness report: a strictly better
      fitness is recorded and `copyLen` coordinates of the position copied
      into the best position. */
  function Improve(p: Particle, fitness: real, copyLen: nat): (r: Particle)
    requires copyLen <= |p.position| && copyLen <= |p.bestPosition|
    ensures r.position == p.position && r.velocity == p.velocity
    ensures r.bestFitness >= p.bestFitness && r.bestFitness >= fitness
    ensures r.bestFitness == (if fitness > p.bestFitness then fitness else p.bestFitness)
    ensures fitness <= p.bestFitness ==> r == p
    ensures fitness > p.bestFitness ==> r.bestPosition == CopyPrefix(p.position, p.bestPosition, copyLen)
  {
    if fitness > p.bestFitness then
      p.(bestFitness := fitness, bestPosition := CopyPrefix(p.position, p.bestPosition, copyLen))
    else p
  }

  /** The bound every clamped position keeps: `Math.Max(min, Math.Min(max, v))`. */
  function MaxMinClamp(v: real, min: real, max: real): (x: real)
    ensures min <= max ==> min <= x <= max
    ensures min <= v <= max ==> x == v
    ensures max < min ==> x == min
  {
    MaxReal(min, MinReal(max, v))
  }

  /** The two clamps agree whenever the range is not empty. */
  lemma ClampsAgree(v: real, min: real, max: real)
    requires min <= max
    ensures MaxMinClamp(v, min, max) == ClampReal(v, min, max)
  {
  }
}
