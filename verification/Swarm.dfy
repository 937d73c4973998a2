/** The classic particle swarm (`ParticleSwarmOptimizer`): fixed inertia
    and pulls, velocities drawn in [-1, 1), positions clamped by
    `Math.Max(min, Math.Min(max, v))`. Its fitness update copies zero
    coordinates, so best positions never move; `UpdateFitnessFixed` is the
    full-length copy it evidently intends. Random draws are inputs. */
module Swarm {
  import opened SimMath
  import opened Particle

  const W: real := 0.7
  const C1: real := 1.4
  const C2: real := 1.4

  datatype Optimizer = Optimizer(particles: seq<Particle>, globalBestPosition: seq<real>, globalBestFitness: real,
                                 dim: nat, minVal: real, maxVal: real)

  predicate WellFormed(o: Optimizer)
  {
    && |o.globalBestPosition| == o.dim
    && forall i :: 0 <= i < |o.particles| ==> Shaped(o.particles[i], o.dim)
  }

  predicate Bounded(o: Optimizer)
  {
    forall i :: 0 <= i < |o.particles| ==> InBox(o.particles[i].position, o.minVal, o.maxVal)
  }

  /** `NextDouble() * 2 - 1`. */
  function StartVelocity(v: real): (x: real)
    ensures 0.0 <= v < 1.0 ==> -1.0 <= x < 1.0
  {
    v * 2.0 - 1.0
  }

  predicate DrawsShaped(draws: seq<(seq<real>, seq<real>)>, dim: nat)
  {
    forall i :: 0 <= i < |draws| ==> |draws[i].0| == dim && |draws[i].1| == dim
  }

  /** Every draw, for positions and velocities, lies in [0, 1). */
  predicate DrawsUnit(draws: seq<(seq<real>, seq<real>)>)
  {
    forall i :: 0 <= i < |draws| ==> UnitDraws(draws[i].0) && UnitDraws(draws[i].1)
  }

  function NewParticleOf(d: (seq<real>, seq<real>), min: real, max: real): (p: Particle)
    requires |d.0| == |d.1|
    ensures Shaped(p, |d.0|) && p.bestPosition == p.position && p.bestFitness == FLOAT_MIN
    ensures UnitDraws(d.0) && min <= max ==> InBox(p.position, min, max)
    ensures UnitDraws(d.1) ==> InBox(p.velocity, -1.0, 1.0)
  {
    NewParticle(d.0, seq(|d.1|, k requires 0 <= k < |d.1| => StartVelocity(d.1[k])), min, max)
  }

  /** The constructor: positions in [min, max], velocities in [-1, 1), the
      global best at `float.MinValue` over a zero vector. */
  function NewOptimizer(dim: nat, min: real, max: real, draws: seq<(seq<real>, seq<real>)>): (o: Optimizer)
    requires DrawsShaped(draws, dim)
    ensures |o.particles| == |draws| && o.dim == dim && o.minVal == min && o.maxVal == max
    ensures WellFormed(o)
    ensures o.globalBestFitness == FLOAT_MIN && o.globalBestPosition == seq(dim, d => 0.0)
    ensures forall i :: 0 <= i < |o.particles| ==>
              o.particles[i].bestFitness == FLOAT_MIN && o.particles[i].bestPosition == o.particles[i].position
    ensures DrawsUnit(draws) && min <= max ==> Bounded(o)
    ensures DrawsUnit(draws) ==> forall i :: 0 <= i < |o.particles| ==> InBox(o.particles[i].velocity, -1.0, 1.0)
  {
    var ps := seq(|draws|, i requires 0 <= i < |draws| => NewParticleOf(draws[i], min, max));
    Optimizer(ps, seq(dim, d => 0.0), FLOAT_MIN, dim, min, max)
  }

  /** The fitness update with a copy length: personal and global best
      fitnesses take a strictly better fitness, and `copyLen` coordinates
      of the position are copied into the matching best position. */
  function Report(o: Optimizer, index: nat, fitness: real, copyLen: nat): (r: Optimizer)
    requires WellFormed(o) && index < |o.particles| && copyLen <= o.dim
    ensures WellFormed(r) && |r.particles| == |o.particles|
    ensures r.dim == o.dim && r.minVal == o.minVal && r.maxVal == o.maxVal
    ensures r.particles[index] == Improve(o.particles[index], fitness, copyLen)
    ensures forall i :: 0 <= i < |o.particles| && i != index ==> r.particles[i] == o.particles[i]
    ensures r.globalBestFitness == MaxReal(o.globalBestFitness, fitness)
    ensures r.globalBestFitness >= o.globalBestFitness && r.globalBestFitness >= fitness
    ensures fitness > o.globalBestFitness ==>
              r.globalBestPosition == CopyPrefix(o.particles[index].position, o.globalBestPosition, copyLen)
    ensures fitness <= o.globalBestFitness ==> r.globalBestPosition == o.globalBestPosition
    ensures Bounded(o) ==> Bounded(r)
  {
    var p := o.particles[index];
    var ps := o.particles[index := Improve(p, fitness, copyLen)];
    if fitness > o.globalBestFitness then
      o.(particles := ps, globalBestFitness := fitness,
         globalBestPosition := CopyPrefix(p.position, o.globalBestPosition, copyLen))
    else o.(particles := ps)
  }

  /** `UpdateFitness` as written: `Array.Copy(..., 0)` copies nothing. */
  function UpdateFitness(o: Optimizer, index: nat, fitness: real): (r: Optimizer)
    requires WellFormed(o) && index < |o.particles|
    ensures WellFormed(r) && |r.particles| == |o.particles|
    ensures r.globalBestFitness >= o.globalBestFitness && r.globalBestFitness >= fitness
    ensures r.particles[index].bestFitness >= o.particles[index].bestFitness
  {
    Report(o, index, fitness, 0)
  }

  /** The as-written update improves fitnesses but moves no best position:
      the global best position is the zero vector forever, whatever the
      reports. */
  lemma UpdateFitnessFreezesPositions(o: Optimizer, index: nat, fitness: real)
    requires WellFormed(o) && index < |o.particles|
    ensures UpdateFitness(o, index, fitness).globalBestPosition == o.globalBestPosition
    ensures forall i :: 0 <= i < |o.particles| ==>
              UpdateFitness(o, index, fitness).particles[i].bestPosition == o.particles[i].bestPosition
  {
    var p := o.particles[index];
    assert CopyPrefix(p.position, p.bestPosition, 0) == p.bestPosition;
    assert CopyPrefix(p.position, o.globalBestPosition, 0) == o.globalBestPosition;
  }

  /** A concrete case: a particle at 5 reporting fitness 10 over a fresh
      one-particle optimizer leaves the global best position at 0. */
  lemma FrozenExample()
    ensures var o := Optimizer([Particle([5.0], [0.0], [5.0], FLOAT_MIN)], [0.0], FLOAT_MIN, 1, 0.0, 40.0);
            var r := UpdateFitness(o, 0, 10.0);
            r.globalBestFitness == 10.0 && r.globalBestPosition == [0.0] && r.globalBestPosition != o.particles[0].position
  {
    var o := Optimizer([Particle([5.0], [0.0], [5.0], FLOAT_MIN)], [0.0], FLOAT_MIN, 1, 0.0, 40.0);
    UpdateFitnessFreezesPositions(o, 0, 10.0);
  }

  /** The evident intent: copy all `dim` coordinates. */
  function UpdateFitnessFixed(o: Optimizer, index: nat, fitness: real): (r: Optimizer)
    requires WellFormed(o) && index < |o.particles|
    ensures WellFormed(r) && |r.particles| == |o.particles|
    ensures r.globalBestFitness >= o.globalBestFitness && r.globalBestFitness >= fitness
    ensures fitness > o.particles[index].bestFitness ==>
              r.particles[index].bestPosition == o.particles[index].position && r.particles[index].bestFitness == fitness
    ensures fitness > o.globalBestFitness ==> r.globalBestPosition == o.particles[index].position
    ensures fitness <= o.globalBestFitness ==> r.globalBestPosition == o.globalBestPosition
  {
    var r := Report(o, index, fitness, o.dim);
    assert CopyPrefix(o.particles[index].position, o.particles[index].bestPosition, o.dim) == o.particles[index].position;
    assert CopyPrefix(o.particles[index].position, o.globalBestPosition, o.dim) == o.particles[index].position;
    r
  }

  /** With full copies the global best position is always the position a
      particle held when it reported the global best fitness. */
  lemma FixedTracksBest(o: Optimizer, index: nat, fitness: real)
    requires WellFormed(o) && index < |o.particles|
    requires fitness > o.globalBestFitness
    ensures var r := UpdateFitnessFixed(o, index, fitness);
            r.globalBestFitness == fitness && r.globalBestPosition == r.particles[index].position
  {
  }

  /** The random numbers of one coordinate update. */
  datatype StepDraw = StepDraw(r1: real, r2: real)

  predicate StepDrawsFit(o: Optimizer, draws: seq<seq<StepDraw>>)
  {
    |draws| == |o.particles| && forall i :: 0 <= i < |draws| ==> |draws[i]| == o.dim
  }

  /** One particle's classic velocity update and clamped move. */
  function MoveParticle(o: Optimizer, i: nat, drs: seq<StepDraw>): (p: Particle)
    requires WellFormed(o) && i < |o.particles| && |drs| == o.dim
    ensures Shaped(p, o.dim)
    ensures p.bestPosition == o.particles[i].bestPosition && p.bestFitness == o.particles[i].bestFitness
    ensures o.minVal <= o.maxVal ==> InBox(p.position, o.minVal, o.maxVal)
    ensures forall d :: 0 <= d < o.dim ==>
              var q := o.particles[i];
              && p.velocity[d] == W * q.velocity[d] + C1 * drs[d].r1 * (q.bestPosition[d] - q.position[d])
                                  + C2 * drs[d].r2 * (o.globalBestPosition[d] - q.position[d])
              && p.position[d] == MaxMinClamp(q.position[d] + p.velocity[d], o.minVal, o.maxVal)
  {
    var q := o.particles[i];
    var v := seq(o.dim, d requires 0 <= d < o.dim =>
                  W * q.velocity[d] + C1 * drs[d].r1 * (q.bestPosition[d] - q.position[d])
                  + C2 * drs[d].r2 * (o.globalBestPosition[d] - q.position[d]));
    var x := seq(o.dim, d requires 0 <= d < o.dim => MaxMinClamp(q.position[d] + v[d], o.minVal, o.maxVal));
    Particle(x, v, q.bestPosition, q.bestFitness)
  }

  /** `Step`: every particle moves; bests are untouched and positions end
      in [min, max]. */
  function Step(o: Optimizer, draws: seq<seq<StepDraw>>): (r: Optimizer)
    requires WellFormed(o) && StepDrawsFit(o, draws)
    ensures WellFormed(r) && |r.particles| == |o.particles|
    ensures o.minVal <= o.maxVal ==> Bounded(r)
    ensures r.globalBestFitness == o.globalBestFitness && r.globalBestPosition == o.globalBestPosition
    ensures forall i :: 0 <= i < |o.particles| ==>
              r.particles[i].bestFitness == o.particles[i].bestFitness
              && r.particles[i].bestPosition == o.particles[i].bestPosition
  {
    var ps := seq(|o.particles|, i requires 0 <= i < |o.particles| => MoveParticle(o, i, draws[i]));
    o.(particles := ps)
  }
}
