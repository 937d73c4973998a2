/** The adaptive particle swarm (`PSOAlgorithm`, APSO-SL): personal and
    global bests that only improve, a swarm state chosen from the
    evolutionary factor, and a velocity rule per state with positions
    clamped to the gene range. Random draws are inputs; the evolutionary
    factor itself (a square root of a spread) is an input to `Step`. */
module Apso {
  import opened SimMath
  import opened Particle

  datatype SwarmState = Exploration | Exploitation | Balance

  const W: real := 0.729
  const C1: real := 1.49445
  const C2: real := 1.49445

  datatype Swarm = Swarm(
    particles: seq<Particle>, globalBestPosition: seq<real>, globalBestFitness: real,
    currentState: SwarmState, lastActiveState: SwarmState, useStandardPSO: bool,
    dim: nat, minVal: real, maxVal: real)

  /** Every vector has the swarm's dimension. */
  predicate WellFormed(s: Swarm)
  {
    && |s.globalBestPosition| == s.dim
    && forall i :: 0 <= i < |s.particles| ==> Shaped(s.particles[i], s.dim)
  }

  /** Every particle's position lies in the gene range. */
  predicate Bounded(s: Swarm)
  {
    forall i :: 0 <= i < |s.particles| ==> InBox(s.particles[i].position, s.minVal, s.maxVal)
  }

  /** The global best is at least every personal best. */
  predicate GlobalDominates(s: Swarm)
  {
    forall i :: 0 <= i < |s.particles| ==> s.particles[i].bestFitness <= s.globalBestFitness
  }

  /** `(NextDouble() * 2 - 1) * (max - min) * 0.1`: a tenth of the range
      either way. */
  function StartVelocity(v: real, min: real, max: real): real
  {
    (v * 2.0 - 1.0) * (max - min) * 0.1
  }

  /** The draws of one particle at construction: one for the position and
      one for the velocity per dimension. */
  predicate DrawsShaped(draws: seq<(seq<real>, seq<real>)>, dim: nat)
  {
    forall i :: 0 <= i < |draws| ==> |draws[i].0| == dim && |draws[i].1| == dim
  }

  predicate DrawsUnit(draws: seq<(seq<real>, seq<real>)>)
  {
    forall i :: 0 <= i < |draws| ==> UnitDraws(draws[i].0)
  }

  function NewParticleOf(d: (seq<real>, seq<real>), min: real, max: real): (p: Particle)
    requires |d.0| == |d.1|
    ensures Shaped(p, |d.0|) && p.bestPosition == p.position && p.bestFitness == FLOAT_MIN
    ensures UnitDraws(d.0) && min <= max ==> InBox(p.position, min, max)
  {
    NewParticle(d.0, seq(|d.1|, k requires 0 <= k < |d.1| => StartVelocity(d.1[k], min, max)), min, max)
  }

  /** The constructor: one particle per draw pair, the global best at
      `float.MinValue` over a zero vector, in the Exploration state. */
  function NewSwarm(dim: nat, min: real, max: real, draws: seq<(seq<real>, seq<real>)>): (s: Swarm)
    requires DrawsShaped(draws, dim)
    ensures |s.particles| == |draws| && s.dim == dim && s.minVal == min && s.maxVal == max
    ensures WellFormed(s) && GlobalDominates(s)
    ensures s.globalBestFitness == FLOAT_MIN && s.globalBestPosition == seq(dim, d => 0.0)
    ensures forall i :: 0 <= i < |s.particles| ==>
              s.particles[i].bestFitness == FLOAT_MIN && s.particles[i].bestPosition == s.particles[i].position
    ensures s.currentState == Exploration && s.lastActiveState == Exploration && !s.useStandardPSO
    ensures DrawsUnit(draws) && min <= max ==> Bounded(s)
  {
    var ps := seq(|draws|, i requires 0 <= i < |draws| => NewParticleOf(draws[i], min, max));
    Swarm(ps, seq(dim, d => 0.0), FLOAT_MIN, Exploration, Exploration, false, dim, min, max)
  }

  /** `ReportFitness`: the particle's best and the global best each take
      the fitness and the particle's position when it is strictly better. */
  function ReportFitness(s: Swarm, index: nat, fitness: real): (r: Swarm)
    requires WellFormed(s) && index < |s.particles|
    ensures WellFormed(r) && |r.particles| == |s.particles|
    ensures r == s.(particles := r.particles, globalBestPosition := r.globalBestPosition, globalBestFitness := r.globalBestFitness)
    ensures r.particles[index] == Improve(s.particles[index], fitness, s.dim)
    ensures forall i :: 0 <= i < |s.particles| && i != index ==> r.particles[i] == s.particles[i]
    ensures r.globalBestFitness == MaxReal(s.globalBestFitness, fitness)
    ensures fitness > s.globalBestFitness ==> r.globalBestPosition == s.particles[index].position
    ensures fitness <= s.globalBestFitness ==> r.globalBestPosition == s.globalBestPosition
    ensures GlobalDominates(s) ==> GlobalDominates(r)
    ensures Bounded(s) ==> Bounded(r)
  {
    var p := s.particles[index];
    var p1 := Improve(p, fitness, s.dim);
    var ps := s.particles[index := p1];
    if fitness > s.globalBestFitness then
      s.(particles := ps, globalBestFitness := fitness,
         globalBestPosition := CopyPrefix(p.position, s.globalBestPosition, s.dim))
    else s.(particles := ps)
  }

  /** With full-length copies, an improvement records the exact position. */
  lemma ReportRecordsPosition(s: Swarm, index: nat, fitness: real)
    requires WellFormed(s) && index < |s.particles|
    requires fitness > s.particles[index].bestFitness
    ensures ReportFitness(s, index, fitness).particles[index].bestPosition == s.particles[index].position
    ensures ReportFitness(s, index, fitness).particles[index].bestFitness == fitness
  {
    var p := s.particles[index];
    assert CopyPrefix(p.position, p.bestPosition, s.dim) == p.position;
  }

  /** The best of an initial value and a sequence of reported fitnesses. */
  function BestOf(init: real, reports: seq<(nat, real)>): (m: real)
    ensures m >= init
    ensures forall k :: 0 <= k < |reports| ==> m >= reports[k].1
    ensures m == init || exists k :: 0 <= k < |reports| && m == reports[k].1
    decreases |reports|
  {
    if |reports| == 0 then init
    else
      var m := BestOf(MaxReal(init, reports[0].1), reports[1..]);
      assert forall k :: 1 <= k < |reports| ==> reports[k] == reports[1..][k - 1];
      m
  }

  predicate ValidReports(s: Swarm, reports: seq<(nat, real)>)
  {
    forall k :: 0 <= k < |reports| ==> reports[k].0 < |s.particles|
  }

  /** A run of fitness reports, in order. */
  function ReportAll(s: Swarm, reports: seq<(nat, real)>): (r: Swarm)
    requires WellFormed(s) && ValidReports(s, reports)
    ensures WellFormed(r) && |r.particles| == |s.particles|
    decreases |reports|
  {
    if |reports| == 0 then s
    else
      var s1 := ReportFitness(s, reports[0].0, reports[0].1);
      ReportAll(s1, reports[1..])
  }

  /** After any run of reports the global best is exactly the best of its
      starting value and every reported fitness, and it still dominates
      every personal best. */
  lemma {:induction false} ReportAllBest(s: Swarm, reports: seq<(nat, real)>)
    requires WellFormed(s) && ValidReports(s, reports) && GlobalDominates(s)
    ensures ReportAll(s, reports).globalBestFitness == BestOf(s.globalBestFitness, reports)
    ensures GlobalDominates(ReportAll(s, reports))
    decreases |reports|
  {
    if |reports| > 0 {
      var s1 := ReportFitness(s, reports[0].0, reports[0].1);
      assert ValidReports(s1, reports[1..]);
      ReportAllBest(s1, reports[1..]);
    }
  }

  /** `UpdateState`: above 0.4 explore, below 0.3 exploit (both recorded
      as the last active state), in between balance and keep the last one. */
  function UpdateState(s: Swarm, fB: real): (r: Swarm)
    ensures r == s.(currentState := r.currentState, lastActiveState := r.lastActiveState)
    ensures fB > 0.4 ==> r.currentState == Exploration && r.lastActiveState == Exploration
    ensures fB < 0.3 ==> r.currentState == Exploitation && r.lastActiveState == Exploitation
    ensures 0.3 <= fB <= 0.4 ==> r.currentState == Balance && r.lastActiveState == s.lastActiveState
  {
    if fB > 0.4 then s.(currentState := Exploration, lastActiveState := Exploration)
    else if fB < 0.3 then s.(currentState := Exploitation, lastActiveState := Exploitation)
    else s.(currentState := Balance)
  }

  /** The rule a particle moves by: the last active state while balancing. */
  function Strategy(s: Swarm): (st: SwarmState)
    ensures s.currentState != Balance ==> st == s.currentState
    ensures s.currentState == Balance ==> st == s.lastActiveState
  {
    if s.currentState == Balance then s.lastActiveState else s.currentState
  }

  /** The last active state is never Balance, so neither is the rule. */
  lemma StrategyNeverBalance(s: Swarm, fB: real)
    requires s.lastActiveState != Balance
    ensures UpdateState(s, fB).lastActiveState != Balance
    ensures Strategy(UpdateState(s, fB)) != Balance
  {
  }

  /** The random numbers of one coordinate update. */
  datatype StepDraw = StepDraw(r1: real, r2: real, exemplar: nat)

  predicate StepDrawsFit(s: Swarm, draws: seq<seq<StepDraw>>)
  {
    && |draws| == |s.particles|
    && (forall i :: 0 <= i < |draws| ==> |draws[i]| == s.dim)
    && (forall i, d :: 0 <= i < |draws| && 0 <= d < |draws[i]| ==> draws[i][d].exemplar < |s.particles|)
  }

  /** The social pull of a coordinate: the global best under the classic
      rule (forced by `useStandardPSO` or in Exploration), otherwise the
      personal best of the drawn exemplar particle. */
  function Guide(s: Swarm, strategy: SwarmState, dr: StepDraw, d: nat): (g: real)
    requires WellFormed(s) && d < s.dim && dr.exemplar < |s.particles|
    ensures s.useStandardPSO || strategy == Exploration ==> g == s.globalBestPosition[d]
    ensures !s.useStandardPSO && strategy != Exploration ==> g == s.particles[dr.exemplar].bestPosition[d]
  {
    if s.useStandardPSO || strategy == Exploration then s.globalBestPosition[d]
    else s.particles[dr.exemplar].bestPosition[d]
  }

  /** One particle's velocity and clamped position update. */
  function MoveParticle(s: Swarm, i: nat, strategy: SwarmState, drs: seq<StepDraw>): (p: Particle)
    requires WellFormed(s) && i < |s.particles| && |drs| == s.dim
    requires forall d :: 0 <= d < |drs| ==> drs[d].exemplar < |s.particles|
    ensures Shaped(p, s.dim)
    ensures p.bestPosition == s.particles[i].bestPosition && p.bestFitness == s.particles[i].bestFitness
    ensures s.minVal <= s.maxVal ==> InBox(p.position, s.minVal, s.maxVal)
    ensures forall d :: 0 <= d < s.dim ==>
              var q := s.particles[i];
              && p.velocity[d] == W * q.velocity[d] + C1 * drs[d].r1 * (q.bestPosition[d] - q.position[d])
                                  + C2 * drs[d].r2 * (Guide(s, strategy, drs[d], d) - q.position[d])
              && p.position[d] == ClampReal(q.position[d] + p.velocity[d], s.minVal, s.maxVal)
  {
    var q := s.particles[i];
    var v := seq(s.dim, d requires 0 <= d < s.dim =>
                  W * q.velocity[d] + C1 * drs[d].r1 * (q.bestPosition[d] - q.position[d])
                  + C2 * drs[d].r2 * (Guide(s, strategy, drs[d], d) - q.position[d]));
    var x := seq(s.dim, d requires 0 <= d < s.dim => ClampReal(q.position[d] + v[d], s.minVal, s.maxVal));
    Particle(x, v, q.bestPosition, q.bestFitness)
  }

  /** `Step`: choose the swarm state from the factor, then move every
      particle by the chosen rule. Bests are untouched and positions stay
      in the gene range. */
  function Step(s: Swarm, fB: real, draws: seq<seq<StepDraw>>): (r: Swarm)
    requires WellFormed(s) && StepDrawsFit(s, draws)
    ensures WellFormed(r) && |r.particles| == |s.particles|
    ensures s.minVal <= s.maxVal ==> Bounded(r)
    ensures r.globalBestFitness == s.globalBestFitness && r.globalBestPosition == s.globalBestPosition
    ensures forall i :: 0 <= i < |s.particles| ==>
              r.particles[i].bestFitness == s.particles[i].bestFitness
              && r.particles[i].bestPosition == s.particles[i].bestPosition
    ensures r.currentState == UpdateState(s, fB).currentState && r.lastActiveState == UpdateState(s, fB).lastActiveState
    ensures GlobalDominates(s) ==> GlobalDominates(r)
  {
    var s1 := UpdateState(s, fB);
    var st := Strategy(s1);
    var ps := seq(|s.particles|, i requires 0 <= i < |s.particles| => MoveParticle(s1, i, st, draws[i]));
    s1.(particles := ps)
  }
}
