/** Tabular Q-learning as the two learners implement it: a states-by-actions
    table of values, greedy choice of the lowest action with the highest
    value, the one-entry Bellman update and the floor-clamped epsilon
    decay. Values are reals: single-precision rounding is not modelled. */
module QLearning {

  /** A Q-table: one row per state, one value per action. */
  type Table = seq<seq<real>>

  predicate Shaped(q: Table, states: nat, actions: nat)
  {
    |q| == states && forall s :: 0 <= s < |q| ==> |q[s]| == actions
  }

  /** A freshly allocated table: every value is zero. */
  function Zeros(states: nat, actions: nat): (q: Table)
    ensures Shaped(q, states, actions)
    ensures forall s, a :: 0 <= s < states && 0 <= a < actions ==> q[s][a] == 0.0
  {
    seq(states, s => seq(actions, a => 0.0))
  }

  /** The largest value of a non-empty row. */
  function MaxOf(row: seq<real>): (m: real)
    requires |row| > 0
    ensures forall j :: 0 <= j < |row| ==> row[j] <= m
    ensures exists j :: 0 <= j < |row| && row[j] == m
  {
    if |row| == 1 then row[0]
    else
      var m := MaxOf(row[..|row| - 1]);
      assert forall j :: 0 <= j < |row| - 1 ==> row[..|row| - 1][j] == row[j];
      if row[|row| - 1] > m then row[|row| - 1] else m
  }

  /** The greedy scan: start at action 0 and move only on a strictly
      larger value, so ties go to the lowest action. */
  method GreedyAction(row: seq<real>) returns (best: nat)
    requires |row| > 0
    ensures best < |row|
    ensures forall j :: 0 <= j < |row| ==> row[j] <= row[best]
    ensures forall j :: 0 <= j < best ==> row[j] < row[best]
  {
    best := 0;
    var maxVal := row[0];
    var a := 1;
    while a < |row|
      invariant 1 <= a <= |row| && best < a
      invariant maxVal == row[best]
      invariant forall j :: 0 <= j < a ==> row[j] <= maxVal
      invariant forall j :: 0 <= j < best ==> row[j] < maxVal
    {
      if row[a] > maxVal {
        maxVal := row[a];
        best := a;
      }
      a := a + 1;
    }
  }

  /** The greedy action is the first position of the row's maximum. */
  lemma GreedyIsFirstMax(row: seq<real>, best: nat)
    requires |row| > 0 && best < |row|
    requires forall j :: 0 <= j < |row| ==> row[j] <= row[best]
    requires forall j :: 0 <= j < best ==> row[j] < row[best]
    ensures row[best] == MaxOf(row)
    ensures forall j :: 0 <= j < |row| && row[j] == MaxOf(row) ==> best <= j
  {
  }

  /** The Bellman target: the reward alone on a terminal transition,
      otherwise the reward plus the discounted best value of the next state. */
  function Target(q: Table, reward: real, next: nat, done: bool, gamma: real): (t: real)
    requires next < |q| && |q[next]| > 0
    ensures done ==> t == reward
    ensures !done ==> t == reward + gamma * MaxOf(q[next])
  {
    reward + gamma * (if done then 0.0 else MaxOf(q[next]))
  }

  /** One learning step: `Q[s,a]` moves by `alpha` times the error towards
      the target. */
  function Learn(q: Table, s: nat, a: nat, reward: real, next: nat, done: bool, alpha: real, gamma: real): (r: Table)
    requires s < |q| && a < |q[s]| && next < |q| && |q[next]| > 0
    ensures |r| == |q| && forall i :: 0 <= i < |q| ==> |r[i]| == |q[i]|
    ensures r[s][a] - q[s][a] == alpha * (Target(q, reward, next, done, gamma) - q[s][a])
    ensures forall i, j :: 0 <= i < |q| && 0 <= j < |q[i]| && (i, j) != (s, a) ==> r[i][j] == q[i][j]
  {
    var cur := q[s][a];
    q[s := q[s][a := cur + alpha * (Target(q, reward, next, done, gamma) - cur)]]
  }

  /** With a rate in [0, 1] the new value lies between the old value and
      the target; a rate of 1 lands on the target. */
  lemma LearnBetween(q: Table, s: nat, a: nat, reward: real, next: nat, done: bool, alpha: real, gamma: real)
    requires s < |q| && a < |q[s]| && next < |q| && |q[next]| > 0
    requires 0.0 <= alpha <= 1.0
    ensures var t := Target(q, reward, next, done, gamma);
            var v := Learn(q, s, a, reward, next, done, alpha, gamma)[s][a];
            (q[s][a] <= t ==> q[s][a] <= v <= t) && (t <= q[s][a] ==> t <= v <= q[s][a])
    ensures alpha == 1.0 ==> Learn(q, s, a, reward, next, done, alpha, gamma)[s][a] == Target(q, reward, next, done, gamma)
  {
    var t := Target(q, reward, next, done, gamma);
    var d := t - q[s][a];
    var m := alpha * d;
    assert Learn(q, s, a, reward, next, done, alpha, gamma)[s][a] == q[s][a] + m;
    StepWithin(d, alpha, m);
  }

  /** A fraction in [0, 1] of an amount lies between 0 and the amount. */
  lemma StepWithin(d: real, alpha: real, m: real)
    requires 0.0 <= alpha <= 1.0 && m == alpha * d
    ensures d >= 0.0 ==> 0.0 <= m <= d
    ensures d <= 0.0 ==> d <= m <= 0.0
  {
    if d >= 0.0 {
      assert d - m == (1.0 - alpha) * d;
    } else {
      assert m - d == (1.0 - alpha) * -d;
    }
  }

  /** An entry already equal to its target is a fixed point of learning. */
  lemma LearnFixedPoint(q: Table, s: nat, a: nat, reward: real, next: nat, done: bool, alpha: real, gamma: real)
    requires s < |q| && a < |q[s]| && next < |q| && |q[next]| > 0
    requires q[s][a] == Target(q, reward, next, done, gamma)
    ensures Learn(q, s, a, reward, next, done, alpha, gamma) == q
  {
    var r := Learn(q, s, a, reward, next, done, alpha, gamma);
    assert r[s] == q[s];
  }

  /** `DecayEpsilon`: `max(min, epsilon * decay)`. */
  function Decay(epsilon: real, min: real, decay: real): (e: real)
    ensures e >= min
    ensures e == min || e == epsilon * decay
    ensures epsilon * decay >= min ==> e == epsilon * decay
  {
    if min > epsilon * decay then min else epsilon * decay
  }

  /** With a decay factor in [0, 1] and epsilon at or above the floor,
      decaying never raises epsilon and never drops it below the floor. */
  lemma DecayMonotone(epsilon: real, min: real, decay: real)
    requires 0.0 <= decay <= 1.0 && 0.0 <= min <= epsilon
    ensures min <= Decay(epsilon, min, decay) <= epsilon
  {
    assert epsilon * decay <= epsilon;
  }

  /** Epsilon after `n` decays. */
  function DecayN(epsilon: real, min: real, decay: real, n: nat): (e: real)
    ensures n > 0 ==> e >= min
  {
    if n == 0 then epsilon else Decay(DecayN(epsilon, min, decay, n - 1), min, decay)
  }

  /** Repeated decays form a non-increasing sequence that stays at or above
      the floor. */
  lemma {:induction false} DecayNMonotone(epsilon: real, min: real, decay: real, n: nat)
    requires 0.0 <= decay <= 1.0 && 0.0 <= min <= epsilon
    ensures min <= DecayN(epsilon, min, decay, n + 1) <= DecayN(epsilon, min, decay, n) <= epsilon
  {
    if n == 0 {
      DecayMonotone(epsilon, min, decay);
    } else {
      DecayNMonotone(epsilon, min, decay, n - 1);
      DecayMonotone(DecayN(epsilon, min, decay, n), min, decay);
    }
  }

  /** Epsilon-greedy choice with the random draw and the random action
      passed in: explore when the draw is below epsilon. */
  method ChooseAction(q: Table, state: nat, epsilon: real, draw: real, randomAction: nat) returns (a: nat)
    requires state < |q| && |q[state]| > 0 && randomAction < |q[state]|
    ensures a < |q[state]|
    ensures draw < epsilon ==> a == randomAction
    ensures draw >= epsilon ==> q[state][a] == MaxOf(q[state]) && forall j :: 0 <= j < a ==> q[state][j] < q[state][a]
  {
    if draw < epsilon {
      a := randomAction;
    } else {
      a := GreedyAction(q[state]);
      GreedyIsFirstMax(q[state], a);
    }
  }

  // ---------------------------------------------------------------------
  // The simulation-side learner (`QLearningBrain`).

  datatype Brain = Brain(alpha: real, gamma: real, epsilon: real, epsilonMin: real, epsilonDecay: real, table: Table)

  /** A new brain: the default hyperparameters and an all-zero table. */
  function NewBrain(states: nat, actions: nat): (b: Brain)
    ensures b.alpha == 0.1 && b.gamma == 0.99 && b.epsilon == 1.0 && b.epsilonMin == 0.0 && b.epsilonDecay == 0.9995
    ensures b.table == Zeros(states, actions)
  {
    Brain(0.1, 0.99, 1.0, 0.0, 0.9995, Zeros(states, actions))
  }

  /** `QLearningBrain.Learn`: only the visited entry changes. */
  function BrainLearn(b: Brain, s: nat, a: nat, reward: real, next: nat, done: bool): (r: Brain)
    requires s < |b.table| && a < |b.table[s]| && next < |b.table| && |b.table[next]| > 0
    ensures r == b.(table := Learn(b.table, s, a, reward, next, done, b.alpha, b.gamma))
  {
    b.(table := Learn(b.table, s, a, reward, next, done, b.alpha, b.gamma))
  }

  function BrainDecay(b: Brain): (r: Brain)
    ensures r.epsilon >= b.epsilonMin
    ensures r == b.(epsilon := Decay(b.epsilon, b.epsilonMin, b.epsilonDecay))
  {
    b.(epsilon := Decay(b.epsilon, b.epsilonMin, b.epsilonDecay))
  }

  // ---------------------------------------------------------------------
  // The scene-side learner (`QLearningAgent`): a fixed 64 x 5 table.

  const NUM_STATES: nat := 64
  const NUM_ACTIONS: nat := 5

  datatype Agent = Agent(learningRate: real, discountFactor: real, epsilon: real, epsilonMin: real,
                         epsilonDecay: real, table: Table, totalTrainingSteps: int, episodeCount: int)

  /** The agent after `Awake`: default hyperparameters and a zeroed 64 x 5 table. */
  function NewAgent(): (g: Agent)
    ensures Shaped(g.table, NUM_STATES, NUM_ACTIONS)
    ensures forall s, a :: 0 <= s < NUM_STATES && 0 <= a < NUM_ACTIONS ==> g.table[s][a] == 0.0
    ensures g.learningRate == 0.1 && g.discountFactor == 0.9
    ensures g.epsilon == 1.0 && g.epsilonMin == 0.01 && g.epsilonDecay == 0.995
    ensures g.totalTrainingSteps == 0 && g.episodeCount == 0
  {
    Agent(0.1, 0.9, 1.0, 0.01, 0.995, Zeros(NUM_STATES, NUM_ACTIONS), 0, 0)
  }

  /** `UpdateQValue`: one Bellman step on the visited entry and one more
      training step counted. */
  function UpdateQValue(g: Agent, s: nat, a: nat, reward: real, next: nat, terminal: bool): (r: Agent)
    requires Shaped(g.table, NUM_STATES, NUM_ACTIONS)
    requires s < NUM_STATES && a < NUM_ACTIONS && next < NUM_STATES
    ensures Shaped(r.table, NUM_STATES, NUM_ACTIONS)
    ensures r.totalTrainingSteps == g.totalTrainingSteps + 1 && r.episodeCount == g.episodeCount
    ensures r.epsilon == g.epsilon
    ensures r.table[s][a] == g.table[s][a] + g.learningRate * (Target(g.table, reward, next, terminal, g.discountFactor) - g.table[s][a])
    ensures forall i, j :: 0 <= i < NUM_STATES && 0 <= j < NUM_ACTIONS && (i, j) != (s, a) ==> r.table[i][j] == g.table[i][j]
  {
    g.(table := Learn(g.table, s, a, reward, next, terminal, g.learningRate, g.discountFactor),
       totalTrainingSteps := g.totalTrainingSteps + 1)
  }

  /** `DecayEpsilon` at the end of an episode: one more episode counted. */
  function AgentDecay(g: Agent): (r: Agent)
    ensures r.epsilon >= g.epsilonMin
    ensures r.episodeCount == g.episodeCount + 1
    ensures r.table == g.table && r.totalTrainingSteps == g.totalTrainingSteps
  {
    g.(epsilon := Decay(g.epsilon, g.epsilonMin, g.epsilonDecay), episodeCount := g.episodeCount + 1)
  }

  /** `GetBestAction` on a fresh agent is action 0 in every state. */
  lemma FreshAgentPicksFirst(s: nat, best: nat)
    requires s < NUM_STATES && best < NUM_ACTIONS
    requires forall j :: 0 <= j < best ==> NewAgent().table[s][j] < NewAgent().table[s][best]
    ensures best == 0
  {
    var t := NewAgent().table;
    assert t[s][0] == 0.0 && t[s][best] == 0.0;
  }
}
