/** The experiment orchestrator (`ExperimentManager`): episodes of the
    tabular environment played under the economy-rush scenario, each capped
    at a number of steps, and a sliding window of the last 100 outcomes
    from which the win rate is taken. The learning agent is outside the
    model: its action choices are inputs, and the transition it is trained
    on is an output. */
module Experiment {
  import opened Wrappers
  import opened World
  import Scenarios
  import SimRL

  const HISTORY_SIZE: nat := 100

  /** The environment step length of `ProcessStep`. */
  const STEP_DT: real := 0.1

  // ---------------------------------------------------------------------
  // The win history.

  /** Every entry of the window is a 0 (loss) or a 1 (win). */
  predicate Outcomes(h: seq<int>)
  {
    forall i :: 0 <= i < |h| ==> h[i] == 0 || h[i] == 1
  }

  function Bit(won: bool): int
  {
    if won then 1 else 0
  }

  /** One `EndEpisode` update of the window: drop the oldest entry when the
      window is full, then append the outcome. The window never grows past
      100, and it holds the newest entries of the old one followed by the
      outcome. */
  function Record(h: seq<int>, won: bool): (r: seq<int>)
    ensures |h| <= HISTORY_SIZE ==> |r| <= HISTORY_SIZE
    ensures |h| >= HISTORY_SIZE ==> r == h[1..] + [Bit(won)]
    ensures |h| < HISTORY_SIZE ==> r == h + [Bit(won)]
    ensures Outcomes(h) ==> Outcomes(r)
  {
    var kept := if |h| >= HISTORY_SIZE then h[1..] else h;
    kept + [Bit(won)]
  }

  /** The outcomes of a series of episodes recorded in turn. */
  function RecordAll(h: seq<int>, wins: seq<bool>): seq<int>
    decreases |wins|
  {
    if |wins| == 0 then h else RecordAll(Record(h, wins[0]), wins[1..])
  }

  function Bits(wins: seq<bool>): (r: seq<int>)
    ensures |r| == |wins|
    ensures forall i :: 0 <= i < |wins| ==> r[i] == Bit(wins[i])
  {
    seq(|wins|, i requires 0 <= i < |wins| => Bit(wins[i]))
  }

  /** However many episodes are recorded, a window that starts within its
      size stays within it. */
  lemma {:induction false} WindowBounded(h: seq<int>, wins: seq<bool>)
    requires |h| <= HISTORY_SIZE
    ensures |RecordAll(h, wins)| <= HISTORY_SIZE
    decreases |wins|
  {
    if |wins| > 0 {
      WindowBounded(Record(h, wins[0]), wins[1..]);
    }
  }

  lemma DropAppend(a: seq<int>, x: seq<int>, d: nat)
    requires d <= |a|
    ensures (a + x)[d..] == a[d..] + x
  {
  }

  lemma DropDrop(a: seq<int>, i: nat, j: nat)
    requires i + j <= |a|
    ensures a[i..][j..] == a[i + j..]
  {
  }

  lemma BitsCons(wins: seq<bool>)
    requires |wins| > 0
    ensures Bits(wins) == [Bit(wins[0])] + Bits(wins[1..])
  {
  }

  /** One recording followed by the remaining outcomes is the whole
      series with the dropped entry cut off. */
  lemma RecordShifts(h: seq<int>, wins: seq<bool>)
    requires |h| <= HISTORY_SIZE && |wins| > 0
    ensures Record(h, wins[0]) + Bits(wins[1..]) == (h + Bits(wins))[if |h| >= HISTORY_SIZE then 1 else 0..]
  {
    var b := Bits(wins);
    BitsCons(wins);
    if |h| >= HISTORY_SIZE {
      calc {
        Record(h, wins[0]) + Bits(wins[1..]);
        (h[1..] + [Bit(wins[0])]) + Bits(wins[1..]);
        h[1..] + ([Bit(wins[0])] + Bits(wins[1..]));
        h[1..] + b;
        { DropAppend(h, b, 1); }
        (h + b)[1..];
      }
    } else {
      calc {
        Record(h, wins[0]) + Bits(wins[1..]);
        (h + [Bit(wins[0])]) + Bits(wins[1..]);
        h + ([Bit(wins[0])] + Bits(wins[1..]));
        h + b;
        (h + b)[0..];
      }
    }
  }

  /** Starting from a window within its size, the window holds exactly the
      last 100 of its old entries and the new outcomes (all of them while
      there are fewer). */
  lemma {:induction false} WindowIsLatest(h: seq<int>, wins: seq<bool>)
    requires |h| <= HISTORY_SIZE
    ensures RecordAll(h, wins) == (h + Bits(wins))[Tail(|h| + |wins|)..]
    decreases |wins|
  {
    if |wins| == 0 {
      assert h + Bits(wins) == h;
    } else {
      var h1 := Record(h, wins[0]);
      var rest := wins[1..];
      WindowIsLatest(h1, rest);
      var d := if |h| >= HISTORY_SIZE then 1 else 0;
      var t1 := Tail(|h1| + |rest|);
      RecordShifts(h, wins);
      assert Tail(|h| + |wins|) == d + t1;
      DropDrop(h + Bits(wins), d, t1);
    }
  }

  /** The first index of the last 100 of `n` entries. */
  function Tail(n: nat): nat
  {
    if n > HISTORY_SIZE then n - HISTORY_SIZE else 0
  }

  function Sum(h: seq<int>): int
  {
    if |h| == 0 then 0 else Sum(h[..|h| - 1]) + h[|h| - 1]
  }

  /** A window of outcomes sums to at least 0 and at most its length. */
  lemma {:induction false} SumOfOutcomes(h: seq<int>)
    requires Outcomes(h)
    ensures 0 <= Sum(h) <= |h|
  {
    if |h| > 0 {
      assert Outcomes(h[..|h| - 1]);
      SumOfOutcomes(h[..|h| - 1]);
    }
  }

  /** `WinRate`: the mean of the window, a fraction between 0 and 1; 1
      exactly when every episode in the window was won. */
  function WinRate(h: seq<int>): (rate: real)
    requires |h| > 0 && Outcomes(h)
    ensures 0.0 <= rate <= 1.0
    ensures rate == 1.0 <==> Sum(h) == |h|
    ensures rate == 0.0 <==> Sum(h) == 0
  {
    SumOfOutcomes(h);
    Sum(h) as real / |h| as real
  }

  // ---------------------------------------------------------------------
  // The episode loop.

  /** The manager's state: the counters it publishes, the window, the
      running episode's reward and step count, the step cap, the resource
      settings handed to the scenario, and the environment's world. */
  datatype Manager = Manager(
    currentEpisode: int, lastEpisodeReward: real, winRate: real, lastEpisodeSteps: int,
    history: seq<int>, episodeReward: real, episodeSteps: int,
    maxSteps: int, settings: Scenarios.Settings, world: World)

  /** What the agent is trained on after a step. */
  datatype Transition = Transition(state: int, action: int, reward: real, next: int, done: bool)

  /** The inputs of one step: the agent's action and the random draws of
      the world's tick. */
  datatype StepInput = StepInput(action: int, draws: seq<real>)

  /** `StartNewEpisode`: the scenario, with this episode's random draws,
      is loaded into the world, and the episode's reward and steps are 0. */
  function StartNewEpisode(m: Manager, draws: seq<Scenarios.Draw>): (r: Manager)
    requires m.world.mapData.Valid()
    ensures r.world.mapData.Valid()
    ensures r.world == Scenarios.LoadScenario(Scenarios.EconomyRush(Some(m.settings), draws), m.world).1
    ensures r.episodeReward == 0.0 && r.episodeSteps == 0
    ensures r == m.(world := r.world, episodeReward := 0.0, episodeSteps := 0)
    ensures Scenarios.EconomyRushOpening(r.world)
  {
    Scenarios.EconomyRushStart(Scenarios.EconomyRush(Some(m.settings), draws), m.world);
    m.(world := Scenarios.LoadScenario(Scenarios.EconomyRush(Some(m.settings), draws), m.world).1,
       episodeReward := 0.0, episodeSteps := 0)
  }

  /** `ProcessStep`: the environment steps on the agent's action; the
      reward is the environment's plus the scenario's, the latter priced at
      the step count before this step; the episode is done when the
      environment is terminal, the scenario is won, or the cap is reached.
      The states handed to the agent are the environment's `GetState` as
      written, which can name rows 64 and 65 of a 64-row table. */
  function ProcessStep(m: Manager, input: StepInput): (r: (Manager, Transition))
    requires m.world.mapData.Valid()
    ensures r.0.world.mapData.Valid()
    ensures r.0 == m.(world := r.0.world, episodeReward := r.0.episodeReward, episodeSteps := r.0.episodeSteps)
    ensures var (envReward, w) := SimRL.Step(m.world, input.action, STEP_DT, input.draws);
            && r.0.world == w
            && r.1.reward == envReward + Scenarios.CalculateReward(w, 1, Some(Scenarios.Steps(m.maxSteps, m.episodeSteps)))
            && r.1.reward >= envReward
            && (GetPlayer(w, 1).Some? && Scenarios.CheckWinCondition(w, 1) ==> r.1.reward >= envReward + 950.0)
    ensures r.0.episodeSteps == m.episodeSteps + 1
    ensures r.0.episodeReward == m.episodeReward + r.1.reward
    ensures r.1.state == SimRL.GetStateAsWritten(m.world) && r.1.action == input.action && r.1.next == SimRL.GetStateAsWritten(r.0.world)
    ensures r.1.done <==> SimRL.IsTerminal(r.0.world) || Scenarios.CheckWinCondition(r.0.world, 1) || r.0.episodeSteps >= m.maxSteps
  {
    var state := SimRL.GetStateAsWritten(m.world);
    var (envReward, w) := SimRL.Step(m.world, input.action, STEP_DT, input.draws);
    var scenarioReward := Scenarios.CalculateReward(w, 1, Some(Scenarios.Steps(m.maxSteps, m.episodeSteps)));
    var total := envReward + scenarioReward;
    var steps := m.episodeSteps + 1;
    var done := SimRL.IsTerminal(w) || Scenarios.CheckWinCondition(w, 1) || steps >= m.maxSteps;
    (m.(world := w, episodeReward := m.episodeReward + total, episodeSteps := steps),
     Transition(state, input.action, total, SimRL.GetStateAsWritten(w), done))
  }

  /** The agent's table has 64 rows. */
  predicate InTable(state: int)
  {
    0 <= state < 64
  }

  /** A rich player at the population cap hands the agent row 65, outside
      its table: the agent's lookup `_qTable[state, …]` of that row fails. */
  lemma ProcessStepLeavesTable(m: Manager, input: StepInput)
    requires m.world == SimRL.WithPlayerOne(2000, 2000, 100, 5, 5)
    ensures ProcessStep(m, input).1.state == 65
    ensures !InTable(ProcessStep(m, input).1.state)
  {
    SimRL.AsWrittenStateOverflows();
  }

  /** The loop of `RunCompleteEpisodeHeadless`: steps are taken while the
      environment is not terminal and the cap is not reached, so the loop
      stops on the first of the two, and never runs past the cap. */
  function RunSteps(m: Manager, inputs: int -> StepInput): (r: Manager)
    requires m.world.mapData.Valid()
    ensures r.world.mapData.Valid()
    ensures r == m.(world := r.world, episodeReward := r.episodeReward, episodeSteps := r.episodeSteps)
    ensures SimRL.IsTerminal(r.world) || r.episodeSteps >= m.maxSteps
    ensures m.episodeSteps <= r.episodeSteps
    ensures m.episodeSteps < m.maxSteps ==> r.episodeSteps <= m.maxSteps
    ensures m.episodeSteps >= m.maxSteps || SimRL.IsTerminal(m.world) ==> r == m
    decreases m.maxSteps - m.episodeSteps
  {
    if SimRL.IsTerminal(m.world) || m.episodeSteps >= m.maxSteps then m
    else RunSteps(ProcessStep(m, inputs(m.episodeSteps)).0, inputs)
  }

  /** `EndEpisode`: the outcome is whether the scenario is won (not whether
      time ran out); it enters the window, the win rate is recomputed, the
      episode's reward and steps are published, and the episode counter
      moves on by exactly one. */
  function EndEpisode(m: Manager): (r: Manager)
    requires Outcomes(m.history)
    ensures r.currentEpisode == m.currentEpisode + 1
    ensures r.history == Record(m.history, Scenarios.CheckWinCondition(m.world, 1))
    ensures Outcomes(r.history) && |r.history| > 0
    ensures |m.history| <= HISTORY_SIZE ==> |r.history| <= HISTORY_SIZE
    ensures r.winRate == WinRate(r.history) && 0.0 <= r.winRate <= 1.0
    ensures r.lastEpisodeReward == m.episodeReward && r.lastEpisodeSteps == m.episodeSteps
    ensures r.world == m.world && r.maxSteps == m.maxSteps && r.settings == m.settings
  {
    var h := Record(m.history, Scenarios.CheckWinCondition(m.world, 1));
    m.(history := h, winRate := WinRate(h), lastEpisodeReward := m.episodeReward,
       lastEpisodeSteps := m.episodeSteps, currentEpisode := m.currentEpisode + 1)
  }

  /** `RunCompleteEpisodeHeadless`: a fresh episode, the step loop, then
      the episode's end. The episode ran at most the cap's number of steps
      (none for a non-positive cap), and the window stays within 100. */
  function RunCompleteEpisodeHeadless(m: Manager, draws: seq<Scenarios.Draw>, inputs: int -> StepInput): (r: Manager)
    requires m.world.mapData.Valid() && Outcomes(m.history)
    ensures r.world.mapData.Valid()
    ensures r.currentEpisode == m.currentEpisode + 1
    ensures 0 <= r.lastEpisodeSteps && (m.maxSteps > 0 ==> r.lastEpisodeSteps <= m.maxSteps)
    ensures m.maxSteps <= 0 ==> r.lastEpisodeSteps == 0
    ensures SimRL.IsTerminal(r.world) || r.lastEpisodeSteps >= m.maxSteps
    ensures |m.history| <= HISTORY_SIZE ==> |r.history| <= HISTORY_SIZE
    ensures Outcomes(r.history) && 0.0 <= r.winRate <= 1.0
  {
    EndEpisode(RunSteps(StartNewEpisode(m, draws), inputs))
  }

  /** `StepEpisodeVisual` (the watched mode): a terminal or capped episode
      ends and a new one starts in its place; otherwise one step is taken. */
  function StepEpisodeVisual(m: Manager, draws: seq<Scenarios.Draw>, input: StepInput): (r: Manager)
    requires m.world.mapData.Valid() && Outcomes(m.history)
    ensures r.world.mapData.Valid() && Outcomes(r.history)
    ensures SimRL.IsTerminal(m.world) || m.episodeSteps >= m.maxSteps ==>
              r.currentEpisode == m.currentEpisode + 1 && r.episodeSteps == 0 && r.episodeReward == 0.0
              && r.lastEpisodeSteps == m.episodeSteps
    ensures !(SimRL.IsTerminal(m.world) || m.episodeSteps >= m.maxSteps) ==>
              r.currentEpisode == m.currentEpisode && r.episodeSteps == m.episodeSteps + 1 && r.history == m.history
  {
    if SimRL.IsTerminal(m.world) || m.episodeSteps >= m.maxSteps then
      StartNewEpisode(EndEpisode(m), draws)
    else ProcessStep(m, input).0
  }
}
