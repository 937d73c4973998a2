/** The adversarial training runner: one learning agent (player 1) against
    a scripted opponent (player 2) whose difficulty follows a curriculum
    parameter.

    The runner's own logic is bookkeeping around the simulation: it pays
    combat rewards for the opponent's losses, economy rewards in the
    easiest curriculum stage only, and ends the game once a base falls or
    the step cap is hit. The simulation updates and the opponent's moves
    between two bookkeeping points are modelled in their own modules; a
    step here takes the world as it stands at each bookkeeping point. The
    agent's reward stream is the running total `reward`, and
    `episodesEnded` counts its `EndEpisode` calls. */
module Adversarial {
  import opened Wrappers
  import opened Types
  import opened World
  import opened Census
  import Select

  // ---------------------------------------------------------------------
  // Curriculum.

  datatype Difficulty = Passive | Defensive | Aggressive

  function Rank(d: Difficulty): nat
  {
    match d
    case Passive => 0
    case Defensive => 1
    case Aggressive => 2
  }

  /** The curriculum parameter read at reset picks the opponent's stance. */
  function DifficultyOf(level: real): (d: Difficulty)
    ensures d == Passive <==> level < 0.5
    ensures d == Defensive <==> 0.5 <= level < 1.5
    ensures d == Aggressive <==> 1.5 <= level
  {
    if level < 0.5 then Passive else if level < 1.5 then Defensive else Aggressive
  }

  /** A higher curriculum level never picks an easier opponent. */
  lemma DifficultyMonotone(a: real, b: real)
    requires a <= b
    ensures Rank(DifficultyOf(a)) <= Rank(DifficultyOf(b))
  {
  }

  // ---------------------------------------------------------------------
  // Runner state.

  /** The agent's own stocks and worker count as last seen. */
  datatype Ledger = Ledger(wood: int, meat: int, stone: int, workers: int)

  datatype Runner = Runner(
    difficulty: Difficulty, hasAgent: bool,
    step: int, maxSteps: int, ended: bool,
    combat: Tally, economy: Ledger,
    reward: real, episodesEnded: nat)

  const UNIT_KILL_REWARD: real := 0.5
  const BUILDING_KILL_REWARD: real := 2.0
  const BASE_DAMAGE_REWARD: real := 0.001
  const RESOURCE_REWARD: real := 0.001
  const WORKER_REWARD: real := 0.05
  const LOSS_REWARD: real := -2.0
  const PASSIVE_TIMEOUT_REWARD: real := -1.0

  /** The runner part of `ResetSimulation`: the difficulty is read from the
      curriculum level, the step counter and the end flag are cleared, the
      economy ledger starts from the 500/500/500 stocks player 1 is given
      and no workers, and the combat tally starts from no enemy units, one
      enemy building and a full 1000-point enemy base. The agent's reward
      total and episode count carry over. */
  function Reset(r: Runner, level: real): (r': Runner)
    ensures r'.difficulty == DifficultyOf(level) && r'.step == 0 && !r'.ended
    ensures r'.economy == Ledger(500, 500, 500, 0) && r'.combat == Tally(0, 1, 1000)
    ensures r'.hasAgent == r.hasAgent && r'.maxSteps == r.maxSteps
    ensures r'.reward == r.reward && r'.episodesEnded == r.episodesEnded
  {
    r.(difficulty := DifficultyOf(level), step := 0, ended := false,
       economy := Ledger(500, 500, 500, 0), combat := Tally(0, 1, 1000))
  }

  // ---------------------------------------------------------------------
  // Shaping rewards.

  /** `CalculateCombatRewards`: with an agent, the opponent's losses since
      the last step are paid (0.5 per unit, 2.0 per building, 0.001 per
      base hit point) and the tally is overwritten with the current one.
      Without an agent nothing happens, not even the overwrite. */
  function CombatRewards(ws: World, r: Runner): (r': Runner)
    ensures !r.hasAgent ==> r' == r
    ensures r.hasAgent ==> r'.combat == EnemyTally(ws, 2)
    ensures r'.reward >= r.reward
    ensures r'.reward > r.reward <==>
              r.hasAgent && (EnemyTally(ws, 2).units < r.combat.units || EnemyTally(ws, 2).buildings < r.combat.buildings
                             || EnemyTally(ws, 2).baseHealth < r.combat.baseHealth)
    ensures r.hasAgent && EnemyTally(ws, 2).buildings < r.combat.buildings ==>
              r'.reward >= r.reward + 2.0 * (r.combat.buildings - EnemyTally(ws, 2).buildings) as real
    ensures r' == r.(combat := r'.combat, reward := r'.reward)
  {
    if !r.hasAgent then r
    else
      var cur := EnemyTally(ws, 2);
      r.(reward := r.reward + CombatPayment(r.combat, cur, UNIT_KILL_REWARD, BUILDING_KILL_REWARD, BASE_DAMAGE_REWARD),
         combat := cur)
  }

  /** The number of player 1's workers, dead or alive. */
  function Workers(ws: World): nat
  {
    Select.Count(ws.units, (u: SimUnit) => u.player == 1 && u.kind == Worker)
  }

  /** `CalculateEconomyRewards`: only against a Passive opponent, and only
      with an agent, each positive change in wood, meat and stone pays
      0.001 per unit, a rise in the worker count pays 0.05 once, and the
      ledger is overwritten. Player 1 is read with a dictionary index that
      throws when it is missing, hence the precondition. */
  function EconomyRewards(ws: World, r: Runner): (r': Runner)
    requires r.hasAgent && r.difficulty == Passive ==> GetPlayer(ws, 1).Some?
    ensures !r.hasAgent || r.difficulty != Passive ==> r' == r
    ensures r'.reward >= r.reward
    ensures r.hasAgent && r.difficulty == Passive ==>
              var p := GetPlayer(ws, 1).value;
              r'.economy == Ledger(p.wood, p.meat, p.stone, Workers(ws)) &&
              (r'.reward > r.reward <==>
                 p.wood > r.economy.wood || p.meat > r.economy.meat || p.stone > r.economy.stone
                 || Workers(ws) > r.economy.workers)
    ensures r' == r.(economy := r'.economy, reward := r'.reward)
  {
    if !r.hasAgent || r.difficulty != Passive then r
    else
      var p := GetPlayer(ws, 1).value;
      var workers := Workers(ws);
      var pay := PayForRise(r.economy.wood, p.wood, RESOURCE_REWARD)
                 + PayForRise(r.economy.meat, p.meat, RESOURCE_REWARD)
                 + PayForRise(r.economy.stone, p.stone, RESOURCE_REWARD)
                 + Bonus(r.economy.workers, workers, WORKER_REWARD);
      r.(reward := r.reward + pay, economy := Ledger(p.wood, p.meat, p.stone, workers))
  }

  /** Against a harder opponent the economy pays nothing, however rich the
      agent gets. */
  lemma NoEconomyRewardBeyondPassive(ws: World, r: Runner)
    requires r.difficulty != Passive
    ensures EconomyRewards(ws, r).reward == r.reward
  {
  }

  // ---------------------------------------------------------------------
  // End of game.

  /** The timeout reward 0 is turned into -1 against a Passive opponent. */
  function Adjusted(reward: real, d: Difficulty): (x: real)
    ensures x != reward <==> reward == 0.0 && d == Passive
    ensures x != reward ==> x == PASSIVE_TIMEOUT_REWARD
  {
    if reward == 0.0 && d == Passive then PASSIVE_TIMEOUT_REWARD else reward
  }

  /** `EndGame(reward)`: the first call marks the game ended and, with an
      agent, pays the (adjusted) reward and ends the agent's episode; any
      later call changes nothing. */
  function EndGame(r: Runner, reward: real): (r': Runner)
    ensures r'.ended
    ensures r.ended ==> r' == r
    ensures !r.ended && r.hasAgent ==>
              r'.reward == r.reward + Adjusted(reward, r.difficulty) && r'.episodesEnded == r.episodesEnded + 1
    ensures !r.hasAgent ==> r'.reward == r.reward && r'.episodesEnded == r.episodesEnded
    ensures r' == r.(ended := true, reward := r'.reward, episodesEnded := r'.episodesEnded)
  {
    if r.ended then r
    else if r.hasAgent then
      r.(ended := true, reward := r.reward + Adjusted(reward, r.difficulty), episodesEnded := r.episodesEnded + 1)
    else r.(ended := true)
  }

  /** Ending a game twice is ending it once. */
  lemma EndGameIdempotent(r: Runner, x: real, y: real)
    ensures EndGame(EndGame(r, x), y) == EndGame(r, x)
  {
  }

  /** A timeout pays -1 against a Passive opponent and nothing otherwise. */
  lemma TimeoutOnlyPunishedWhenPassive(r: Runner)
    requires !r.ended && r.hasAgent
    ensures EndGame(r, 0.0).reward == r.reward + (if r.difficulty == Passive then -1.0 else 0.0)
  {
  }

  /** The win reward `2 + 2 * (MaxSteps - step) / MaxSteps`. */
  function WinReward(step: int, maxSteps: int): (w: real)
    requires maxSteps > 0
    ensures 0 <= step <= maxSteps ==> 2.0 <= w <= 4.0
    ensures step == 0 ==> w == 4.0
    ensures step == maxSteps ==> w == 2.0
  {
    2.0 + 2.0 * ((maxSteps - step) as real / maxSteps as real)
  }

  /** A faster win pays at least as much. */
  lemma FasterWinPaysMore(s: int, t: int, maxSteps: int)
    requires maxSteps > 0 && s <= t
    ensures WinReward(s, maxSteps) >= WinReward(t, maxSteps)
  {
    var m := maxSteps as real;
    assert (maxSteps - s) as real / m >= (maxSteps - t) as real / m;
  }

  /** `CheckGameResult`: nothing once ended; otherwise the loss of the own
      base ends the game with -2, and, with the own base standing, the loss
      of the enemy base ends it with the time-scaled win reward. */
  function CheckGameResult(ws: World, r: Runner): (r': Runner)
    requires r.maxSteps > 0
    ensures r.ended ==> r' == r
    ensures !r.ended && !HasBase(ws, 1) ==> r' == EndGame(r, LOSS_REWARD)
    ensures !r.ended && HasBase(ws, 1) && !HasBase(ws, 2) ==> r' == EndGame(r, WinReward(r.step, r.maxSteps))
    ensures HasBase(ws, 1) && HasBase(ws, 2) ==> r' == r
    ensures r'.ended <==> r.ended || !HasBase(ws, 1) || !HasBase(ws, 2)
  {
    if r.ended then r
    else if !HasBase(ws, 1) then EndGame(r, LOSS_REWARD)
    else if !HasBase(ws, 2) then EndGame(r, WinReward(r.step, r.maxSteps))
    else r
  }

  /** Destroying the enemy base within the step budget pays between 2 and 4. */
  lemma WinPaysTwoToFour(ws: World, r: Runner)
    requires r.maxSteps > 0 && !r.ended && r.hasAgent
    requires HasBase(ws, 1) && !HasBase(ws, 2)
    requires 0 <= r.step <= r.maxSteps
    ensures r.reward + 2.0 <= CheckGameResult(ws, r).reward <= r.reward + 4.0
  {
    var w := WinReward(r.step, r.maxSteps);
    assert Adjusted(w, r.difficulty) == w;
  }

  // ---------------------------------------------------------------------
  // One simulation step.

  /** The bookkeeping of `SimulationStep`. `mid` is the world after the
      opponent's move and the building update, where the shaping rewards
      are computed; `after` is the world after the unit updates, where the
      game result is checked. The step counter then grows by one, and a
      game still running at the cap ends with reward 0. */
  function SimulationStep(mid: World, after: World, r: Runner): (r': Runner)
    requires r.maxSteps > 0
    requires r.hasAgent && r.difficulty == Passive ==> GetPlayer(mid, 1).Some?
    ensures r'.step == r.step + 1
    ensures r'.step >= r'.maxSteps ==> r'.ended
    ensures r.ended ==> r'.ended && r'.episodesEnded == r.episodesEnded
    ensures r'.episodesEnded <= r.episodesEnded + 1
    ensures r'.difficulty == r.difficulty && r'.maxSteps == r.maxSteps && r'.hasAgent == r.hasAgent
  {
    var r1 := EconomyRewards(mid, CombatRewards(mid, r));
    var r2 := CheckGameResult(after, r1);
    var r3 := r2.(step := r2.step + 1);
    if r3.step >= r3.maxSteps && !r3.ended then EndGame(r3, 0.0) else r3
  }

  /** A Passive game that reaches the cap with both bases standing is
      scored as a failure: the agent loses one point on top of its
      shaping rewards. */
  lemma PassiveTimeoutIsFailure(mid: World, after: World, r: Runner)
    requires r.maxSteps > 0 && r.hasAgent && r.difficulty == Passive && !r.ended
    requires GetPlayer(mid, 1).Some?
    requires HasBase(after, 1) && HasBase(after, 2)
    requires r.step + 1 == r.maxSteps
    ensures var r1 := EconomyRewards(mid, CombatRewards(mid, r));
            SimulationStep(mid, after, r).reward == r1.reward - 1.0
    ensures SimulationStep(mid, after, r).episodesEnded == r.episodesEnded + 1
  {
  }
}
