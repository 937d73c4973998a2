/** The single-agent dense-reward runner: one learning agent as player 1
    on a maze map, paid a small amount for every sign of growth and
    charged a little for every step.

    The runner tracks three totals (player 1's combined stock, its
    building count and its unit count), pays for increases, and ends the
    game on a soldier count, on a wiped-out player, or at the step cap.
    Its `EndGame` has no guard: every call pays and ends an episode, and
    ending an episode makes the agent (`RTSAgent.OnEpisodeBegin`) call
    back into `ResetSimulation`, which restarts the step count and the
    three totals. The simulation updates and the rebuilt maze world are
    modelled in their own modules; a step here takes the world as it
    stands after them. */
module DenseRunner {
  import opened Wrappers
  import opened Types
  import opened World
  import opened Census
  import Select

  datatype Runner = Runner(
    step: int, maxSteps: int,
    lastResources: int, lastUnits: int, lastBuildings: int,
    reward: real, episodes: nat)

  const RESOURCE_REWARD: real := 0.001
  const BUILDING_REWARD: real := 0.1
  const UNIT_REWARD: real := 0.2
  const STEP_COST: real := -0.0001
  const WIN_SOLDIERS: int := 5
  const WIN_REWARD: real := 2.0
  const LOSS_REWARD: real := -1.0
  const GRACE_STEPS: int := 10

  /** The stock `ResetSimulation` gives player 1 in the new world: 1000
      wood, 500 meat and 200 stone on top of an empty player. */
  const RESET_STOCK: int := 1000 + 500 + 200

  function Stock(p: SimPlayer): int
  {
    p.wood + p.stone + p.meat
  }

  // ---------------------------------------------------------------------
  // Shaping.

  /** `CalculateDenseRewards`: nothing without player 1. Otherwise 0.001
      per unit of growth in the combined stock, 0.1 once if player 1's
      building count rose, 0.2 once if its unit count rose, and a 0.0001
      charge for the step; the three totals are overwritten. */
  function DenseRewards(ws: World, r: Runner): (r': Runner)
    ensures GetPlayer(ws, 1).None? ==> r' == r
    ensures GetPlayer(ws, 1).Some? ==>
              r'.lastResources == Stock(GetPlayer(ws, 1).value)
              && r'.lastBuildings == Select.Count(ws.buildings, BuildingOf(1))
              && r'.lastUnits == Select.Count(ws.units, UnitOf(1))
    ensures GetPlayer(ws, 1).Some? ==> r'.reward >= r.reward + STEP_COST
    ensures GetPlayer(ws, 1).Some? ==>
              (r'.reward == r.reward + STEP_COST <==>
                 Stock(GetPlayer(ws, 1).value) <= r.lastResources
                 && Select.Count(ws.buildings, BuildingOf(1)) <= r.lastBuildings
                 && Select.Count(ws.units, UnitOf(1)) <= r.lastUnits)
    ensures r' == r.(lastResources := r'.lastResources, lastUnits := r'.lastUnits,
                     lastBuildings := r'.lastBuildings, reward := r'.reward)
  {
    match GetPlayer(ws, 1)
    case None => r
    case Some(p) =>
      var stock := Stock(p);
      var buildings := Select.Count(ws.buildings, BuildingOf(1));
      var units := Select.Count(ws.units, UnitOf(1));
      var pay := PayForRise(r.lastResources, stock, RESOURCE_REWARD)
                 + Bonus(r.lastBuildings, buildings, BUILDING_REWARD)
                 + Bonus(r.lastUnits, units, UNIT_REWARD)
                 + STEP_COST;
      r.(reward := r.reward + pay, lastResources := stock, lastBuildings := buildings, lastUnits := units)
  }

  /** Spending resources is never charged beyond the step cost: only
      increases of the combined stock are paid, falls are ignored. */
  lemma SpendingIsNotCharged(ws: World, r: Runner)
    requires GetPlayer(ws, 1).Some? && Stock(GetPlayer(ws, 1).value) < r.lastResources
    requires Select.Count(ws.buildings, BuildingOf(1)) <= r.lastBuildings
    requires Select.Count(ws.units, UnitOf(1)) <= r.lastUnits
    ensures DenseRewards(ws, r).reward == r.reward + STEP_COST
  {
  }

  // ---------------------------------------------------------------------
  // End of game.

  /** The bookkeeping `ResetSimulation` leaves: step 0, the reset stock,
      the one starting worker and no building. */
  predicate Restarted(r: Runner)
  {
    r.step == 0 && r.lastResources == RESET_STOCK && r.lastUnits == 1 && r.lastBuildings == 0
  }

  /** `EndGame(reward)`: pays and ends the episode, every time it is
      called; the episode's end resets the runner through the agent's
      `OnEpisodeBegin`. */
  function EndGame(r: Runner, reward: real): (r': Runner)
    ensures r'.episodes == r.episodes + 1 && r'.reward == r.reward + reward
    ensures Restarted(r') && r'.maxSteps == r.maxSteps
  {
    Runner(0, r.maxSteps, RESET_STOCK, 1, 0, r.reward + reward, r.episodes + 1)
  }

  /** After an episode's end nothing of the old episode's bookkeeping is
      left: two runners that agree on the cap, the total reward and the
      episode count are equal after `EndGame`, whatever their steps and
      totals. */
  lemma EndGameForgets(r: Runner, s: Runner, reward: real)
    requires r.maxSteps == s.maxSteps && r.reward == s.reward && r.episodes == s.episodes
    ensures EndGame(r, reward) == EndGame(s, reward)
  {
  }

  /** Unlike the guarded runners, a second `EndGame` pays again and ends a
      second episode. */
  lemma EndGameNotIdempotent(r: Runner, x: real, y: real)
    ensures EndGame(EndGame(r, x), y).episodes == r.episodes + 2
    ensures EndGame(EndGame(r, x), y) != EndGame(r, x)
  {
  }

  function Soldiers(ws: World): nat
  {
    Select.Count(ws.units, OfKind(Soldier))
  }

  function Workers(ws: World): nat
  {
    Select.Count(ws.units, OfKind(Worker))
  }

  /** `CheckWinCondition`: counting every unit on the map, whoever owns it
      and whatever its state, five soldiers win (+2); otherwise no worker
      and no soldier after step 10 lose (-1). */
  function CheckWinCondition(ws: World, r: Runner): (r': Runner)
    ensures Soldiers(ws) >= WIN_SOLDIERS ==> r' == EndGame(r, WIN_REWARD)
    ensures Soldiers(ws) < WIN_SOLDIERS && Workers(ws) == 0 && Soldiers(ws) == 0 && r.step > GRACE_STEPS ==>
              r' == EndGame(r, LOSS_REWARD)
    ensures r'.episodes == r.episodes || r'.episodes == r.episodes + 1
    ensures r'.episodes == r.episodes ==> r' == r
    ensures r'.episodes == r.episodes + 1 <==>
              Soldiers(ws) >= WIN_SOLDIERS || (Workers(ws) == 0 && Soldiers(ws) == 0 && r.step > GRACE_STEPS)
  {
    var soldiers := Soldiers(ws);
    if soldiers >= WIN_SOLDIERS then EndGame(r, WIN_REWARD)
    else if Workers(ws) == 0 && soldiers == 0 && r.step > GRACE_STEPS then EndGame(r, LOSS_REWARD)
    else r
  }

  /** An empty map is not a loss during the first ten steps. */
  lemma NoLossDuringGrace(ws: World, r: Runner)
    requires ws.units == [] && r.step <= GRACE_STEPS
    ensures CheckWinCondition(ws, r) == r
  {
  }

  // ---------------------------------------------------------------------
  // Steps and frames.

  /** The bookkeeping of `StepSimulation`: rewards, the win check, and the
      step count. A step that ends the episode counts as the first step of
      the restarted one. */
  function StepSimulation(ws: World, r: Runner): (r': Runner)
    ensures r'.maxSteps == r.maxSteps
    ensures r.episodes <= r'.episodes <= r.episodes + 1
    ensures r'.episodes == r.episodes ==> r'.step == r.step + 1
    ensures r'.episodes == r.episodes + 1 ==>
              r'.step == 1 && r'.lastResources == RESET_STOCK && r'.lastUnits == 1 && r'.lastBuildings == 0
  {
    var r1 := CheckWinCondition(ws, DenseRewards(ws, r));
    r1.(step := r1.step + 1)
  }

  /** One `FixedUpdate` pass: a step on each world in turn, where the loop
      count is the length of `worlds`; the first step that brings the
      counter to the cap is followed by `EndGame(0)` and ends the pass.
      With a cap above one step the counter is always below the cap after
      a pass (the cap resets it to 0, a win mid-pass to 1), and each loop
      pass ends at most one episode. */
  function Frame(worlds: seq<World>, r: Runner): (r': Runner)
    ensures r'.maxSteps == r.maxSteps
    ensures 0 <= r.step < r.maxSteps ==> 0 <= r'.step < r'.maxSteps || (|worlds| > 0 && Restarted(r'))
    ensures r.maxSteps > 1 && 0 <= r.step < r.maxSteps ==> 0 <= r'.step < r'.maxSteps
    ensures r.maxSteps > 1 && 0 <= r.step < r.maxSteps ==> r.episodes <= r'.episodes <= r.episodes + |worlds|
    decreases |worlds|
  {
    if |worlds| == 0 then r
    else
      var r1 := StepSimulation(worlds[0], r);
      if r1.step >= r1.maxSteps then EndGame(r1, 0.0)
      else Frame(worlds[1..], r1)
  }

  /** A step that wins at the cap ends exactly one episode: the win resets
      the counter, so the timeout does not follow it; the next episode has
      taken its first step. */
  lemma WinAtCapEndsOnce(ws: World, r: Runner)
    requires Soldiers(ws) >= WIN_SOLDIERS && r.step + 1 == r.maxSteps && r.maxSteps > 1
    ensures Frame([ws], r).episodes == r.episodes + 1
    ensures Frame([ws], r).step == 1
    ensures Frame([ws], r).reward >= r.reward + WIN_REWARD + STEP_COST
  {
    var r0 := DenseRewards(ws, r);
    assert r0.reward >= r.reward + STEP_COST;
  }

  /** A step that only reaches the cap ends one episode and leaves the
      runner restarted. */
  lemma TimeoutRestarts(ws: World, r: Runner)
    requires Soldiers(ws) < WIN_SOLDIERS && !(Workers(ws) == 0 && Soldiers(ws) == 0 && r.step > GRACE_STEPS)
    requires r.step + 1 == r.maxSteps
    ensures Frame([ws], r).episodes == r.episodes + 1
    ensures Restarted(Frame([ws], r))
  {
    var r0 := DenseRewards(ws, r);
    assert r0.step == r.step;
  }
}
