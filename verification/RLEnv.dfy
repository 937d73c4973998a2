/** The scene-side Q-learning environment (`RLEnvironment`, commander mode):
    the 64-row state of player 1's stocks, and the episode bookkeeping of
    `ExecuteAction` with its order rewards. The scene objects it queries
    (idle workers, resource nodes, the base, the build grid) are given as a
    `Scene` snapshot; the orders' effects on those objects are not modelled. */
module RLEnv {
  import opened Wrappers
  import opened Types
  import opened StateCode

  const WoodThresholds: seq<int> := [0, 50, 100, 200]
  const StoneThresholds: seq<int> := [0, 50, 100, 200]
  const MeatThresholds: seq<int> := [0, 50]

  /** Player 1's entry in the resource manager. */
  datatype Stock = Stock(wood: int, stone: int, meat: int, currentPopulation: int, maxPopulation: int)

  /** The levels `GetCurrentState` reads: `pop` is 1 when any population exists. */
  function StockLevels(res: Stock): Levels
  {
    Levels(ThresholdIndex(res.wood, WoodThresholds), ThresholdIndex(res.stone, StoneThresholds),
           ThresholdIndex(res.meat, MeatThresholds), if res.currentPopulation > 0 then 1 else 0)
  }

  /** `GetCurrentState`: 0 without a resource manager, otherwise a row of
      the 64-row table from which the four levels can be read back. */
  function GetCurrentState(manager: Option<Stock>): (n: int)
    ensures manager.None? ==> n == 0
    ensures 0 <= n < 64
    ensures manager.Some? ==> Decode(n) == StockLevels(manager.value)
  {
    match manager
    case None => 0
    case Some(res) =>
      EncodeDecode(StockLevels(res));
      Encode(StockLevels(res))
  }

  /** Stocks at different levels are told apart: the state is injective
      in (wood, stone, meat, pop) levels. */
  lemma CurrentStateInjective(a: Stock, b: Stock)
    requires StockLevels(a) != StockLevels(b)
    ensures GetCurrentState(Some(a)) != GetCurrentState(Some(b))
  {
  }

  /** `CanAfford` of the resource manager for player 1. */
  predicate CanAfford(res: Stock, wood: int, stone: int, meat: int)
  {
    res.wood >= wood && res.stone >= stone && res.meat >= meat
  }

  /** What the scene answers to the environment's queries at one step. */
  datatype Scene = Scene(
    idleWorker: bool,            // some worker of player 1 is idle
    nodeTypes: set<ResourceType>, // types with at least one resource node
    baseFound: bool,             // player 1's base is (or can again be) found
    stock: Stock,                // player 1's resources
    buildSpot: bool,             // a free cell within the scan square of the worker
    buildStarted: bool)          // the worker accepted the construction task

  datatype Episode = Episode(currentStep: int, episodeCompleted: bool, hasBuiltBarracks: bool, maxEpisodesSteps: int)

  /** `ResetEpisode`: counters and flags back to the start. */
  function ResetEpisode(ep: Episode): (r: Episode)
    ensures r.currentStep == 0 && !r.episodeCompleted && !r.hasBuiltBarracks
    ensures r.maxEpisodesSteps == ep.maxEpisodesSteps
  {
    Episode(0, false, false, ep.maxEpisodesSteps)
  }

  /** `OrderGather`: -1 without an idle worker or a node of the type, 0.1 otherwise. */
  function OrderGather(sc: Scene, t: ResourceType): (r: real)
    ensures r == 0.1 <==> sc.idleWorker && t in sc.nodeTypes
    ensures r == 0.1 || r == -1.0
  {
    if !sc.idleWorker then -1.0
    else if t !in sc.nodeTypes then -1.0
    else 0.1
  }

  /** `OrderRecruitWorker`: 5 when the base is there, 50 meat is affordable
      and the population is below the cap; -1 otherwise. */
  function OrderRecruitWorker(sc: Scene): (r: real)
    ensures r == 5.0 <==> sc.baseFound && CanAfford(sc.stock, 0, 0, 50)
                          && sc.stock.currentPopulation < sc.stock.maxPopulation
    ensures r == 5.0 || r == -1.0
  {
    if !sc.baseFound then -1.0
    else if !CanAfford(sc.stock, 0, 0, 50) then -1.0
    else if sc.stock.currentPopulation >= sc.stock.maxPopulation then -1.0
    else 5.0
  }

  /** An idle worker, 180 wood and stone, a free cell and an accepted task. */
  predicate BarracksStarts(sc: Scene)
  {
    sc.idleWorker && CanAfford(sc.stock, 180, 180, 0) && sc.buildSpot && sc.buildStarted
  }

  /** `OrderBuildBarracks`, after the step counter has advanced: a started
      construction completes the episode and pays 1000 plus four per step
      left; no worker, no 180/180 wood/stone or a refused task is -1, and
      no free cell is -2. */
  function OrderBuildBarracks(ep: Episode, sc: Scene): (r: (real, Episode))
    ensures r.0 == -1.0 || r.0 == -2.0 ==> r.1 == ep
    ensures BarracksStarts(sc) <==>
              r.1 == ep.(episodeCompleted := true, hasBuiltBarracks := true)
              && r.0 == 1000.0 + 4.0 * (ep.maxEpisodesSteps - ep.currentStep) as real
    ensures r.0 == -2.0 <==> sc.idleWorker && CanAfford(sc.stock, 180, 180, 0) && !sc.buildSpot
  {
    if !sc.idleWorker then (-1.0, ep)
    else if !CanAfford(sc.stock, 180, 180, 0) then (-1.0, ep)
    else if !sc.buildSpot then (-2.0, ep)
    else if sc.buildStarted then
      (1000.0 + 4.0 * (ep.maxEpisodesSteps - ep.currentStep) as real,
       ep.(episodeCompleted := true, hasBuiltBarracks := true))
    else (-1.0, ep)
  }

  /** The bonus can never fall to -1 or -2 while steps remain. */
  lemma BarracksBonusPositive(ep: Episode, sc: Scene)
    requires ep.currentStep <= ep.maxEpisodesSteps
    requires BarracksStarts(sc)
    ensures OrderBuildBarracks(ep, sc).0 >= 1000.0
  {
  }

  /** `ExecuteAction`: nothing once the episode is over; otherwise one step
      more, a -0.1 time penalty plus the order's reward, and the episode
      ends when the step budget is used up. */
  function ExecuteAction(ep: Episode, action: int, sc: Scene): (r: (real, Episode))
    ensures ep.episodeCompleted ==> r == (0.0, ep)
    ensures !ep.episodeCompleted ==>
              && r.1.currentStep == ep.currentStep + 1
              && r.1.maxEpisodesSteps == ep.maxEpisodesSteps
              && (r.1.episodeCompleted <==> r.1.currentStep >= ep.maxEpisodesSteps || (action == 4 && BarracksStarts(sc)))
    ensures !ep.episodeCompleted && action == 4 && BarracksStarts(sc) ==>
              r.1.hasBuiltBarracks && r.0 == -0.1 + 1000.0 + 4.0 * (ep.maxEpisodesSteps - (ep.currentStep + 1)) as real
    ensures !ep.episodeCompleted && action != 4 ==> r.1.hasBuiltBarracks == ep.hasBuiltBarracks
    ensures !ep.episodeCompleted && !(0 <= action <= 4) ==> r.0 == -0.1
  {
    if ep.episodeCompleted then (0.0, ep)
    else
      var e1 := ep.(currentStep := ep.currentStep + 1);
      var (gain, e2) :=
        if action == 0 then (OrderGather(sc, Wood), e1)
        else if action == 1 then (OrderGather(sc, Stone), e1)
        else if action == 2 then (OrderGather(sc, Meat), e1)
        else if action == 3 then (OrderRecruitWorker(sc), e1)
        else if action == 4 then OrderBuildBarracks(e1, sc)
        else (0.0, e1);
      (-0.1 + gain, if e2.currentStep >= e2.maxEpisodesSteps then e2.(episodeCompleted := true) else e2)
  }

  /** Steps of an episode, each an action and the scene it meets. */
  function Run(ep: Episode, steps: seq<(int, Scene)>): (r: Episode)
    ensures |steps| == 0 ==> r == ep
    decreases |steps|
  {
    if |steps| == 0 then ep
    else Run(ExecuteAction(ep, steps[0].0, steps[0].1).1, steps[1..])
  }

  /** Once over, an episode stays over and its counter no longer moves. */
  lemma {:induction false} CompletedIsFinal(ep: Episode, steps: seq<(int, Scene)>)
    requires ep.episodeCompleted
    ensures Run(ep, steps) == ep
    decreases |steps|
  {
    if |steps| > 0 {
      CompletedIsFinal(ExecuteAction(ep, steps[0].0, steps[0].1).1, steps[1..]);
    }
  }

  /** An episode started by `ResetEpisode` is over after at most
      `maxEpisodesSteps` actions, whatever the actions and scenes. */
  lemma {:induction false} EpisodeBounded(ep: Episode, steps: seq<(int, Scene)>)
    requires !ep.episodeCompleted && ep.currentStep < ep.maxEpisodesSteps
    requires |steps| >= ep.maxEpisodesSteps - ep.currentStep
    ensures Run(ep, steps).episodeCompleted
    decreases |steps|
  {
    var e1 := ExecuteAction(ep, steps[0].0, steps[0].1).1;
    if e1.episodeCompleted {
      CompletedIsFinal(e1, steps[1..]);
    } else {
      EpisodeBounded(e1, steps[1..]);
    }
  }
}
