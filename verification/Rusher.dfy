/** The rushing bot (`RusherAI`): four workers, one barracks, then a
    steady stream of soldiers sent in threes at the first enemy it sees. */
module Rusher {
  import opened Wrappers
  import opened Types
  import opened World
  import opened Config
  import opened Resources
  import opened Grid
  import opened Pace
  import opened Spots
  import opened Crew
  import opened Bots
  import Select

  const INTERVAL: real := 0.5
  const TARGET_WORKER_COUNT: int := 4
  const SQUAD_MIN: int := 3
  const WOOD_STARVED: int := 5
  const PLACE_TRIES: int := 50
  const PLACE_RADIUS: nat := 6

  /** Decisions come at most twice per second of frame time. */
  lemma {:induction false} TwicePerSecond(timer: real, dts: seq<real>)
    requires timer >= 0.0 && NonNegative(dts)
    ensures Decisions(timer, dts, INTERVAL) as real <= 2.0 * (timer + Sum(dts))
  {
    DecisionsRationed(timer, dts, INTERVAL);
  }

  // ---------------------------------------------------------------------
  // Gathering and placement.

  /** The resource `AssignGatherTasks` asks for: Meat, then Wood, then
      Stone, by first shortfall. */
  function GatherType(p: SimPlayer, c: Cost): (r: Option<ResourceType>)
    ensures r == Some(Meat) <==> p.meat < c.meat
    ensures r == Some(Wood) <==> p.meat >= c.meat && p.wood < c.wood
    ensures r == Some(Stone) <==> p.meat >= c.meat && p.wood >= c.wood && p.stone < c.stone
    ensures r.None? <==> p.meat >= c.meat && p.wood >= c.wood && p.stone >= c.stone
  {
    ShortfallOfThree(p, c, Meat, Wood, Stone);
    FirstShortfall(p, c, [Meat, Wood, Stone])
  }

  /** `AssignGatherTasks`: the idle workers go for the type `GatherType`
      names; with no shortfall nothing changes. With unique IDs each idle
      worker of the player ends as `GatherOrder` leaves it for that type. */
  function AssignGatherTasks(ws: World, pid: int, c: Cost): (r: World)
    requires ws.mapData.Valid()
    ensures r == ws.(units := r.units) && |r.units| == |ws.units|
    ensures forall q :: q !in Ids(Select.Filter(ws.units, IdleWorkerOf(pid))) ==> GetUnit(r, q) == GetUnit(ws, q)
    ensures GetPlayer(ws, pid).Some? && GatherType(GetPlayer(ws, pid).value, c).None? ==> r == ws
    ensures UniqueUnitIds(ws) && GetPlayer(ws, pid).Some? && GatherType(GetPlayer(ws, pid).value, c).Some? ==>
              forall w :: w in ws.units && w.player == pid && w.kind == Worker && w.state == Idle ==>
                GetUnit(r, w.id) == Some(GatherOrder(ws, w, GatherType(GetPlayer(ws, pid).value, c).value, None))
  {
    GatherFor(ws, pid, c, [Meat, Wood, Stone])
  }

  /** The price `TryBuildBuilding` pays: a barracks its wood and stone, a
      wood cutter its wood, a house its full price, anything else nothing. */
  function BuildCost(cfg: Config, kind: BuildingType): (c: Cost)
    ensures kind == Barracks ==> c == Cost(BARRACKS_COST_WOOD, BARRACKS_COST_STONE, 0)
    ensures kind == WoodCutter ==> c == Cost(cfg.woodCutter.wood, 0, 0)
    ensures kind == House ==> c == cfg.house
    ensures kind !in {Barracks, WoodCutter, House} ==> c == Free
  {
    match kind
    case Barracks => Cost(BARRACKS_COST_WOOD, BARRACKS_COST_STONE, 0)
    case WoodCutter => Cost(cfg.woodCutter.wood, 0, 0)
    case House => cfg.house
    case _ => Free
  }

  /** `TryBuildBuilding`: the first of fifty tries in the 13x13 square
      around the base that is in bounds and flagged walkable gets the
      building, and the worker is ordered to build it; the random offsets
      are inputs. */
  function TryBuildBuilding(cfg: Config, ws: World, pid: int, worker: SimUnit, kind: BuildingType, offsets: seq<Int2>)
    : (r: (Option<Int2>, World))
    requires ws.mapData.Valid()
    requires |offsets| == PLACE_TRIES && OffsetsWithin(offsets, PLACE_RADIUS)
    ensures r.1.mapData.Valid()
    ensures r.0.None? ==> r.1 == ws
    ensures r.0.None? && BaseOf(ws, pid).Some? ==>
              forall i :: 0 <= i < |offsets| ==> !NodeFlagWalkable(ws, Add(BaseOf(ws, pid).value.pos, offsets[i]))
    ensures r.0.Some? ==> BaseOf(ws, pid).Some? && NodeFlagWalkable(ws, r.0.value)
                          && Chebyshev(r.0.value, BaseOf(ws, pid).value.pos) <= PLACE_RADIUS
    ensures r.0.Some? ==> Erected(ws, r.1, pid, worker, kind, r.0.value, BuildCost(cfg, kind))
  {
    var r := PlaceAround(ws, pid, worker, kind, BaseOf(ws, pid), offsets, FlagWalkable(ws), BuildCost(cfg, kind));
    if r.0.Some? then
      PlacedNearBase(ws, pid, worker, kind, BaseOf(ws, pid), offsets, FlagWalkable(ws), BuildCost(cfg, kind), PLACE_RADIUS);
      r
    else r
  }

  /** A building order guarded the way the bot guards it: the test price
      affordable and an idle worker present, who is the builder. */
  function BuildIfReady(cfg: Config, ws: World, pid: int, kind: BuildingType, test: Cost, offsets: seq<Int2>): (r: World)
    requires ws.mapData.Valid()
    requires |offsets| == PLACE_TRIES && OffsetsWithin(offsets, PLACE_RADIUS)
    ensures r.mapData.Valid()
    ensures !(CanAfford(ws, pid, test) && Select.Any(ws.units, IdleWorkerOf(pid))) ==> r == ws
    ensures r == ws || BuiltOne(ws, r, pid, kind, BuildCost(cfg, kind))
    ensures CanAfford(ws, pid, test) && Select.Any(ws.units, IdleWorkerOf(pid)) && BaseOf(ws, pid).Some?
            && (exists i :: 0 <= i < |offsets| && NodeFlagWalkable(ws, Add(BaseOf(ws, pid).value.pos, offsets[i])))
            ==> BuiltOne(ws, r, pid, kind, BuildCost(cfg, kind))
  {
    if CanAfford(ws, pid, test) && Select.Any(ws.units, IdleWorkerOf(pid)) then
      var w := IdleWorker(ws, pid).value;
      var t := TryBuildBuilding(cfg, ws, pid, w, kind, offsets);
      if t.0.Some? then
        assert Erected(ws, t.1, pid, w, kind, t.0.value, BuildCost(cfg, kind));
        t.1
      else t.1
    else ws
  }

  // ---------------------------------------------------------------------
  // Population and starvation.

  /** `CheckPopulationCap`: the decision stops only when, at the cap with
      no house under way, a house is affordable and an idle worker is sent
      to build it; an unaffordable house sends the workers gathering but
      lets the decision go on. */
  function CheckPopulationCap(cfg: Config, ws: World, pid: int, me: SimPlayer, offsets: seq<Int2>): (r: (bool, World))
    requires ws.mapData.Valid()
    requires |offsets| == PLACE_TRIES && OffsetsWithin(offsets, PLACE_RADIUS)
    ensures r.1.mapData.Valid()
    ensures r.0 <==> me.curPop >= me.maxPop && !Select.Any(ws.buildings, OwnUnfinished(pid, House))
                     && CanAfford(ws, pid, cfg.house) && Select.Any(ws.units, IdleWorkerOf(pid))
    ensures me.curPop < me.maxPop || Select.Any(ws.buildings, OwnUnfinished(pid, House)) ==> r.1 == ws
    ensures !r.0 && r.1 != ws ==> !CanAfford(ws, pid, cfg.house) && r.1 == AssignGatherTasks(ws, pid, cfg.house)
    ensures !r.0 ==> r.1.buildings == ws.buildings
    ensures r.0 ==> r.1 == ws || BuiltOne(ws, r.1, pid, House, cfg.house)
  {
    if me.curPop < me.maxPop || Select.Any(ws.buildings, OwnUnfinished(pid, House)) then (false, ws)
    else if !CanAfford(ws, pid, cfg.house) then (false, AssignGatherTasks(ws, pid, cfg.house))
    else if !Select.Any(ws.units, IdleWorkerOf(pid)) then (false, ws)
    else (true, BuildIfReady(cfg, ws, pid, House, cfg.house, offsets))
  }

  function Live(t: ResourceType): SimResource -> bool
  {
    (r: SimResource) => r.kind == t && r.amount > 0
  }

  /** `CheckResourceStarvation`: with fewer than five wood nodes left and
      no wood cutter, a wood cutter is ordered when its wood is stocked and
      a worker idles. */
  function CheckResourceStarvation(cfg: Config, ws: World, pid: int, offsets: seq<Int2>): (r: World)
    requires ws.mapData.Valid()
    requires |offsets| == PLACE_TRIES && OffsetsWithin(offsets, PLACE_RADIUS)
    ensures r.mapData.Valid()
    ensures r != ws ==> Select.Count(ws.resources, Live(Wood)) < WOOD_STARVED
                        && !Select.Any(ws.buildings, OwnKind(pid, WoodCutter))
                        && CanAfford(ws, pid, BuildCost(cfg, WoodCutter))
                        && BuiltOne(ws, r, pid, WoodCutter, BuildCost(cfg, WoodCutter))
  {
    if Select.Count(ws.resources, Live(Wood)) < WOOD_STARVED && Select.Count(ws.buildings, OwnKind(pid, WoodCutter)) == 0 then
      BuildIfReady(cfg, ws, pid, WoodCutter, Cost(cfg.woodCutter.wood, 0, 0), offsets)
    else ws
  }

  // ---------------------------------------------------------------------
  // Combat.

  /** `HandleCombat`: with three idle soldiers or more, all of them attack
      the common target; with fewer nobody moves. With unique IDs each idle
      soldier of the player then ends as `Attack` leaves it. */
  function HandleCombat(ws: World, pid: int): (r: World)
    requires ws.mapData.Valid()
    ensures r == ws.(units := r.units) && |r.units| == |ws.units|
    ensures forall q :: q !in Ids(Select.Filter(ws.units, OwnIdle(pid, Soldier))) ==> GetUnit(r, q) == GetUnit(ws, q)
    ensures Select.Count(ws.units, OwnIdle(pid, Soldier)) < SQUAD_MIN ==> r == ws
    ensures AttackTarget(ws, pid).NoTarget? ==> r == ws
    ensures UniqueUnitIds(ws) && Select.Count(ws.units, OwnIdle(pid, Soldier)) >= SQUAD_MIN ==>
              forall s :: s in ws.units && s.player == pid && s.kind == Soldier && s.state == Idle ==>
                GetUnit(r, s.id) == Some(Attack(ws, s, AttackTarget(ws, pid)))
  {
    FilterStored(ws, OwnIdle(pid, Soldier));
    assert forall s :: s in ws.units && s.player == pid && s.kind == Soldier && s.state == Idle ==> OwnIdle(pid, Soldier)(s);
    if Select.Count(ws.units, OwnIdle(pid, Soldier)) < SQUAD_MIN then ws
    else AttackAll(ws, Select.Filter(ws.units, OwnIdle(pid, Soldier)), AttackTarget(ws, pid))
  }

  // ---------------------------------------------------------------------
  // The decision.

  /** The branch one decision takes after the population check. */
  datatype Branch = HouseFirst | Workers | FirstBarracks | Army | Waiting

  /** The decision order: the population check, four workers (when the
      base is idle), a barracks while there is none, then soldiers and
      combat once a barracks is complete. */
  function BranchOf(capped: bool, workers: int, baseIdle: bool, hasBarracks: bool, completed: bool): (b: Branch)
    ensures b == HouseFirst <==> capped
    ensures b == Workers <==> !capped && workers < TARGET_WORKER_COUNT && baseIdle
    ensures b == FirstBarracks <==> !capped && !(workers < TARGET_WORKER_COUNT && baseIdle) && !hasBarracks
    ensures b == Army <==> !capped && !(workers < TARGET_WORKER_COUNT && baseIdle) && hasBarracks && completed
    ensures b == Waiting <==> !capped && !(workers < TARGET_WORKER_COUNT && baseIdle) && hasBarracks && !completed
  {
    if capped then HouseFirst
    else if workers < TARGET_WORKER_COUNT && baseIdle then Workers
    else if !hasBarracks then FirstBarracks
    else if completed then Army
    else Waiting
  }

  /** Once four workers exist the worker branch is never taken again, and
      once a barracks exists the barracks branch is not either. */
  lemma BranchesRetire(capped: bool, workers: int, baseIdle: bool, hasBarracks: bool, completed: bool)
    ensures workers >= TARGET_WORKER_COUNT ==> BranchOf(capped, workers, baseIdle, hasBarracks, completed) != Workers
    ensures hasBarracks ==> BranchOf(capped, workers, baseIdle, hasBarracks, completed) != FirstBarracks
  {
  }
}
