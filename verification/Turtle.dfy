/** The turtling bot (`TurtleAI`): a half-second decision that refuses to
    spend while the population is capped, keeps its resource supply
    alive with economy buildings, walls the base with towers, and
    attacks only with a full squad. */
module Turtle {
  import opened Wrappers
  import opened Types
  import opened World
  import opened Config
  import opened Resources
  import opened Grid
  import opened Pace
  import opened Spots
  import opened Crew
  import opened Bots
  import Select

  const INTERVAL: real := 0.5
  const TARGET_WORKER_COUNT: int := 7
  const DESIRED_TOWER_COUNT: int := 4
  const ATTACK_SQUAD_SIZE: int := 8
  const THREAT_RANGE_SQ: int := 144
  const PLACE_TRIES: int := 40

  /** Decisions come at most twice per second of frame time. */
  lemma {:induction false} TwicePerSecond(timer: real, dts: seq<real>)
    requires timer >= 0.0 && NonNegative(dts)
    ensures Decisions(timer, dts, INTERVAL) as real <= 2.0 * (timer + Sum(dts))
  {
    DecisionsRationed(timer, dts, INTERVAL);
  }

  /** `Update(dt)`: a decision is made when the half second is reached and
      the bot's player exists. */
  lemma NothingWithoutPlayer(ws: World, pid: int, timer: real, dt: real)
    requires GetPlayer(ws, pid).None?
    ensures !Decide(timer, dt, INTERVAL, GetPlayer(ws, pid).Some?).0
    ensures timer + dt >= INTERVAL ==> Decide(timer, dt, INTERVAL, GetPlayer(ws, pid).Some?).1 == 0.0
  {
  }

  // ---------------------------------------------------------------------
  // Gathering and placement.

  /** The resource `AssignGatherTasks` asks for: Stone, then Wood, then
      Meat, by first shortfall; none without a shortfall. */
  function GatherType(p: SimPlayer, c: Cost): (r: Option<ResourceType>)
    ensures r == Some(Stone) <==> p.stone < c.stone
    ensures r == Some(Wood) <==> p.stone >= c.stone && p.wood < c.wood
    ensures r == Some(Meat) <==> p.stone >= c.stone && p.wood >= c.wood && p.meat < c.meat
    ensures r.None? <==> p.stone >= c.stone && p.wood >= c.wood && p.meat >= c.meat
  {
    ShortfallOfThree(p, c, Stone, Wood, Meat);
    FirstShortfall(p, c, [Stone, Wood, Meat])
  }

  /** `AssignGatherTasks`: the idle workers go for the type `GatherType`
      names; with no shortfall nothing changes. With unique IDs each idle
      worker of the player ends as `GatherOrder` leaves it for that type. */
  function AssignGatherTasks(ws: World, pid: int, c: Cost): (r: World)
    requires ws.mapData.Valid()
    ensures r == ws.(units := r.units) && |r.units| == |ws.units|
    ensures forall q :: q !in Ids(Select.Filter(ws.units, IdleWorkerOf(pid))) ==> GetUnit(r, q) == GetUnit(ws, q)
    ensures GetPlayer(ws, pid).Some? && GatherType(GetPlayer(ws, pid).value, c).None? ==> r == ws
    ensures UniqueUnitIds(ws) && GetPlayer(ws, pid).Some? && GatherType(GetPlayer(ws, pid).value, c).Some? ==>
              forall w :: w in ws.units && w.player == pid && w.kind == Worker && w.state == Idle ==>
                GetUnit(r, w.id) == Some(GatherOrder(ws, w, GatherType(GetPlayer(ws, pid).value, c).value, None))
  {
    GatherFor(ws, pid, c, [Stone, Wood, Meat])
  }

  /** The price `TryBuildDefensiveStructure` pays per type: a farm costs
      only its meat, a wood cutter only its wood, a stone pit only its
      stone; the types it does not list are free. */
  function StructureCost(cfg: Config, kind: BuildingType): (c: Cost)
    ensures kind == House ==> c == cfg.house
    ensures kind == Barracks ==> c == Cost(BARRACKS_COST_WOOD, BARRACKS_COST_STONE, 0)
    ensures kind == Farm ==> c == Cost(0, 0, cfg.farm.meat)
    ensures kind !in {Tower, Barracks, House, WoodCutter, StonePit, Farm} ==> c == Free
  {
    match kind
    case Tower => Cost(cfg.tower.wood, cfg.tower.stone, 0)
    case Barracks => Cost(BARRACKS_COST_WOOD, BARRACKS_COST_STONE, 0)
    case House => cfg.house
    case WoodCutter => Cost(cfg.woodCutter.wood, 0, 0)
    case StonePit => Cost(0, cfg.stonePit.stone, 0)
    case Farm => Cost(0, 0, cfg.farm.meat)
    case _ => Free
  }

  /** The reach of the tries: up to 7 cells for a house, up to 5 for the
      rest (the truncated polar offsets of the source). */
  function Reach(kind: BuildingType): nat
  {
    if kind == House then 7 else 5
  }

  /** `TryBuildDefensiveStructure`: the first of the forty tries around the
      base that is in bounds and flagged walkable is paid for at the type's
      price, the building is created there and the worker is ordered to
      build it; the offsets (`(int)(cos a * range), (int)(sin a * range)`)
      are inputs. */
  function TryBuildDefensiveStructure(cfg: Config, ws: World, pid: int, worker: SimUnit, kind: BuildingType, offsets: seq<Int2>)
    : (r: (Option<Int2>, World))
    requires ws.mapData.Valid()
    requires |offsets| == PLACE_TRIES && OffsetsWithin(offsets, Reach(kind))
    ensures r.1.mapData.Valid()
    ensures r.0.None? ==> r.1 == ws
    ensures r.0.None? && BaseOf(ws, pid).Some? ==>
              forall i :: 0 <= i < |offsets| ==> !NodeFlagWalkable(ws, Add(BaseOf(ws, pid).value.pos, offsets[i]))
    ensures r.0.Some? ==> BaseOf(ws, pid).Some? && NodeFlagWalkable(ws, r.0.value)
                          && Chebyshev(r.0.value, BaseOf(ws, pid).value.pos) <= Reach(kind)
    ensures r.0.Some? ==> Erected(ws, r.1, pid, worker, kind, r.0.value, StructureCost(cfg, kind))
  {
    var r := PlaceAround(ws, pid, worker, kind, BaseOf(ws, pid), offsets, FlagWalkable(ws), StructureCost(cfg, kind));
    if r.0.Some? then
      PlacedNearBase(ws, pid, worker, kind, BaseOf(ws, pid), offsets, FlagWalkable(ws), StructureCost(cfg, kind), Reach(kind));
      r
    else r
  }

  /** `GetIdleWorker` followed by `TryBuildDefensiveStructure`: the first
      idle worker builds `kind` at the first free try, or nothing changes
      when no try is free. */
  function BuildWithIdle(cfg: Config, ws: World, pid: int, kind: BuildingType, offsets: seq<Int2>): (r: World)
    requires ws.mapData.Valid()
    requires |offsets| == PLACE_TRIES && OffsetsWithin(offsets, Reach(kind))
    requires Select.Any(ws.units, IdleWorkerOf(pid))
    ensures r.mapData.Valid()
    ensures r == ws || BuiltOne(ws, r, pid, kind, StructureCost(cfg, kind))
    ensures BaseOf(ws, pid).Some? && (exists i :: 0 <= i < |offsets| && NodeFlagWalkable(ws, Add(BaseOf(ws, pid).value.pos, offsets[i])))
            ==> BuiltOne(ws, r, pid, kind, StructureCost(cfg, kind))
  {
    var w := IdleWorker(ws, pid).value;
    var t := TryBuildDefensiveStructure(cfg, ws, pid, w, kind, offsets);
    if t.0.Some? then
      assert Erected(ws, t.1, pid, w, kind, t.0.value, StructureCost(cfg, kind));
      t.1
    else t.1
  }

  /** What a started building does to the lists: the buildings before it
      are kept and it is appended, unfinished, for the player. */
  ghost predicate StartedOne(ws: World, r: World, pid: int, kind: BuildingType)
  {
    && |r.buildings| == |ws.buildings| + 1 && r.buildings[..|ws.buildings|] == ws.buildings
    && r.buildings[|ws.buildings|].player == pid && r.buildings[|ws.buildings|].kind == kind
    && !r.buildings[|ws.buildings|].isConstructed
  }

  lemma BuiltOneStarts(ws: World, r: World, pid: int, kind: BuildingType, cost: Cost)
    requires ws.mapData.Valid() && r.mapData.Valid()
    requires BuiltOne(ws, r, pid, kind, cost)
    ensures StartedOne(ws, r, pid, kind) && r.resources == ws.resources
    ensures GetPlayer(r, pid) == (if CanAfford(ws, pid, cost) then Some(Paid(GetPlayer(ws, pid).value, cost)) else GetPlayer(ws, pid))
  {
    var pos :| Erected(ws, r, pid, IdleWorker(ws, pid).value, kind, pos, cost);
  }

  // ---------------------------------------------------------------------
  // Population.

  /** `CheckPopulationCap`: below the cap it is false and does nothing; at
      the cap it is true while a house is under construction (doing
      nothing), true when the house is unaffordable (gathering for it), and
      true when an idle worker can be sent to build it. */
  function CheckPopulationCap(cfg: Config, ws: World, pid: int, me: SimPlayer, offsets: seq<Int2>): (r: (bool, World))
    requires ws.mapData.Valid()
    requires |offsets| == PLACE_TRIES && OffsetsWithin(offsets, Reach(House))
    ensures r.1.mapData.Valid()
    ensures r.0 <==> me.curPop >= me.maxPop
                     && (Select.Any(ws.buildings, OwnUnfinished(pid, House)) || !CanAfford(ws, pid, cfg.house)
                         || Select.Any(ws.units, IdleWorkerOf(pid)))
    ensures !r.0 ==> r.1 == ws
    ensures me.curPop < me.maxPop || Select.Any(ws.buildings, OwnUnfinished(pid, House)) ==> r.1 == ws
    ensures !CanAfford(ws, pid, cfg.house) ==> r.1 == ws.(units := r.1.units)
    ensures me.curPop >= me.maxPop && !Select.Any(ws.buildings, OwnUnfinished(pid, House)) && CanAfford(ws, pid, cfg.house)
            ==> r.1 == ws || BuiltOne(ws, r.1, pid, House, cfg.house)
    ensures GetPlayer(r.1, pid) == GetPlayer(ws, pid)
            || (CanAfford(ws, pid, cfg.house) && GetPlayer(r.1, pid) == Some(Paid(GetPlayer(ws, pid).value, cfg.house)))
  {
    if me.curPop < me.maxPop then (false, ws)
    else if Select.Any(ws.buildings, OwnUnfinished(pid, House)) then (true, ws)
    else if !CanAfford(ws, pid, cfg.house) then (true, AssignGatherTasks(ws, pid, cfg.house))
    else if !Select.Any(ws.units, IdleWorkerOf(pid)) then (false, ws)
    else
      var r := BuildWithIdle(cfg, ws, pid, House, offsets);
      if r != ws then BuiltOneStarts(ws, r, pid, House, cfg.house); (true, r)
      else (true, r)
  }

  // ---------------------------------------------------------------------
  // Sustainable economy.

  /** The resource an economy type renews, with the map threshold under
      which another one is wanted. */
  function Renews(kind: BuildingType): ResourceType
  {
    if kind == WoodCutter then Wood else if kind == StonePit then Stone else Meat
  }

  function Threshold(kind: BuildingType): int
  {
    if kind == WoodCutter then 20 else 15
  }

  /** The affordability test of `TryBuildEconomyBuilding`: a farm is
      tested against its full price. */
  function CheckCost(cfg: Config, kind: BuildingType): Cost
  {
    if kind == WoodCutter then Cost(cfg.woodCutter.wood, 0, 0)
    else if kind == StonePit then Cost(0, cfg.stonePit.stone, 0)
    else cfg.farm
  }

  function Live(t: ResourceType): SimResource -> bool
  {
    (r: SimResource) => r.kind == t && r.amount > 0
  }

  /** Whether `EnsureInfiniteResources` wants another building of `kind`:
      few nodes left or none owned, and fewer than two owned. */
  predicate Wanted(ws: World, pid: int, kind: BuildingType)
  {
    var owned := Select.Count(ws.buildings, OwnKind(pid, kind));
    (Select.Count(ws.resources, Live(Renews(kind))) < Threshold(kind) || owned == 0) && owned < 2
  }

  /** What the economy step leaves of the price: paid exactly, or nothing
      taken. */
  ghost predicate PaidOrKept(ws: World, r: World, pid: int, cost: Cost)
  {
    GetPlayer(r, pid) == GetPlayer(ws, pid)
    || (CanAfford(ws, pid, cost) && GetPlayer(r, pid) == Some(Paid(GetPlayer(ws, pid).value, cost)))
  }

  /** `TryBuildEconomyBuilding`: with the price and an idle worker, the
      structure is attempted and the step reports a start; without the
      price the workers gather for it; without a worker nothing happens. */
  function EconomyTry(cfg: Config, ws: World, pid: int, kind: BuildingType, offsets: seq<Int2>): (r: (bool, World))
    requires ws.mapData.Valid()
    requires |offsets| == PLACE_TRIES && OffsetsWithin(offsets, Reach(kind))
    ensures r.1.mapData.Valid() && r.1.resources == ws.resources
    ensures r.0 <==> CanAfford(ws, pid, CheckCost(cfg, kind)) && Select.Any(ws.units, IdleWorkerOf(pid))
    ensures !r.0 ==> r.1 == ws.(units := r.1.units)
    ensures r.0 ==> r.1 == ws || BuiltOne(ws, r.1, pid, kind, StructureCost(cfg, kind))
    ensures r.0 ==> r.1.buildings == ws.buildings || StartedOne(ws, r.1, pid, kind)
    ensures r.0 ==> PaidOrKept(ws, r.1, pid, StructureCost(cfg, kind))
  {
    if !CanAfford(ws, pid, CheckCost(cfg, kind)) then (false, AssignGatherTasks(ws, pid, CheckCost(cfg, kind)))
    else if !Select.Any(ws.units, IdleWorkerOf(pid)) then (false, ws)
    else
      var r := BuildWithIdle(cfg, ws, pid, kind, offsets);
      if r != ws then BuiltOneStarts(ws, r, pid, kind, StructureCost(cfg, kind)); (true, r)
      else (true, r)
  }

  /** One line of `EnsureInfiniteResources`: try `kind` when wanted. */
  function EconomyStep(cfg: Config, ws: World, pid: int, kind: BuildingType, offsets: seq<Int2>): (r: (bool, World))
    requires ws.mapData.Valid()
    requires |offsets| == PLACE_TRIES && OffsetsWithin(offsets, Reach(kind))
    ensures r.1.mapData.Valid() && r.1.resources == ws.resources
    ensures r.0 ==> Wanted(ws, pid, kind)
    ensures !r.0 ==> r.1 == ws.(units := r.1.units)
    ensures r.0 ==> r.1 == ws || BuiltOne(ws, r.1, pid, kind, StructureCost(cfg, kind))
    ensures r.0 ==> r.1.buildings == ws.buildings || StartedOne(ws, r.1, pid, kind)
    ensures r.0 ==> PaidOrKept(ws, r.1, pid, StructureCost(cfg, kind))
  {
    if Wanted(ws, pid, kind) then EconomyTry(cfg, ws, pid, kind, offsets) else (false, ws)
  }

  /** The economy steps for the kinds in `kinds`, in order; the first
      started ends the walk. */
  function EconomyWalk(cfg: Config, ws: World, pid: int, kinds: seq<BuildingType>, offsets: seq<Int2>): (r: (Option<BuildingType>, World))
    requires ws.mapData.Valid()
    requires |offsets| == PLACE_TRIES && OffsetsWithin(offsets, 5)
    requires forall i :: 0 <= i < |kinds| ==> Reach(kinds[i]) == 5
    ensures r.1.mapData.Valid() && r.1.resources == ws.resources
    ensures r.0.Some? ==> r.0.value in kinds && Select.Count(ws.buildings, OwnKind(pid, r.0.value)) < 2
    ensures r.0.None? ==> r.1 == ws.(units := r.1.units)
    ensures r.0.Some? ==> r.1.buildings == ws.buildings || StartedOne(ws, r.1, pid, r.0.value)
    ensures r.0.Some? ==> PaidOrKept(ws, r.1, pid, StructureCost(cfg, r.0.value))
    decreases |kinds|
  {
    if |kinds| == 0 then (None, ws)
    else
      var (a, ws1) := EconomyStep(cfg, ws, pid, kinds[0], offsets);
      if a then (Some(kinds[0]), ws1)
      else
        var (k, ws2) := EconomyWalk(cfg, ws1, pid, kinds[1..], offsets);
        assert k.Some? ==> k.value in kinds;
        assert GetPlayer(ws1, pid) == GetPlayer(ws, pid);
        (k, ws2)
  }

  /** `EnsureInfiniteResources`: wood cutter, stone pit, farm in that
      order; the first started ends the step. At most one economy building
      is started, never one of a type the player already has two of, and
      the stock pays at most that one building's price. */
  function EnsureInfiniteResources(cfg: Config, ws: World, pid: int, offsets: seq<Int2>): (r: (Option<BuildingType>, World))
    requires ws.mapData.Valid()
    requires |offsets| == PLACE_TRIES && OffsetsWithin(offsets, 5)
    ensures r.1.mapData.Valid() && r.1.resources == ws.resources
    ensures r.0.Some? ==> r.0.value in {WoodCutter, StonePit, Farm}
                          && Select.Count(ws.buildings, OwnKind(pid, r.0.value)) < 2
    ensures r.0.None? ==> r.1 == ws.(units := r.1.units)
    ensures r.0.Some? ==> r.1.buildings == ws.buildings || StartedOne(ws, r.1, pid, r.0.value)
    ensures r.0.Some? ==> PaidOrKept(ws, r.1, pid, StructureCost(cfg, r.0.value))
  {
    EconomyWalk(cfg, ws, pid, [WoodCutter, StonePit, Farm], offsets)
  }

  // ---------------------------------------------------------------------
  // Towers, barracks and combat.

  function OwnConstructed(pid: int, kind: BuildingType): SimBuilding -> bool
  {
    (b: SimBuilding) => b.player == pid && b.kind == kind && b.isConstructed
  }

  /** Step 4 of the decision: a barracks is attempted (or gathered for)
      only with two constructed towers and no barracks at all; when it is
      attempted, the first idle worker builds it. */
  function BarracksStep(cfg: Config, ws: World, pid: int, offsets: seq<Int2>): (r: World)
    requires ws.mapData.Valid()
    requires |offsets| == PLACE_TRIES && OffsetsWithin(offsets, 5)
    ensures r.mapData.Valid()
    ensures r != ws ==> Select.Count(ws.buildings, OwnConstructed(pid, Tower)) >= 2
                        && !Select.Any(ws.buildings, OwnKind(pid, Barracks))
    ensures !CanAfford(ws, pid, cfg.BarracksCost()) ==> r == ws.(units := r.units)
    ensures CanAfford(ws, pid, cfg.BarracksCost()) ==> r == ws || BuiltOne(ws, r, pid, Barracks, StructureCost(cfg, Barracks))
    ensures PaidOrKept(ws, r, pid, StructureCost(cfg, Barracks))
  {
    if Select.Count(ws.buildings, OwnConstructed(pid, Tower)) < 2 || Select.Any(ws.buildings, OwnKind(pid, Barracks)) then ws
    else if !CanAfford(ws, pid, cfg.BarracksCost()) then AssignGatherTasks(ws, pid, cfg.BarracksCost())
    else if !Select.Any(ws.units, IdleWorkerOf(pid)) then ws
    else
      var r := BuildWithIdle(cfg, ws, pid, Barracks, offsets);
      if r != ws then BuiltOneStarts(ws, r, pid, Barracks, StructureCost(cfg, Barracks)); r
      else r
  }

  /** An enemy unit within 12 cells (squared distance at most 144) of a
      base position. */
  function NearBase(pid: int, at: Int2): SimUnit -> bool
  {
    (u: SimUnit) => u.player != pid && DistSq(u.pos, at) <= THREAT_RANGE_SQ
  }

  /** `FindEnemyNearBase(12)`: the first enemy unit, in enumeration order,
      within 12 of the base; none without a base. */
  function FindEnemyNearBase(ws: World, pid: int): (r: Option<SimUnit>)
    ensures r.Some? ==> BaseOf(ws, pid).Some? && r.value in ws.units && r.value.player != pid
                        && DistSq(r.value.pos, BaseOf(ws, pid).value.pos) <= THREAT_RANGE_SQ
    ensures r.None? <==> BaseOf(ws, pid).None? || !Select.Any(ws.units, NearBase(pid, BaseOf(ws, pid).value.pos))
  {
    match BaseOf(ws, pid)
    case None => None
    case Some(b) => Select.FirstWhere(ws.units, NearBase(pid, b.pos))
  }

  /** The target of `HandleTurtleCombat`: a threat near the base comes
      first, whatever the squad; otherwise, with eight idle soldiers, the
      first enemy unit, else an enemy building; otherwise none. */
  function CombatTarget(ws: World, pid: int): (t: Target)
    ensures FindEnemyNearBase(ws, pid).Some? ==> t == AtUnit(FindEnemyNearBase(ws, pid).value)
    ensures FindEnemyNearBase(ws, pid).None? ==>
              t == if Select.Count(ws.units, OwnIdle(pid, Soldier)) < ATTACK_SQUAD_SIZE then NoTarget else AttackTarget(ws, pid)
    ensures t.AtUnit? ==> t.u in ws.units && t.u.player != pid
    ensures t.AtBuilding? ==> t.b in ws.buildings && t.b.player != pid && !Select.Any(ws.units, EnemyUnit(pid))
  {
    match FindEnemyNearBase(ws, pid)
    case Some(threat) => AtUnit(threat)
    case None =>
      if Select.Count(ws.units, OwnIdle(pid, Soldier)) < ATTACK_SQUAD_SIZE then NoTarget
      else AttackTarget(ws, pid)
  }

  /** `HandleTurtleCombat`: every idle soldier attacks the chosen target;
      only idle soldiers of the player change, and nobody moves without a
      threat or a full squad. With unique IDs each idle soldier of the
      player ends as `Attack` on that target leaves it. */
  function HandleTurtleCombat(ws: World, pid: int): (r: World)
    requires ws.mapData.Valid()
    ensures r == ws.(units := r.units) && |r.units| == |ws.units|
    ensures forall q :: q !in Ids(Select.Filter(ws.units, OwnIdle(pid, Soldier))) ==> GetUnit(r, q) == GetUnit(ws, q)
    ensures FindEnemyNearBase(ws, pid).None? && Select.Count(ws.units, OwnIdle(pid, Soldier)) < ATTACK_SQUAD_SIZE ==> r == ws
    ensures UniqueUnitIds(ws) ==>
              forall s :: s in ws.units && s.player == pid && s.kind == Soldier && s.state == Idle ==>
                GetUnit(r, s.id) == Some(Attack(ws, s, CombatTarget(ws, pid)))
  {
    FilterStored(ws, OwnIdle(pid, Soldier));
    assert forall s :: s in ws.units && s.player == pid && s.kind == Soldier && s.state == Idle ==> OwnIdle(pid, Soldier)(s);
    AttackAll(ws, Select.Filter(ws.units, OwnIdle(pid, Soldier)), CombatTarget(ws, pid))
  }
}
