/** The building system: construction progress and completion, stat
    initialisation, unit training and spawning, resource generation and
    tower fire. Each operation takes the building record and the world and
    returns both updated (the source mutates the building in place). */
module Buildings {
  import opened Wrappers
  import opened Types
  import opened World
  import opened Config
  import opened Resources
  import opened Grid
  import SimMath
  import Select

  // ---------------------------------------------------------------------
  // Stats.

  /** The stock a generator building of this kind fills. */
  function GeneratedResource(k: BuildingType): ResourceType
  {
    match k
    case Farm => Meat
    case WoodCutter => Wood
    case StonePit => Stone
    case _ => NoResource
  }

  function ConfigureGenerator(b: SimBuilding, t: ResourceType): SimBuilding
  {
    b.(isResourceGenerator := true, resourceType := t,
       resourceInterval := RESOURCE_GENERATION_INTERVAL,
       resourceAmountPerCycle := RESOURCE_GENERATION_AMOUNT)
  }

  /** `InitializeBuildingStats`: 1000 max health, 10 health, progress full
      exactly when already constructed; Farm, WoodCutter and StonePit become
      generators of Meat, Wood and Stone; a Tower gets the tower weapon.
      Identity, owner, kind, position and construction flag are kept. */
  function InitializeBuildingStats(b: SimBuilding): (r: SimBuilding)
    ensures r.id == b.id && r.player == b.player && r.kind == b.kind && r.pos == b.pos
    ensures r.isConstructed == b.isConstructed
    ensures r.maxHealth == 1000 && r.health == 10
    ensures r.progress == (if b.isConstructed then BUILDING_MAX_PROGRESS else 0.0)
    ensures GeneratedResource(b.kind) != NoResource ==>
              r.isResourceGenerator && r.resourceType == GeneratedResource(b.kind)
              && r.resourceInterval == RESOURCE_GENERATION_INTERVAL
              && r.resourceAmountPerCycle == RESOURCE_GENERATION_AMOUNT
    ensures GeneratedResource(b.kind) == NoResource ==>
              r.isResourceGenerator == b.isResourceGenerator && r.resourceType == b.resourceType
    ensures b.kind == Tower ==>
              r.damage == TOWER_DAMAGE && r.attackRange == TOWER_ATTACK_RANGE && r.attackSpeed == TOWER_ATTACK_SPEED
    ensures b.kind != Tower ==>
              r.damage == b.damage && r.attackRange == b.attackRange && r.attackSpeed == b.attackSpeed
    ensures r.isTraining == b.isTraining && r.resourceTimer == b.resourceTimer
  {
    var b1 := b.(maxHealth := 1000, health := 10,
                 progress := if b.isConstructed then BUILDING_MAX_PROGRESS else 0.0);
    match b.kind
    case Farm => ConfigureGenerator(b1, Meat)
    case WoodCutter => ConfigureGenerator(b1, Wood)
    case StonePit => ConfigureGenerator(b1, Stone)
    case Tower => b1.(damage := TOWER_DAMAGE, attackRange := TOWER_ATTACK_RANGE, attackSpeed := TOWER_ATTACK_SPEED)
    case _ => b1
  }

  /** Initialising twice is initialising once. */
  lemma InitializeIdempotent(b: SimBuilding)
    ensures InitializeBuildingStats(InitializeBuildingStats(b)) == InitializeBuildingStats(b)
  {
  }

  // ---------------------------------------------------------------------
  // Construction.

  /** The population capacity a completed building adds. */
  function PopulationBonus(k: BuildingType): int
  {
    if k == Base then POPULATION_BASE else if k == House then POPULATION_HOUSE else 0
  }

  /** `OnBuildingCompleted`: a Base or a House raises its owner's cap. */
  function OnBuildingCompleted(b: SimBuilding, ws: World): (r: World)
    ensures r == ws.(players := r.players)
    ensures forall q :: q != b.player ==> GetPlayer(r, q) == GetPlayer(ws, q)
    ensures GetPlayer(ws, b.player).None? || PopulationBonus(b.kind) == 0 ==> r == ws
    ensures GetPlayer(ws, b.player).Some? ==>
              GetPlayer(r, b.player) == Some(GetPlayer(ws, b.player).value.(maxPop := GetPlayer(ws, b.player).value.maxPop + PopulationBonus(b.kind)))
    ensures SameHeadcounts(ws.players, r.players)
  {
    if b.kind == Base then IncreaseMaxPopulation(ws, b.player, POPULATION_BASE)
    else if b.kind == House then IncreaseMaxPopulation(ws, b.player, POPULATION_HOUSE)
    else ws
  }

  /** Health added for `amount` of progress: the ceiling of that share of
      the maximum. */
  function HealthGain(b: SimBuilding, amount: real): int
  {
    SimMath.CeilToInt(b.maxHealth as real * (amount / BUILDING_MAX_PROGRESS))
  }

  /** `AdvanceConstruction`: a constructed building reports completion and
      nothing changes. Otherwise progress grows by `amount`, health grows
      but never above the maximum, and the call reports completion exactly
      when progress reaches the maximum; then progress is capped, health
      is full, the building is constructed and its completion bonus is
      applied. */
  function AdvanceConstruction(b: SimBuilding, ws: World, amount: real): (r: (bool, SimBuilding, World))
    ensures b.isConstructed ==> r == (true, b, ws)
    ensures !b.isConstructed ==> (r.0 <==> b.progress + amount >= BUILDING_MAX_PROGRESS)
    ensures r.1.id == b.id && r.1.player == b.player && r.1.kind == b.kind && r.1.pos == b.pos
    ensures r.1.isConstructed <==> r.0
    ensures !b.isConstructed ==> r.1.health <= b.maxHealth
    ensures !b.isConstructed && amount >= 0.0 && 0 <= b.health <= b.maxHealth ==> r.1.health >= b.health
    ensures !r.0 ==> r.1 == b.(progress := b.progress + amount, health := r.1.health) && r.2 == ws
    ensures !b.isConstructed && r.0 ==>
              r.1 == b.(progress := BUILDING_MAX_PROGRESS, health := b.maxHealth, isConstructed := true)
              && r.2 == OnBuildingCompleted(r.1, ws)
    ensures r.2 == ws.(players := r.2.players) && SameHeadcounts(ws.players, r.2.players)
  {
    if b.isConstructed then (true, b, ws)
    else
      var gain := HealthGain(b, amount);
      var b1 := b.(progress := b.progress + amount,
                   health := SimMath.MinInt(b.health + gain, b.maxHealth));
      assert amount >= 0.0 && b.health <= b.maxHealth && b.maxHealth >= 0 ==> gain >= 0 by {
        if amount >= 0.0 && b.maxHealth >= 0 {
          assert b.maxHealth as real * (amount / BUILDING_MAX_PROGRESS) >= 0.0;
        }
      }
      if b1.progress >= BUILDING_MAX_PROGRESS then
        var b2 := b1.(progress := BUILDING_MAX_PROGRESS, health := b1.maxHealth, isConstructed := true);
        (true, b2, OnBuildingCompleted(b2, ws))
      else (false, b1, ws)
  }

  /** `n` builder ticks of `BUILD_AMOUNT_PER_TICK` each, stopping at
      completion. */
  function BuildTicks(b: SimBuilding, ws: World, n: nat): (r: (bool, SimBuilding, World))
    decreases n
  {
    if n == 0 then (b.isConstructed, b, ws)
    else
      var (done, b1, ws1) := AdvanceConstruction(b, ws, BUILD_AMOUNT_PER_TICK);
      if done then (true, b1, ws1) else BuildTicks(b1, ws1, n - 1)
  }

  /** A building whose remaining progress is `k` ticks' worth is finished by
      the `k`-th builder tick and not by the one before. */
  lemma {:induction false} BuildTicksExact(b: SimBuilding, ws: World, k: nat)
    requires !b.isConstructed && k >= 1
    requires b.progress == BUILDING_MAX_PROGRESS - BUILD_AMOUNT_PER_TICK * k as real
    ensures BuildTicks(b, ws, k).0
    ensures !BuildTicks(b, ws, k - 1).0
    decreases k
  {
    var r := AdvanceConstruction(b, ws, BUILD_AMOUNT_PER_TICK);
    if k > 1 {
      assert !r.0;
      BuildTicksExact(r.1, r.2, k - 1);
    }
  }

  /** A fresh building completes after exactly ten builder ticks. */
  lemma TenTicksToBuild(b: SimBuilding, ws: World)
    requires !b.isConstructed && b.progress == 0.0
    ensures BuildTicks(b, ws, 10).0 && !BuildTicks(b, ws, 9).0
  {
    BuildTicksExact(b, ws, 10);
  }

  // ---------------------------------------------------------------------
  // Training and spawning.

  /** The price of a unit type. */
  function TrainCost(cfg: Config, t: UnitType): (c: Cost)
    ensures c.NonNeg()
    ensures t == Worker ==> c.meat == WORKER_COST_MEAT
  {
    if t == Worker then cfg.WorkerCost() else cfg.SoldierCost()
  }

  function TrainTime(t: UnitType): real
  {
    if t == Worker then WORKER_TRAIN_TIME else SOLDIER_TRAIN_TIME
  }

  /** `StartTraining`: a building already training ignores the order;
      otherwise training starts exactly when the owner pays the unit's
      price, and a failed payment changes nothing. */
  function StartTraining(b: SimBuilding, ws: World, t: UnitType, cfg: Config): (r: (SimBuilding, World))
    ensures b.isTraining ==> r == (b, ws)
    ensures !b.isTraining ==> (r.0.isTraining <==> CanAfford(ws, b.player, TrainCost(cfg, t)))
    ensures !r.0.isTraining ==> r == (b, ws)
    ensures !b.isTraining && r.0.isTraining ==>
              r.0 == b.(isTraining := true, unitInProduction := t, trainingTimer := 0.0)
              && r.1 == SpendResources(ws, b.player, TrainCost(cfg, t)).1
  {
    if b.isTraining then (b, ws)
    else
      var (ok, ws1) := SpendResources(ws, b.player, TrainCost(cfg, t));
      if ok then (b.(isTraining := true, unitInProduction := t, trainingTimer := 0.0), ws1)
      else (b, ws)
  }

  /** Repeating a training order has no further effect: the price is paid
      at most once. */
  lemma StartTrainingIdempotent(b: SimBuilding, ws: World, t: UnitType, cfg: Config)
    ensures var (b1, ws1) := StartTraining(b, ws, t, cfg);
            StartTraining(b1, ws1, t, cfg) == (b1, ws1)
  {
  }

  /** A freshly spawned unit of type `t`: full health, idle, no path. The
      target field keeps its default 0. */
  function NewUnit(id: int, pid: int, t: UnitType, pos: Int2): (u: SimUnit)
    ensures u.id == id && u.player == pid && u.kind == t && u.pos == pos
    ensures u.health == u.maxHealth && u.maxHealth > 0
    ensures u.maxHealth == (if t == Worker then WORKER_MAX_HEALTH else SOLDIER_MAX_HEALTH)
    ensures u.state == Idle && u.path == []
    ensures u.damage == (if t == Soldier then SOLDIER_DAMAGE else 5)
  {
    var maxHp := if t == Worker then WORKER_MAX_HEALTH else SOLDIER_MAX_HEALTH;
    SimUnit(id, pid, t, pos, [], 0.0,
      if t == Worker then WORKER_MOVE_SPEED else SOLDIER_MOVE_SPEED,
      maxHp, maxHp, if t == Soldier then SOLDIER_DAMAGE else 5,
      SOLDIER_ATTACK_RANGE, SOLDIER_ATTACK_SPEED, 0.0, Idle, 0, 0.0, 0.0)
  }

  /** Every unit, building and resource ID is below the ID counter. */
  predicate IdsBelowCounter(ws: World)
  {
    && (forall i :: 0 <= i < |ws.units| ==> ws.units[i].id < ws.idCounter)
    && (forall i :: 0 <= i < |ws.buildings| ==> ws.buildings[i].id < ws.idCounter)
    && (forall i :: 0 <= i < |ws.resources| ==> ws.resources[i].id < ws.idCounter)
  }

  /** `SpawnUnit`: without population space or a free cell next to
      `basePos` nothing changes. Otherwise exactly one unit with the next
      ID is appended on the first walkable neighbour, that cell records it
      as occupant, and the owner's population grows by one. */
  function SpawnUnit(ws: World, basePos: Int2, t: UnitType, pid: int): (r: World)
    requires ws.mapData.Valid()
    ensures r.mapData.Valid() && r.mapData.width == ws.mapData.width && r.mapData.height == ws.mapData.height
    ensures r.buildings == ws.buildings && r.resources == ws.resources && r.tick == ws.tick
    ensures !HasPopulationSpace(ws, pid) || FindWalkableNeighbor(ws, basePos).None? ==> r == ws
    ensures HasPopulationSpace(ws, pid) && FindWalkableNeighbor(ws, basePos).Some? ==>
              var spot := FindWalkableNeighbor(ws, basePos).value;
              && Adjacent(basePos, spot) && IsWalkable(ws, spot)
              && r.units == ws.units + [NewUnit(ws.idCounter, pid, t, spot)]
              && r.idCounter == ws.idCounter + 1
              && r.mapData.At(spot).occupant == ws.idCounter
              && (forall q :: r.mapData.InBounds(q) && q != spot ==> r.mapData.At(q) == ws.mapData.At(q))
              && GetPlayer(r, pid).Some?
              && (var c := GetPlayer(ws, pid).value.curPop;
                  GetPlayer(r, pid).value.curPop == if c + 1 < 0 then 0 else c + 1)
    ensures GetPlayer(ws, pid).Some? ==>
              GetPlayer(r, pid).Some? && GetPlayer(r, pid).value == GetPlayer(ws, pid).value.(curPop := GetPlayer(r, pid).value.curPop)
    ensures |r.players| == |ws.players|
    ensures forall q :: q != pid ==> GetPlayer(r, q) == GetPlayer(ws, q)
  {
    if !HasPopulationSpace(ws, pid) then ws
    else match FindWalkableNeighbor(ws, basePos)
      case None => ws
      case Some(spot) =>
        var (id, ws1) := NextID(ws);
        var ws2 := ws1.(units := ws1.units + [NewUnit(id, pid, t, spot)]);
        var ws3 := SetOccupant(ws2, spot, id);
        assert GetPlayer(ws3, pid) == GetPlayer(ws, pid);
        ModifyPopulation(ws3, pid, 1)
  }

  /** Spawning keeps IDs below the counter, so the new unit's ID is fresh. */
  lemma SpawnKeepsIdsFresh(ws: World, basePos: Int2, t: UnitType, pid: int)
    requires ws.mapData.Valid() && IdsBelowCounter(ws)
    ensures IdsBelowCounter(SpawnUnit(ws, basePos, t, pid))
    ensures forall i :: 0 <= i < |ws.units| ==> ws.units[i].id != ws.idCounter
  {
  }

  /** `UpdateProduction`: an idle building is untouched; a training one
      advances its timer, and when the unit's train time is reached it
      spawns the unit and becomes ready again. */
  function UpdateProduction(b: SimBuilding, ws: World, dt: real): (r: (SimBuilding, World))
    requires ws.mapData.Valid()
    ensures r.1.mapData.Valid() && r.1.buildings == ws.buildings
    ensures r.0.id == b.id && r.0.kind == b.kind && r.0.isConstructed == b.isConstructed
    ensures !b.isTraining ==> r == (b, ws)
    ensures b.isTraining && b.trainingTimer + dt < TrainTime(b.unitInProduction) ==>
              r == (b.(trainingTimer := b.trainingTimer + dt), ws)
    ensures b.isTraining && b.trainingTimer + dt >= TrainTime(b.unitInProduction) ==>
              r.0 == b.(trainingTimer := 0.0, isTraining := false)
              && r.1 == SpawnUnit(ws, b.pos, b.unitInProduction, b.player)
  {
    if !b.isTraining then (b, ws)
    else
      var timer := b.trainingTimer + dt;
      if timer >= TrainTime(b.unitInProduction) then
        (b.(trainingTimer := 0.0, isTraining := false), SpawnUnit(ws, b.pos, b.unitInProduction, b.player))
      else (b.(trainingTimer := timer), ws)
  }

  /** A training cycle yields at most one unit: a started worker order
      followed by updates that reach the train time adds one unit exactly
      when the owner has room and a free neighbouring cell. */
  lemma ProductionYieldsOneUnit(b: SimBuilding, ws: World, dt: real)
    requires ws.mapData.Valid() && b.isTraining
    requires b.trainingTimer + dt >= TrainTime(b.unitInProduction)
    ensures var (b1, ws1) := UpdateProduction(b, ws, dt);
            && !b1.isTraining
            && |ws1.units| == |ws.units| + (if HasPopulationSpace(ws, b.player) && FindWalkableNeighbor(ws, b.pos).Some? then 1 else 0)
  {
  }

  // ---------------------------------------------------------------------
  // Resource generation.

  /** `UpdateResourceGeneration`: a generator's timer advances; when it
      reaches the interval it restarts and the owner receives one cycle's
      amount of the generated type. Other buildings are untouched. */
  function UpdateResourceGeneration(b: SimBuilding, ws: World, dt: real): (r: (SimBuilding, World))
    ensures r.1 == ws.(players := r.1.players)
    ensures r.0 == b.(resourceTimer := r.0.resourceTimer)
    ensures !b.isResourceGenerator ==> r == (b, ws)
    ensures b.isResourceGenerator && b.resourceTimer + dt < b.resourceInterval ==>
              r == (b.(resourceTimer := b.resourceTimer + dt), ws)
    ensures b.isResourceGenerator && b.resourceTimer + dt >= b.resourceInterval ==>
              r.0.resourceTimer == 0.0
              && r.1 == AddResource(ws, b.player, b.resourceType, b.resourceAmountPerCycle)
  {
    if !b.isResourceGenerator then (b, ws)
    else
      var timer := b.resourceTimer + dt;
      if timer >= b.resourceInterval then
        (b.(resourceTimer := 0.0), AddResource(ws, b.player, b.resourceType, b.resourceAmountPerCycle))
      else (b.(resourceTimer := timer), ws)
  }

  /** A completed cycle of an initialised Farm, WoodCutter or StonePit
      credits exactly 15 of its own resource to its owner and nothing
      else. */
  lemma GeneratorCycleCredits(b: SimBuilding, ws: World, dt: real, t: ResourceType)
    requires GeneratedResource(b.kind) != NoResource
    requires GetPlayer(ws, b.player).Some?
    requires InitializeBuildingStats(b).resourceTimer + dt >= RESOURCE_GENERATION_INTERVAL
    ensures var b0 := InitializeBuildingStats(b);
            var ws1 := UpdateResourceGeneration(b0, ws, dt).1;
            && GetPlayer(ws1, b.player).Some?
            && Stock(GetPlayer(ws1, b.player).value, t)
               == Stock(GetPlayer(ws, b.player).value, t) + (if t == GeneratedResource(b.kind) then RESOURCE_GENERATION_AMOUNT else 0)
  {
    var b0 := InitializeBuildingStats(b);
    CreditStock(GetPlayer(ws, b.player).value, GeneratedResource(b.kind), RESOURCE_GENERATION_AMOUNT, t);
  }

  // ---------------------------------------------------------------------
  // Towers.

  /** A unit a tower of player `pid` at `at` with range `range` may shoot:
      an enemy that is not dead and lies within the range circle. */
  function TowerCandidate(at: Int2, range: real, pid: int): SimUnit -> bool
  {
    (u: SimUnit) => u.player != pid && u.state != Dead && DistSq(u.pos, at) as real <= range * range
  }

  function DistanceFrom(at: Int2): SimUnit -> int
  {
    (u: SimUnit) => DistSq(u.pos, at)
  }

  /** `FindNearestEnemy`: a candidate at the least squared distance; the
      source's `<=` test lets the last such unit in enumeration order win. */
  function FindNearestEnemy(ws: World, at: Int2, range: real, pid: int): (r: Option<SimUnit>)
    ensures r.None? <==> forall i :: 0 <= i < |ws.units| ==> !TowerCandidate(at, range, pid)(ws.units[i])
    ensures r.Some? ==> r.value in ws.units
    ensures r.Some? ==> r.value.player != pid && r.value.state != Dead
    ensures r.Some? ==> DistSq(r.value.pos, at) as real <= range * range
    ensures r.Some? ==> forall u :: u in ws.units && TowerCandidate(at, range, pid)(u) ==> DistSq(r.value.pos, at) <= DistSq(u.pos, at)
  {
    match Select.NearestLast(ws.units, TowerCandidate(at, range, pid), DistanceFrom(at))
    case None => None
    case Some(i) => Some(ws.units[i])
  }

  /** A tower shot of `damage` at unit `u`: a survivor is written back with
      the reduced health; a unit at zero health or below is removed and its
      cell freed, without touching its owner's population count. Units with
      other IDs, buildings and players are untouched. */
  function ShootUnit(ws: World, u: SimUnit, damage: int): (r: World)
    requires ws.mapData.Valid()
    ensures r.mapData.Valid() && r.buildings == ws.buildings && r.players == ws.players
    ensures r.mapData.width == ws.mapData.width && r.mapData.height == ws.mapData.height
    ensures r.resources == ws.resources && r.idCounter == ws.idCounter
    ensures forall v :: v in ws.units && v.id != u.id ==> v in r.units
    ensures u.health - damage > 0 ==> r.mapData == ws.mapData && GetUnit(r, u.id) == (if GetUnit(ws, u.id).Some? then Some(u.(health := u.health - damage)) else None)
    ensures u.health - damage <= 0 ==> forall v :: v in r.units <==> v in ws.units && v.id != u.id
    ensures u.health - damage <= 0 && ws.mapData.InBounds(u.pos) ==> r.mapData.At(u.pos).occupant == NoOccupant
  {
    var hp := u.health - damage;
    if hp <= 0 then SetOccupant(RemoveUnit(ws, u.id), u.pos, NoOccupant)
    else PutUnit(ws, u.(health := hp))
  }

  /** `UpdateTowerCombat`: only towers act; the attack timer advances and,
      once it reaches the attack speed, the tower shoots the nearest
      candidate (resetting the timer and remembering the target) or, with
      none in range, clears its target and keeps the timer. A shot unit
      loses the tower's damage; at zero health or below it is removed and
      its cell freed. */
  function UpdateTowerCombat(b: SimBuilding, ws: World, dt: real): (r: (SimBuilding, World))
    requires ws.mapData.Valid()
    ensures r.1.mapData.Valid() && r.1.buildings == ws.buildings && r.1.players == ws.players
    ensures r.0.id == b.id && r.0.kind == b.kind && r.0.isConstructed == b.isConstructed
    ensures b.kind != Tower ==> r == (b, ws)
    ensures b.kind == Tower && b.attackTimer + dt < b.attackSpeed ==>
              r == (b.(attackTimer := b.attackTimer + dt), ws)
    ensures b.kind == Tower && b.attackTimer + dt >= b.attackSpeed ==>
              match FindNearestEnemy(ws, b.pos, b.attackRange, b.player)
              case None => r == (b.(attackTimer := b.attackTimer + dt, targetUnitId := -1), ws)
              case Some(u) => r == (b.(attackTimer := 0.0, targetUnitId := u.id), ShootUnit(ws, u, b.damage))
  {
    if b.kind != Tower then (b, ws)
    else
      var timer := b.attackTimer + dt;
      if timer < b.attackSpeed then (b.(attackTimer := timer), ws)
      else
        match FindNearestEnemy(ws, b.pos, b.attackRange, b.player)
        case None => (b.(attackTimer := timer, targetUnitId := -1), ws)
        case Some(u) => (b.(attackTimer := 0.0, targetUnitId := u.id), ShootUnit(ws, u, b.damage))
  }

  /** A tower never hits its own side: with unique unit IDs every unit of
      the tower's owner survives its shot. */
  lemma TowerSparesOwnSide(b: SimBuilding, ws: World, dt: real, u: SimUnit)
    requires ws.mapData.Valid() && b.kind == Tower && UniqueUnitIds(ws)
    requires u in ws.units && u.player == b.player
    ensures u in UpdateTowerCombat(b, ws, dt).1.units
  {
    var t := FindNearestEnemy(ws, b.pos, b.attackRange, b.player);
    if t.Some? {
      OwnersSeparateIds(ws, u, t.value);
    }
  }

  // ---------------------------------------------------------------------
  // The building pass.

  /** One constructed building's update: production, then generation, then
      tower fire, with the updated record written back at index `i`. */
  function UpdateBuildingAt(ws: World, i: nat, dt: real): (r: World)
    requires ws.mapData.Valid() && i < |ws.buildings|
    ensures r.mapData.Valid() && |r.buildings| == |ws.buildings| && r.tick == ws.tick
    ensures forall j :: 0 <= j < |ws.buildings| && j != i ==> r.buildings[j] == ws.buildings[j]
    ensures r.buildings[i].id == ws.buildings[i].id && r.buildings[i].kind == ws.buildings[i].kind
    ensures r.buildings[i].isConstructed == ws.buildings[i].isConstructed
    ensures !ws.buildings[i].isConstructed ==> r == ws
  {
    var b := ws.buildings[i];
    if !b.isConstructed then ws
    else
      var (b1, ws1) := UpdateProduction(b, ws, dt);
      var (b2, ws2) := UpdateResourceGeneration(b1, ws1, dt);
      var (b3, ws3) := UpdateTowerCombat(b2, ws2, dt);
      ws3.(buildings := ws3.buildings[i := b3])
  }

  /** `UpdateAllBuildings` from index `i` on. */
  function UpdateBuildingsFrom(ws: World, i: nat, dt: real): (r: World)
    requires ws.mapData.Valid() && i <= |ws.buildings|
    ensures r.mapData.Valid() && |r.buildings| == |ws.buildings| && r.tick == ws.tick
    ensures forall j :: 0 <= j < |ws.buildings| ==>
              r.buildings[j].id == ws.buildings[j].id && r.buildings[j].kind == ws.buildings[j].kind
              && r.buildings[j].isConstructed == ws.buildings[j].isConstructed
    ensures forall j :: 0 <= j < i ==> r.buildings[j] == ws.buildings[j]
    ensures forall j :: i <= j < |ws.buildings| && !ws.buildings[j].isConstructed ==> r.buildings[j] == ws.buildings[j]
    decreases |ws.buildings| - i
  {
    if i == |ws.buildings| then ws
    else UpdateBuildingsFrom(UpdateBuildingAt(ws, i, dt), i + 1, dt)
  }

  /** `UpdateAllBuildings`: every constructed building runs once; buildings
      are never added or removed, and unfinished ones stay as they are. */
  function UpdateAllBuildings(ws: World, dt: real): (r: World)
    requires ws.mapData.Valid()
    ensures r.mapData.Valid() && |r.buildings| == |ws.buildings| && r.tick == ws.tick
    ensures forall j :: 0 <= j < |ws.buildings| ==>
              r.buildings[j].id == ws.buildings[j].id && r.buildings[j].kind == ws.buildings[j].kind
              && r.buildings[j].isConstructed == ws.buildings[j].isConstructed
    ensures forall j :: 0 <= j < |ws.buildings| && !ws.buildings[j].isConstructed ==> r.buildings[j] == ws.buildings[j]
  {
    UpdateBuildingsFrom(ws, 0, dt)
  }
}
