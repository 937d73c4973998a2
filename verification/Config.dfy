/** Simulation constants. The tuning constants that the configuration
    class declares are fixed here; the costs and map dimensions that other
    code reads from it but that it does not declare are parameters of the
    model, gathered in a `Config` record with non-negative fields. */
module Config {

  // --- units ---
  const WORKER_MOVE_SPEED: real := 5.0
  const SOLDIER_MOVE_SPEED: real := 4.0
  const WORKER_MAX_HEALTH: int := 50
  const SOLDIER_MAX_HEALTH: int := 120

  // --- combat ---
  const SOLDIER_DAMAGE: int := 15
  const SOLDIER_ATTACK_SPEED: real := 1.5
  const SOLDIER_ATTACK_RANGE: real := 1.5
  const TOWER_DAMAGE: int := 25
  const TOWER_ATTACK_SPEED: real := 2.0
  const TOWER_ATTACK_RANGE: real := 5.0

  // --- gathering and building ---
  const GATHER_INTERVAL: real := 0.5
  const GATHER_AMOUNT: int := 10
  const BUILD_INTERVAL: real := 1.0
  const BUILD_AMOUNT_PER_TICK: real := 10.0
  const BUILDING_MAX_PROGRESS: real := 100.0

  // --- production ---
  const WORKER_TRAIN_TIME: real := 2.0
  const SOLDIER_TRAIN_TIME: real := 8.0
  const RESOURCE_GENERATION_INTERVAL: real := 5.0
  const RESOURCE_GENERATION_AMOUNT: int := 15

  // --- declared costs and population ---
  const WORKER_COST_MEAT: int := 50
  const BARRACKS_COST_WOOD: int := 1000
  const BARRACKS_COST_STONE: int := 1000
  const POPULATION_BASE: int := 10
  const POPULATION_HOUSE: int := 5

  /** A price in the three stocks. */
  datatype Cost = Cost(wood: int, stone: int, meat: int)
  {
    predicate NonNeg() { wood >= 0 && stone >= 0 && meat >= 0 }
  }

  const Free: Cost := Cost(0, 0, 0)

  /** The configuration values read but not declared by the configuration
      class. */
  datatype Config = Config(
    workerWood: nat, workerStone: nat,
    soldierWood: nat, soldierStone: nat, soldierMeat: nat,
    barracksMeat: nat,
    house: Cost, farm: Cost, woodCutter: Cost, stonePit: Cost, tower: Cost, wall: Cost,
    mapWidth: nat, mapHeight: nat, baseMaxHealth: int)
  {
    predicate Valid()
    {
      house.NonNeg() && farm.NonNeg() && woodCutter.NonNeg() && stonePit.NonNeg()
      && tower.NonNeg() && wall.NonNeg() && baseMaxHealth >= 0
    }

    function WorkerCost(): (c: Cost)
      ensures c.meat == WORKER_COST_MEAT && c.NonNeg()
    {
      Cost(workerWood, workerStone, WORKER_COST_MEAT)
    }

    function SoldierCost(): (c: Cost)
      ensures c.NonNeg()
    {
      Cost(soldierWood, soldierStone, soldierMeat)
    }

    function BarracksCost(): (c: Cost)
      ensures c.wood == BARRACKS_COST_WOOD && c.stone == BARRACKS_COST_STONE && c.NonNeg()
    {
      Cost(BARRACKS_COST_WOOD, BARRACKS_COST_STONE, barracksMeat)
    }
  }
}
