/** The economy-boom bot (`EcoBoomAI`): a quarter-second decision that
    grows the economy in a balanced way, places buildings on a road grid
    on its own side of the map, gathers by weighted deficits, and latches
    into war once the economy is complete. */
module EcoBoom {
  import opened Wrappers
  import opened Types
  import opened World
  import opened Config
  import opened Resources
  import opened Grid
  import opened Pace
  import opened Spots
  import opened Crew
  import opened Bots
  import Units
  import Select
  import SimMath

  const INTERVAL: real := 0.25
  const TARGET_WORKER_COUNT: int := 15
  const ECO_BUILDINGS_PER_TOWER: int := 9
  const ATTACK_TRIGGER_SOLDIER_COUNT: int := 10
  const MAX_BARRACKS: int := 3
  const WAR_STOCK: int := 2500
  const PLACE_RADIUS: int := 12
  const PLACE_TRIES: int := 50

  /** Decisions come at most once per quarter second of frame time. */
  lemma {:induction false} FourPerSecond(timer: real, dts: seq<real>)
    requires timer >= 0.0 && NonNegative(dts)
    ensures Decisions(timer, dts, INTERVAL) as real <= 4.0 * (timer + Sum(dts))
  {
    DecisionsRationed(timer, dts, INTERVAL);
  }

  // ---------------------------------------------------------------------
  // War mode.

  /** The war latch after one decision: once set it stays set; it is set
      at fifteen workers with more than 2500 wood or meat. */
  function WarLatch(active: bool, workers: int, p: SimPlayer): (r: bool)
    ensures active ==> r
    ensures !active ==> (r <==> workers >= TARGET_WORKER_COUNT && (p.wood > WAR_STOCK || p.meat > WAR_STOCK))
  {
    if active then true
    else workers >= TARGET_WORKER_COUNT && (p.wood > WAR_STOCK || p.meat > WAR_STOCK)
  }

  /** The latch over a run of decisions, each seeing a worker count and the
      player's stock. */
  function WarRun(active: bool, obs: seq<(int, SimPlayer)>): bool
    decreases |obs|
  {
    if |obs| == 0 then active else WarRun(WarLatch(active, obs[0].0, obs[0].1), obs[1..])
  }

  /** The latch is never cleared, and it is set after any decision that saw
      fifteen workers and a large enough stock. */
  lemma {:induction false} WarNeverClears(active: bool, obs: seq<(int, SimPlayer)>, k: nat)
    requires k < |obs| ==> obs[k].0 >= TARGET_WORKER_COUNT && (obs[k].1.wood > WAR_STOCK || obs[k].1.meat > WAR_STOCK)
    ensures active ==> WarRun(active, obs)
    ensures k < |obs| ==> WarRun(active, obs)
    decreases |obs|
  {
    if |obs| > 0 {
      var next := WarLatch(active, obs[0].0, obs[0].1);
      if k == 0 {
        WarNeverClears(next, obs[1..], |obs|);
      } else {
        assert k < |obs| ==> obs[1..][k - 1] == obs[k];
        WarNeverClears(next, obs[1..], k - 1);
      }
    }
  }

  // ---------------------------------------------------------------------
  // The decision's stages.

  datatype Stage = BuildHouse | WarLogic | TrainWorker | BuildTower | Expand

  /** Which stage a decision runs: the house at the population cap, then
      war mode, then a worker (under fifteen, with an idle base), then a
      tower when defence is needed, else expansion. */
  function StageOf(atCap: bool, war: bool, workers: int, baseIdle: bool, defence: bool): (s: Stage)
    ensures s == BuildHouse <==> atCap
    ensures s == WarLogic <==> !atCap && war
    ensures s == TrainWorker <==> !atCap && !war && workers < TARGET_WORKER_COUNT && baseIdle
    ensures s == BuildTower <==> !atCap && !war && !(workers < TARGET_WORKER_COUNT && baseIdle) && defence
    ensures s == Expand <==> !atCap && !war && !(workers < TARGET_WORKER_COUNT && baseIdle) && !defence
  {
    if atCap then BuildHouse
    else if war then WarLogic
    else if workers < TARGET_WORKER_COUNT && baseIdle then TrainWorker
    else if defence then BuildTower
    else Expand
  }

  function EcoBuilding(pid: int): SimBuilding -> bool
  {
    (b: SimBuilding) => b.player == pid && (b.kind == Farm || b.kind == WoodCutter || b.kind == StonePit)
  }

  /** `CheckDefenseNeeds`: one tower per nine economy buildings; a tower
      is wanted exactly when one more tower would still be covered. */
  function CheckDefenseNeeds(ws: World, pid: int): (r: bool)
    ensures var eco, towers := Select.Count(ws.buildings, EcoBuilding(pid)), Select.Count(ws.buildings, OwnKind(pid, Tower));
            r <==> ECO_BUILDINGS_PER_TOWER * (towers + 1) <= eco
  {
    var eco := Select.Count(ws.buildings, EcoBuilding(pid));
    var towers := Select.Count(ws.buildings, OwnKind(pid, Tower));
    eco > 0 && towers < eco / ECO_BUILDINGS_PER_TOWER
  }

  /** Below nine economy buildings no tower is ever wanted. */
  lemma NoTowerBelowNine(ws: World, pid: int)
    requires Select.Count(ws.buildings, EcoBuilding(pid)) < ECO_BUILDINGS_PER_TOWER
    ensures !CheckDefenseNeeds(ws, pid)
  {
  }

  // ---------------------------------------------------------------------
  // Expansion.

  /** The count of one economy type among the three. */
  function CountOf(kind: BuildingType, farms: int, cutters: int, pits: int): int
  {
    if kind == Farm then farms else if kind == StonePit then pits else cutters
  }

  /** The type `ManageEconomyExpansion` builds: a Farm when farms are
      fewest (ties included), else a StonePit when pits are strictly fewer
      than cutters, else a WoodCutter. The chosen type always has the least
      count. */
  function Expansion(farms: int, cutters: int, pits: int): (k: BuildingType)
    ensures k == Farm || k == StonePit || k == WoodCutter
    ensures CountOf(k, farms, cutters, pits) <= farms && CountOf(k, farms, cutters, pits) <= cutters
            && CountOf(k, farms, cutters, pits) <= pits
    ensures k == Farm <==> farms <= cutters && farms <= pits
    ensures k == StonePit ==> pits < farms && pits < cutters
    ensures k == WoodCutter ==> cutters < farms && cutters <= pits
  {
    if farms <= cutters && farms <= pits then Farm
    else if pits < cutters then StonePit
    else WoodCutter
  }

  /** The price of an economy type. */
  function ExpansionCost(cfg: Config, k: BuildingType): Cost
  {
    if k == Farm then cfg.farm else if k == StonePit then cfg.stonePit else cfg.woodCutter
  }

  // ---------------------------------------------------------------------
  // Placement.

  /** The placement rules: neither coordinate a multiple of three (the
      road grid), in bounds and flagged walkable, and, when the enemy has a
      base, not nearer to it than to the own base. */
  predicate GridSpot(ws: World, home: Int2, enemy: Option<Int2>, p: Int2)
    requires ws.mapData.Valid()
  {
    p.x % 3 != 0 && p.y % 3 != 0 && NodeFlagWalkable(ws, p)
    && (enemy.None? || DistSq(p, enemy.value) >= DistSq(p, home))
  }

  function GridRule(ws: World, home: Int2, enemy: Option<Int2>): Int2 -> bool
    requires ws.mapData.Valid()
  {
    (p: Int2) => GridSpot(ws, home, enemy, p)
  }

  function PosOf(b: Option<SimBuilding>): Option<Int2>
  {
    match b
    case None => None
    case Some(x) => Some(x.pos)
  }

  /** What a build attempt did. */
  datatype BuildTry = AlreadyBuilding | Placed(pos: Int2) | NotBuilt
  {
    /** The source's boolean: true unless nothing was built. */
    predicate Succeeded() { !NotBuilt? }
  }

  /** `TryBuildBuilding`: with one of that type already under construction
      it succeeds without spending; otherwise, with the price, an idle
      worker and a base, the first of the fifty tries (offsets within 12)
      that keeps the placement rules is paid for, the building is created
      there and the first idle worker is ordered to build it. */
  function TryBuildBuilding(ws: World, pid: int, kind: BuildingType, cost: Cost, offsets: seq<Int2>): (r: (BuildTry, World))
    requires ws.mapData.Valid()
    requires |offsets| == PLACE_TRIES && OffsetsWithin(offsets, PLACE_RADIUS)
    ensures r.0 == AlreadyBuilding <==> Select.Any(ws.buildings, OwnUnfinished(pid, kind))
    ensures !r.0.Placed? ==> r.1 == ws
    ensures r.0.Placed? ==>
              var home := BaseOf(ws, pid);
              var enemy := PosOf(Select.FirstWhere(ws.buildings, EnemyKind(pid, Base)));
              && CanAfford(ws, pid, cost) && Select.Any(ws.units, IdleWorkerOf(pid)) && home.Some?
              && r.0.pos.x % 3 != 0 && r.0.pos.y % 3 != 0 && NodeFlagWalkable(ws, r.0.pos)
              && (enemy.None? || DistSq(r.0.pos, enemy.value) >= DistSq(r.0.pos, home.value.pos))
              && Chebyshev(r.0.pos, home.value.pos) <= PLACE_RADIUS
              && GetPlayer(r.1, pid) == Some(Paid(GetPlayer(ws, pid).value, cost))
    ensures r.0.Placed? ==> r.1.mapData.Valid() && IdleWorker(ws, pid).Some?
                            && Erected(ws, r.1, pid, IdleWorker(ws, pid).value, kind, r.0.pos, cost)
    ensures r.0 == NotBuilt && CanAfford(ws, pid, cost) && Select.Any(ws.units, IdleWorkerOf(pid)) && BaseOf(ws, pid).Some? ==>
              var home := BaseOf(ws, pid).value.pos;
              var enemy := PosOf(Select.FirstWhere(ws.buildings, EnemyKind(pid, Base)));
              forall i :: 0 <= i < |offsets| ==> !GridSpot(ws, home, enemy, Add(home, offsets[i]))
  {
    if Select.Any(ws.buildings, OwnUnfinished(pid, kind)) then (AlreadyBuilding, ws)
    else if !CanAfford(ws, pid, cost) || !Select.Any(ws.units, IdleWorkerOf(pid)) then (NotBuilt, ws)
    else
      var home := BaseOf(ws, pid);
      if home.None? then (NotBuilt, ws)
      else
        var enemy := PosOf(Select.FirstWhere(ws.buildings, EnemyKind(pid, Base)));
        var worker := IdleWorker(ws, pid).value;
        var (spot, ws1) := PlaceAround(ws, pid, worker, kind, home, offsets, GridRule(ws, home.value.pos, enemy), cost);
        if spot.None? then (NotBuilt, ws)
        else
          PlacedNearBase(ws, pid, worker, kind, home, offsets, GridRule(ws, home.value.pos, enemy), cost, PLACE_RADIUS);
          (Placed(spot.value), ws1)
  }

  // ---------------------------------------------------------------------
  // Gathering by weighted deficits.

  /** `max(0, need − stock)` per resource; when nothing is missing every
      deficit becomes one, so the weights always have a positive sum. */
  function Deficits(p: SimPlayer, c: Cost): (d: (nat, nat, nat))
    ensures d.0 + d.1 + d.2 > 0
    ensures (p.wood >= c.wood && p.stone >= c.stone && p.meat >= c.meat) ==> d == (1, 1, 1)
    ensures !(p.wood >= c.wood && p.stone >= c.stone && p.meat >= c.meat) ==>
              (d.0 as int == if c.wood > p.wood then c.wood - p.wood else 0)
              && (d.1 as int == if c.stone > p.stone then c.stone - p.stone else 0)
              && (d.2 as int == if c.meat > p.meat then c.meat - p.meat else 0)
  {
    var w := SimMath.MaxInt(0, c.wood - p.wood);
    var s := SimMath.MaxInt(0, c.stone - p.stone);
    var m := SimMath.MaxInt(0, c.meat - p.meat);
    if w == 0 && s == 0 && m == 0 then (1, 1, 1) else (w, s, m)
  }

  /** The type one draw `u` picks: Wood below `dW/total`, Stone below
      `(dW + dS)/total`, else Meat. */
  function Pick(d: (nat, nat, nat), u: real): (t: ResourceType)
    requires d.0 + d.1 + d.2 > 0
    ensures t == Wood || t == Stone || t == Meat
  {
    var total := (d.0 + d.1 + d.2) as real;
    if u < d.0 as real / total then Wood
    else if u < (d.0 + d.1) as real / total then Stone
    else Meat
  }

  /** For a draw in `[0, 1)` a resource with no deficit is never picked.
      (The draw's range includes 1.0, which always reaches Meat.) */
  lemma ZeroDeficitNeverPicked(d: (nat, nat, nat), u: real)
    requires d.0 + d.1 + d.2 > 0 && 0.0 <= u < 1.0
    ensures d.0 == 0 ==> Pick(d, u) != Wood
    ensures d.1 == 0 ==> Pick(d, u) != Stone
    ensures d.2 == 0 ==> Pick(d, u) != Meat
  {
    var total := (d.0 + d.1 + d.2) as real;
    if d.2 == 0 {
      assert (d.0 + d.1) as real / total == 1.0;
    }
  }

  function PickEach(d: (nat, nat, nat), draw: nat -> real): nat -> ResourceType
    requires d.0 + d.1 + d.2 > 0
  {
    (k: nat) => Pick(d, draw(k))
  }

  /** `AssignSmartGatherTasks`: each idle worker of the player, the `k`-th
      reading draw `draw(k)`, goes to the nearest node of the type its draw
      picks, else to the nearest wood. Only those workers change; with
      unique IDs the `k`-th ends as `GatherOrder` leaves it for its pick. */
  function AssignSmartGatherTasks(ws: World, pid: int, c: Cost, draw: nat -> real): (r: World)
    requires ws.mapData.Valid()
    ensures r == ws.(units := r.units) && |r.units| == |ws.units|
    ensures forall q :: q !in Ids(Select.Filter(ws.units, IdleWorkerOf(pid))) ==> GetUnit(r, q) == GetUnit(ws, q)
    ensures GetPlayer(ws, pid).None? ==> r == ws
    ensures UniqueUnitIds(ws) && GetPlayer(ws, pid).Some? ==>
              var idle := Select.Filter(ws.units, IdleWorkerOf(pid));
              var d := Deficits(GetPlayer(ws, pid).value, c);
              forall i :: 0 <= i < |idle| ==>
                idle[i] in ws.units && idle[i].player == pid && idle[i].kind == Worker && idle[i].state == Idle &&
                GetUnit(r, idle[i].id) == Some(GatherOrder(ws, idle[i], Pick(d, draw(i)), Some(Wood)))
  {
    match GetPlayer(ws, pid)
    case None => ws
    case Some(p) =>
      var d := Deficits(p, c);
      var idle := Select.Filter(ws.units, IdleWorkerOf(pid));
      var r := SendToGather(ws, idle, 0, PickEach(d, draw), Some(Wood));
      assert UniqueUnitIds(ws) ==>
               forall i :: 0 <= i < |idle| ==>
                 idle[i] in ws.units && idle[i].player == pid && idle[i].kind == Worker && idle[i].state == Idle &&
                 GetUnit(r, idle[i].id) == Some(GatherOrder(ws, idle[i], Pick(d, draw(i)), Some(Wood))) by {
        if UniqueUnitIds(ws) {
          FilterStored(ws, IdleWorkerOf(pid));
          forall i | 0 <= i < |idle|
            ensures idle[i] in ws.units && idle[i].player == pid && idle[i].kind == Worker && idle[i].state == Idle
            ensures GetUnit(r, idle[i].id) == Some(GatherOrder(ws, idle[i], Pick(d, draw(i)), Some(Wood)))
          {
            assert idle[i] in idle && IdleWorkerOf(pid)(idle[i]);
            assert PickEach(d, draw)(0 + i) == Pick(d, draw(i));
          }
        }
      }
      r
  }

  // ---------------------------------------------------------------------
  // War logic.

  /** `PerformAttack`: every idle soldier attacks the common target, or
      walks to the map centre when no enemy is left; only those soldiers
      change, and with unique IDs each ends as that order leaves it. */
  function PerformAttack(cfg: Config, ws: World, pid: int): (r: World)
    requires ws.mapData.Valid()
    ensures r == ws.(units := r.units) && |r.units| == |ws.units|
    ensures forall q :: q !in Ids(Select.Filter(ws.units, OwnIdle(pid, Soldier))) ==> GetUnit(r, q) == GetUnit(ws, q)
    ensures UniqueUnitIds(ws) && AttackTarget(ws, pid).NoTarget? ==>
              forall s :: s in ws.units && s.player == pid && s.kind == Soldier && s.state == Idle ==>
                GetUnit(r, s.id) == Some(Units.OrderMove(ws, s, Centre(cfg)))
    ensures UniqueUnitIds(ws) && !AttackTarget(ws, pid).NoTarget? ==>
              forall s :: s in ws.units && s.player == pid && s.kind == Soldier && s.state == Idle ==>
                GetUnit(r, s.id) == Some(Attack(ws, s, AttackTarget(ws, pid)))
  {
    var squad := Select.Filter(ws.units, OwnIdle(pid, Soldier));
    FilterStored(ws, OwnIdle(pid, Soldier));
    assert forall s :: s in ws.units && s.player == pid && s.kind == Soldier && s.state == Idle ==> OwnIdle(pid, Soldier)(s);
    match AttackTarget(ws, pid)
    case NoTarget => MarchAll(ws, squad, Centre(cfg))
    case t => AttackAll(ws, squad, t)
  }

  /** The war step's barracks test: a barracks is attempted while fewer
      than three exist. */
  predicate WantsBarracks(ws: World, pid: int)
  {
    Select.Count(ws.buildings, OwnKind(pid, Barracks)) < MAX_BARRACKS
  }

  /** The war step's attack test: ten soldiers of the player. */
  predicate AttackDue(ws: World, pid: int)
  {
    Select.Count(ws.units, OwnUnitKind(pid, Soldier)) >= ATTACK_TRIGGER_SOLDIER_COUNT
  }
}
