/** The parametric commander (`ParametricMacroAI`): the decoding of its
    thirteen genes, its tower quota, its base-defence check, the gather
    choice of its worker manager and its build orders. Its decision clock
    is `Pace.Throttle` with a quarter-second interval. */
module Parametric {
  import opened Wrappers
  import opened Types
  import opened World
  import opened Config
  import opened SimMath
  import opened Resources
  import opened Grid
  import opened Units
  import opened Spots
  import opened Crew
  import Select

  // ---------------------------------------------------------------------
  // Gene decoding.

  datatype Plan = Plan(targetWorker: int, targetSoldier: int, attackThreshold: int, defenseRatio: real,
                       targetBarracks: int, ecoBias: real, targetFarm: int, targetWoodCutter: int,
                       targetStonePit: int, houseBuffer: int, towerPosBias: real, defenseRadius: real,
                       safeSaveThreshold: int)

  const GENE_COUNT: nat := 13

  /** The commander's reading of the genes. */
  function DecodeGenes(g: seq<real>): (p: Plan)
    requires |g| >= GENE_COUNT
    ensures 3 <= p.targetWorker <= 50 && 5 <= p.targetSoldier <= 80 && 5 <= p.attackThreshold <= 60
    ensures 1 <= p.targetBarracks <= 5 && 1 <= p.houseBuffer <= 10
    ensures 0 <= p.targetFarm <= 5 && 0 <= p.targetWoodCutter <= 5 && 0 <= p.targetStonePit <= 5
    ensures 0.0 <= p.defenseRatio <= 1.0 && 0.0 <= p.ecoBias <= 1.0 && 0.0 <= p.towerPosBias <= 1.0
    ensures p.defenseRadius == 5.0 + g[11]
    ensures 5 <= p.safeSaveThreshold <= 20
  {
    var genSave := ClampInt(RoundToInt(g[12] / 2.0), 0, 20);
    Plan(ClampInt(RoundToInt(g[0]), 3, 50),
         ClampInt(RoundToInt(g[1]), 5, 80),
         ClampInt(RoundToInt(g[2]), 5, 60),
         Clamp01(g[3] / 20.0),
         ClampInt(RoundToInt(g[4] / 5.0), 1, 5),
         Clamp01(g[5] / 40.0),
         ClampInt(RoundToInt(g[6] / 5.0), 0, 5),
         ClampInt(RoundToInt(g[7] / 5.0), 0, 5),
         ClampInt(RoundToInt(g[8] / 2.0), 0, 5),
         ClampInt(RoundToInt(g[9] / 4.0), 1, 10),
         Clamp01(g[10] / 40.0),
         5.0 + g[11],
         MaxInt(5, genSave))
  }

  /** A gene inside its clamp range reads as its rounded value, and a
      larger gene never reads as a smaller target. */
  lemma DecodeFaithful(g: seq<real>, h: seq<real>)
    requires |g| >= GENE_COUNT && |h| >= GENE_COUNT
    requires forall i :: 0 <= i < GENE_COUNT ==> g[i] <= h[i]
    ensures 3 <= RoundToInt(g[0]) <= 50 ==> DecodeGenes(g).targetWorker == RoundToInt(g[0])
    ensures DecodeGenes(g).targetWorker <= DecodeGenes(h).targetWorker
    ensures DecodeGenes(g).targetSoldier <= DecodeGenes(h).targetSoldier
    ensures DecodeGenes(g).attackThreshold <= DecodeGenes(h).attackThreshold
    ensures DecodeGenes(g).targetBarracks <= DecodeGenes(h).targetBarracks
    ensures DecodeGenes(g).targetFarm <= DecodeGenes(h).targetFarm
    ensures DecodeGenes(g).safeSaveThreshold <= DecodeGenes(h).safeSaveThreshold
  {
    RoundMonotone(g[0], h[0], 0);
    RoundMonotone(g[1], h[1], 0);
    RoundMonotone(g[2], h[2], 0);
    RoundMonotone(g[4] / 5.0, h[4] / 5.0, 0);
    RoundMonotone(g[6] / 5.0, h[6] / 5.0, 0);
    RoundMonotone(g[12] / 2.0, h[12] / 2.0, 0);
    ClampIdempotentMonotone(RoundToInt(g[0]), RoundToInt(h[0]), 3, 50);
    ClampIdempotentMonotone(RoundToInt(g[1]), RoundToInt(h[1]), 5, 80);
    ClampIdempotentMonotone(RoundToInt(g[2]), RoundToInt(h[2]), 5, 60);
    ClampIdempotentMonotone(RoundToInt(g[4] / 5.0), RoundToInt(h[4] / 5.0), 1, 5);
    ClampIdempotentMonotone(RoundToInt(g[6] / 5.0), RoundToInt(h[6] / 5.0), 0, 5);
    ClampIdempotentMonotone(RoundToInt(g[12] / 2.0), RoundToInt(h[12] / 2.0), 0, 20);
  }

  // ---------------------------------------------------------------------
  // Tower quota.

  /** The towers wanted: a share of the enemy soldiers plus ten. */
  function NeededTowers(enemySoldiers: nat, defenseRatio: real): (n: int)
    requires 0.0 <= defenseRatio <= 1.0
    ensures 0 <= n <= enemySoldiers + 10
    ensures defenseRatio == 0.0 ==> n == 0
    ensures defenseRatio == 1.0 ==> n == enemySoldiers + 10
  {
    ShareBounds(enemySoldiers + 10, defenseRatio);
    FloorToInt((enemySoldiers + 10) as real * defenseRatio)
  }

  lemma ShareBounds(n: nat, f: real)
    requires 0.0 <= f <= 1.0
    ensures 0.0 <= n as real * f <= n as real
  {
    assert n as real * (1.0 - f) >= 0.0;
  }

  /** A tower is attempted below the quota and below fifteen towers. */
  predicate AttemptTower(towerCount: int, enemySoldiers: nat, defenseRatio: real)
    requires 0.0 <= defenseRatio <= 1.0
  {
    towerCount < NeededTowers(enemySoldiers, defenseRatio) && towerCount < 15
  }

  /** More enemy soldiers never lower the quota, and no attempt is made at
      fifteen towers, or at as many towers as the enemy has soldiers plus
      ten. */
  lemma QuotaMonotone(e1: nat, e2: nat, defenseRatio: real, towerCount: int)
    requires 0.0 <= defenseRatio <= 1.0 && e1 <= e2
    ensures NeededTowers(e1, defenseRatio) <= NeededTowers(e2, defenseRatio)
    ensures towerCount >= 15 || towerCount >= e1 + 10 ==> !AttemptTower(towerCount, e1, defenseRatio)
  {
    var a := (e1 + 10) as real * defenseRatio;
    var b := (e2 + 10) as real * defenseRatio;
    assert b - a == (e2 - e1) as real * defenseRatio;
    assert a <= b;
  }

  // ---------------------------------------------------------------------
  // Base defence.

  /** A live enemy soldier strictly inside the defence radius of `basePos`. */
  function Intruder(pid: int, basePos: Int2, radius: real): SimUnit -> bool
  {
    (u: SimUnit) => u.player != pid && u.state != Dead && u.kind == Soldier
                    && (DistSq(basePos, u.pos) as real) < radius * radius
  }

  function DistFromUnit(basePos: Int2): SimUnit -> int
  {
    (u: SimUnit) => DistSq(basePos, u.pos)
  }

  /** `CheckBaseDefense`'s target: none without a base; otherwise the first
      nearest intruder, none when there is no intruder. */
  function DefenceTarget(ws: World, pid: int, base: Option<SimBuilding>, radius: real): (r: Option<SimUnit>)
    ensures base.None? ==> r.None?
    ensures base.Some? ==> (r.Some? <==> Select.Any(ws.units, Intruder(pid, base.value.pos, radius)))
    ensures r.Some? ==> base.Some? && r.value in ws.units && Intruder(pid, base.value.pos, radius)(r.value)
    ensures r.Some? ==> forall v :: v in ws.units && Intruder(pid, base.value.pos, radius)(v) ==>
                                   DistSq(base.value.pos, r.value.pos) <= DistSq(base.value.pos, v.pos)
  {
    if base.None? then None
    else match Select.NearestFirst(ws.units, Intruder(pid, base.value.pos, radius), DistFromUnit(base.value.pos))
      case None => None
      case Some(i) => Some(ws.units[i])
  }

  /** The soldiers a defence alarm sends: those not attacking and not
      already after the intruder. */
  predicate Responds(s: SimUnit, target: SimUnit)
  {
    s.kind == Soldier && s.state != Attacking && s.targetId != target.id
  }

  /** One unit under the alarm: a responding soldier is sent after the
      intruder, to the intruder's own cell; any other unit is left alone. */
  function Defend(ws: World, s: SimUnit, target: SimUnit): (r: SimUnit)
    requires ws.mapData.Valid()
    ensures r == s.(path := r.path, targetId := r.targetId, state := r.state)
    ensures !Responds(s, target) ==> r == s
    ensures Responds(s, target) ==>
              r.targetId == target.id && r.path == PathFinding.FindPath(ws, s.pos, target.pos) &&
              r.state == TaskOnArrival(r.path, Attacking)
  {
    if Responds(s, target) then OrderAttackUnit(ws, s, target) else s
  }

  /** The alarm's orders: each unit of `mine` is handled as `Defend` says,
      against the world as it stood when the loop began. Only the listed
      units change; when no soldier responds nothing changes; with distinct
      IDs each listed unit ends as `Defend` leaves it. */
  function SendDefenders(ws: World, mine: seq<SimUnit>, target: SimUnit): (r: World)
    requires ws.mapData.Valid()
    ensures r == ws.(units := r.units) && |r.units| == |ws.units|
    ensures forall q :: q !in Ids(mine) ==> GetUnit(r, q) == GetUnit(ws, q)
    ensures (forall i :: 0 <= i < |mine| ==> !Responds(mine[i], target)) ==> r == ws
    ensures DistinctUnitIds(mine) ==>
              forall s :: s in mine && GetUnit(ws, s.id) == Some(s) ==> GetUnit(r, s.id) == Some(Defend(ws, s, target))
  {
    OrderAll(ws, mine, (s: SimUnit) => Defend(ws, s, target))
  }

  function OwnUnit(pid: int): SimUnit -> bool
  {
    (u: SimUnit) => u.player == pid
  }

  /** `CheckBaseDefense`: true exactly when there is an intruder, and then
      the responding soldiers of the player are sent after the nearest.
      Units of other players keep their records; with unique IDs each unit
      of the player ends as `Defend` leaves it. */
  function CheckBaseDefense(ws: World, pid: int, base: Option<SimBuilding>, radius: real): (r: (bool, World))
    requires ws.mapData.Valid()
    ensures r.0 <==> base.Some? && Select.Any(ws.units, Intruder(pid, base.value.pos, radius))
    ensures !r.0 ==> r.1 == ws
    ensures r.1 == ws.(units := r.1.units) && |r.1.units| == |ws.units|
    ensures r.0 ==> r.1 == SendDefenders(ws, Select.Filter(ws.units, OwnUnit(pid)), DefenceTarget(ws, pid, base, radius).value)
    ensures forall q :: q !in Ids(Select.Filter(ws.units, OwnUnit(pid))) ==> GetUnit(r.1, q) == GetUnit(ws, q)
    ensures r.0 && UniqueUnitIds(ws) ==>
              forall s :: s in ws.units && s.player == pid ==>
                GetUnit(r.1, s.id) == Some(Defend(ws, s, DefenceTarget(ws, pid, base, radius).value))
  {
    FilterStored(ws, OwnUnit(pid));
    match DefenceTarget(ws, pid, base, radius)
    case None => (false, ws)
    case Some(t) =>
      var r := SendDefenders(ws, Select.Filter(ws.units, OwnUnit(pid)), t);
      assert forall s :: s in ws.units && s.player == pid ==> OwnUnit(pid)(s);
      (true, r)
  }

  // ---------------------------------------------------------------------
  // Gathering.

  /** The gather type of an idle worker: meat below a worker's price, then
      wood below a house's, then stone below a tower's; with all three met,
      the draw splits a quarter to stone, `ecoBias` of the rest to meat and
      the remainder to wood. */
  function GatherType(cfg: Config, p: SimPlayer, draw: real, ecoBias: real): (t: ResourceType)
    ensures p.meat < WORKER_COST_MEAT ==> t == Meat
    ensures p.meat >= WORKER_COST_MEAT && p.wood < cfg.house.wood ==> t == Wood
    ensures p.meat >= WORKER_COST_MEAT && p.wood >= cfg.house.wood && p.stone < cfg.tower.stone ==> t == Stone
    ensures p.meat >= WORKER_COST_MEAT && p.wood >= cfg.house.wood && p.stone >= cfg.tower.stone ==>
              (t == Stone <==> draw < 0.25)
              && (t == Meat <==> 0.25 <= draw < 0.25 + ecoBias * 0.75)
              && (t == Wood <==> draw >= 0.25 && draw >= 0.25 + ecoBias * 0.75)
  {
    if p.meat < WORKER_COST_MEAT then Meat
    else if p.wood < cfg.house.wood then Wood
    else if p.stone < cfg.tower.stone then Stone
    else if draw < 0.25 then Stone
    else if draw < 0.25 + ecoBias * 0.75 then Meat
    else Wood
  }

  /** A stronger economy bias never turns a meat draw into another type. */
  lemma MeatShareGrowsWithBias(cfg: Config, p: SimPlayer, draw: real, b1: real, b2: real)
    requires b1 <= b2
    requires GatherType(cfg, p, draw, b1) == Meat
    ensures GatherType(cfg, p, draw, b2) == Meat
  {
  }

  /** One idle worker of the manager, reading draw `d`: sent to the nearest
      node of its type, else of any type; left as it is when no node is
      left or no cell around the node is walkable. */
  function GatherOne(cfg: Config, ws: World, w: SimUnit, p: SimPlayer, ecoBias: real, d: real): (r: SimUnit)
    requires ws.mapData.Valid()
    ensures r == w.(path := r.path, targetId := r.targetId, state := r.state)
    ensures |ws.resources| == 0 ==> r == w
    ensures |ws.resources| > 0 ==>
              var res := GatherTarget(ws, w.pos, GatherType(cfg, p, d, ecoBias), false).value;
              res in ws.resources &&
              ((forall q :: Adjacent(res.pos, q) ==> !IsWalkable(ws, q)) ==> r == w) &&
              (!(forall q :: Adjacent(res.pos, q) ==> !IsWalkable(ws, q)) ==>
                 r.targetId == res.id && (r.state == Moving || r.state == Gathering))
  {
    match GatherTarget(ws, w.pos, GatherType(cfg, p, d, ecoBias), false)
    case None => w
    case Some(res) => TryAssignGatherTask(ws, w, res).1
  }

  /** The gather orders of the idle workers, the `k`-th of them reading
      draw `draw(k)`, against the world as it stood when the loop began.
      Only the listed workers change; with distinct IDs the `k`-th ends as
      `GatherOne` leaves it for its draw. */
  function AssignGather(cfg: Config, ws: World, workers: seq<SimUnit>, k: nat, p: SimPlayer, ecoBias: real,
                        draw: nat -> real): (r: World)
    requires ws.mapData.Valid()
    ensures r == ws.(units := r.units) && |r.units| == |ws.units|
    ensures forall q :: q !in Ids(workers) ==> GetUnit(r, q) == GetUnit(ws, q)
    ensures DistinctUnitIds(workers) ==>
              forall i :: 0 <= i < |workers| && GetUnit(ws, workers[i].id) == Some(workers[i]) ==>
                GetUnit(r, workers[i].id) == Some(GatherOne(cfg, ws, workers[i], p, ecoBias, draw(k + i)))
  {
    var f := (i: nat, w: SimUnit) => GatherOne(cfg, ws, w, p, ecoBias, draw(i));
    assert KeepsIds(workers, k, f) by {
      forall i | 0 <= i < |workers| ensures f(k + i, workers[i]).id == workers[i].id {
        var u := GatherOne(cfg, ws, workers[i], p, ecoBias, draw(k + i));
        assert u == workers[i].(path := u.path, targetId := u.targetId, state := u.state);
      }
    }
    OrderEach(ws, workers, k, f)
  }

  /** `ManageWorkers`: nothing once the map holds no resource node;
      otherwise gather orders for every idle worker of the player, the
      `i`-th of them (in unit order) reading the `i`-th draw. Units of
      others and busy units keep their records. */
  function ManageWorkers(cfg: Config, ws: World, pid: int, p: SimPlayer, ecoBias: real, draw: nat -> real): (r: World)
    requires ws.mapData.Valid()
    ensures |ws.resources| == 0 ==> r == ws
    ensures r == ws.(units := r.units) && |r.units| == |ws.units|
    ensures forall q :: q !in Ids(Select.Filter(ws.units, IdleWorkerOf(pid))) ==> GetUnit(r, q) == GetUnit(ws, q)
    ensures UniqueUnitIds(ws) ==>
              var idle := Select.Filter(ws.units, IdleWorkerOf(pid));
              forall i :: 0 <= i < |idle| ==>
                idle[i] in ws.units && idle[i].player == pid && idle[i].kind == Worker && idle[i].state == Idle &&
                GetUnit(r, idle[i].id) == Some(GatherOne(cfg, ws, idle[i], p, ecoBias, draw(i)))
  {
    var idle := Select.Filter(ws.units, IdleWorkerOf(pid));
    FilterStored(ws, IdleWorkerOf(pid));
    assert forall i :: 0 <= i < |idle| ==> idle[i] in idle;
    if |ws.resources| == 0 then
      assert forall i :: 0 <= i < |idle| ==> GatherOne(cfg, ws, idle[i], p, ecoBias, draw(i)) == idle[i];
      ws
    else AssignGather(cfg, ws, idle, 0, p, ecoBias, draw)
  }

  // ---------------------------------------------------------------------
  // Build spots and build orders.

  /** `FindBuildSpot`: the first walkable cell on rings `lo` to `hi`,
      innermost ring first and x-major within a ring. */
  function FindBuildSpot(ws: World, c: Int2, lo: nat, hi: int): (s: Option<Int2>)
    requires ws.mapData.Valid()
    ensures s.None? <==> forall p :: lo <= Chebyshev(p, c) <= hi ==> !IsWalkable(ws, p)
    ensures s.Some? ==> IsWalkable(ws, s.value) && lo <= Chebyshev(s.value, c) <= hi
    ensures s.Some? ==> forall p :: lo <= Chebyshev(p, c) <= hi && RingBefore(p, s.value, c) ==> !IsWalkable(ws, p)
  {
    var ok := (p: Int2) => IsWalkable(ws, p);
    FirstInRingOrder(Rings(c, lo, hi, false), c, ok);
    FirstAccepted(Rings(c, lo, hi, false), ok)
  }

  /** No walkable cell lies on a ring inside the one the search returns. */
  lemma FindBuildSpotInnermost(ws: World, c: Int2, lo: nat, hi: int, q: Int2)
    requires ws.mapData.Valid()
    requires lo <= Chebyshev(q, c) <= hi && IsWalkable(ws, q)
    ensures FindBuildSpot(ws, c, lo, hi).Some?
    ensures Chebyshev(FindBuildSpot(ws, c, lo, hi).value, c) <= Chebyshev(q, c)
  {
    RingSearchInnermost(c, lo, hi, false, (p: Int2) => IsWalkable(ws, p), q);
  }

  function OwnedBuilding(pid: int): SimBuilding -> bool
  {
    (b: SimBuilding) => b.player == pid
  }

  /** The build order once the search has run: nothing without a spot,
      otherwise `Spots.BuildAt` on it. */
  function PlaceAt(ws: World, pid: int, worker: SimUnit, kind: BuildingType, spot: Option<Int2>, cost: Cost): (r: (bool, World))
    requires ws.mapData.Valid() && CanAfford(ws, pid, cost)
    ensures r.0 <==> spot.Some?
    ensures !r.0 ==> r.1 == ws
    ensures r.0 ==> GetPlayer(r.1, pid) == Some(Paid(GetPlayer(ws, pid).value, cost))
    ensures r.0 ==> |r.1.buildings| == |ws.buildings| + 1 && r.1.buildings[..|ws.buildings|] == ws.buildings
    ensures r.0 ==> var b := r.1.buildings[|ws.buildings|];
                    b.kind == kind && b.player == pid && !b.isConstructed && b.pos == spot.value
  {
    match spot
    case None => (false, ws)
    case Some(pos) => (true, BuildAt(ws, pid, worker, kind, pos, cost))
  }

  /** The inner search radius of a build order: three plus two per five
      own buildings. */
  function InnerRadius(ws: World, pid: int): (r: nat)
    ensures r >= 3 && (r - 3) % 2 == 0
    ensures Select.Count(ws.buildings, OwnedBuilding(pid)) < 5 ==> r == 3
  {
    3 + (Select.Count(ws.buildings, OwnedBuilding(pid)) / 5) * 2
  }

  /** `TryBuildBuilding`: with the price affordable and a worker, a spot on
      rings `InnerRadius` to five beyond around `near` (the worker when
      there is no `near`); the price is paid exactly when a building is
      placed. */
  function TryBuildBuilding(ws: World, pid: int, kind: BuildingType, units: seq<SimUnit>, near: Option<SimBuilding>,
                            cost: Cost): (r: (bool, World))
    requires ws.mapData.Valid()
    ensures !r.0 ==> r.1 == ws
    ensures r.0 ==> CanAfford(ws, pid, cost) && GetAvailableWorker(units).Some?
    ensures r.0 ==> GetPlayer(r.1, pid) == Some(Paid(GetPlayer(ws, pid).value, cost))
    ensures r.0 ==> |r.1.buildings| == |ws.buildings| + 1 && r.1.buildings[..|ws.buildings|] == ws.buildings
    ensures r.0 ==> var b := r.1.buildings[|ws.buildings|];
                    var c := if near.Some? then near.value.pos else GetAvailableWorker(units).value.pos;
                    b.kind == kind && b.player == pid && !b.isConstructed && IsWalkable(ws, b.pos)
                    && InnerRadius(ws, pid) <= Chebyshev(b.pos, c) <= InnerRadius(ws, pid) + 5
    ensures (CanAfford(ws, pid, cost) && GetAvailableWorker(units).Some? &&
             exists p :: InnerRadius(ws, pid) <= Chebyshev(p, if near.Some? then near.value.pos else GetAvailableWorker(units).value.pos)
                           <= InnerRadius(ws, pid) + 5 && IsWalkable(ws, p)) ==> r.0
  {
    if !CanAfford(ws, pid, cost) then (false, ws)
    else match GetAvailableWorker(units)
      case None => (false, ws)
      case Some(worker) =>
        var c := if near.Some? then near.value.pos else worker.pos;
        var lo := InnerRadius(ws, pid);
        PlaceAt(ws, pid, worker, kind, FindBuildSpot(ws, c, lo, lo + 5), cost)
  }

  /** The centre of the tower search: the base, moved by `offset` when the
      forward bias is above 0.2 and an enemy base stands elsewhere. */
  function DefenceCentre(home: Int2, enemyBase: Option<SimBuilding>, forwardBias: real, offset: Int2): Int2
  {
    if enemyBase.Some? && forwardBias > 0.2 && enemyBase.value.pos != home
    then Int2(home.x + offset.x, home.y + offset.y) else home
  }

  /** `TryBuildDefensiveStructure`: with a tower affordable, a worker and a
      base, a tower on rings 1 to 6 around the base, or around the base
      moved by `offset` toward the enemy base when the forward bias is
      above 0.2 and the bases differ in position. `offset` is the rounded
      step of length `2 + 25 * forwardBias` along the direction to the
      enemy base. */
  function TryBuildDefensiveStructure(cfg: Config, ws: World, pid: int, units: seq<SimUnit>, myBase: Option<SimBuilding>,
                                      enemyBase: Option<SimBuilding>, forwardBias: real, offset: Int2): (r: (bool, World))
    requires ws.mapData.Valid()
    ensures !r.0 ==> r.1 == ws
    ensures r.0 ==> CanAfford(ws, pid, cfg.tower) && GetAvailableWorker(units).Some? && myBase.Some?
    ensures r.0 ==> GetPlayer(r.1, pid) == Some(Paid(GetPlayer(ws, pid).value, cfg.tower))
    ensures r.0 ==> |r.1.buildings| == |ws.buildings| + 1 && r.1.buildings[|ws.buildings|].kind == Tower
    ensures r.0 ==> 1 <= Chebyshev(r.1.buildings[|ws.buildings|].pos, DefenceCentre(myBase.value.pos, enemyBase, forwardBias, offset)) <= 6
  {
    var worker := GetAvailableWorker(units);
    if !CanAfford(ws, pid, cfg.tower) || worker.None? || myBase.None? then (false, ws)
    else
      var spot := FindBuildSpot(ws, DefenceCentre(myBase.value.pos, enemyBase, forwardBias, offset), 1, 6);
      PlaceAt(ws, pid, worker.value, Tower, spot, cfg.tower)
  }
}
