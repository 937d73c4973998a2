/** The simple scripted commander (`SimpleMacroAI`): a once-a-second
    decision, an attack latch, a worker manager that steers gatherers by a
    fixed economy plan, and a barracks order placed in the 9x9 square
    around the base. */
module SimpleAI {
  import opened Wrappers
  import opened Types
  import opened World
  import opened Config
  import opened Resources
  import opened Grid
  import opened Units
  import opened Pace
  import opened Spots
  import opened Crew
  import PathFinding
  import Bots
  import Select

  const INTERVAL: real := 1.0

  /** Decisions come at most once per second of frame time. */
  lemma {:induction false} OncePerSecond(timer: real, dts: seq<real>)
    requires timer >= 0.0 && NonNegative(dts)
    ensures Decisions(timer, dts, INTERVAL) as real <= timer + Sum(dts)
  {
    DecisionsRationed(timer, dts, INTERVAL);
  }

  // ---------------------------------------------------------------------
  // The attack latch.

  /** The latch after one decision: cleared by the soldier step when a
      barracks exists and soldiers are under five, then set by the attack
      step at five soldiers or more. */
  function Latch(attacking: bool, hasBarracks: bool, soldiers: int): (r: bool)
    ensures r <==> soldiers >= 5 || (attacking && !hasBarracks)
  {
    var cleared := if hasBarracks && soldiers < 5 then false else attacking;
    if soldiers >= 5 then true else cleared
  }

  /** The latch over a run of decisions, each seeing whether a barracks
      exists and the soldier count. */
  function LatchRun(attacking: bool, obs: seq<(bool, int)>): (r: bool)
    ensures |obs| > 0 && obs[|obs| - 1].1 >= 5 ==> r
    decreases |obs|
  {
    if |obs| == 0 then attacking
    else LatchRun(Latch(attacking, obs[0].0, obs[0].1), obs[1..])
  }

  /** Once set, the latch stays set as long as no barracks exists, whatever
      the soldier counts. */
  lemma {:induction false} LatchHoldsWithoutBarracks(attacking: bool, obs: seq<(bool, int)>)
    requires attacking
    requires forall i :: 0 <= i < |obs| ==> !obs[i].0
    ensures LatchRun(attacking, obs)
    decreases |obs|
  {
    if |obs| > 0 {
      LatchHoldsWithoutBarracks(Latch(attacking, obs[0].0, obs[0].1), obs[1..]);
    }
  }

  // ---------------------------------------------------------------------
  // Worker management.

  /** The resource the economy plan asks for: meat under five workers;
      without a barracks wood until its wood price is stocked, then stone;
      with a barracks meat until a soldier's meat is stocked, then wood. */
  function PlanType(cfg: Config, workers: int, hasBarracks: bool, p: SimPlayer): (t: ResourceType)
    ensures workers < 5 ==> t == Meat
    ensures workers >= 5 && !hasBarracks ==> (t == Wood <==> p.wood < BARRACKS_COST_WOOD) && (t == Stone <==> p.wood >= BARRACKS_COST_WOOD)
    ensures workers >= 5 && hasBarracks ==> (t == Meat <==> p.meat < cfg.soldierMeat) && (t == Wood <==> p.meat >= cfg.soldierMeat)
  {
    if workers < 5 then Meat
    else if !hasBarracks then (if p.wood < BARRACKS_COST_WOOD then Wood else Stone)
    else if p.meat < cfg.soldierMeat then Meat
    else Wood
  }

  /** A worker the manager leaves alone: building, or walking to a target. */
  predicate Busy(w: SimUnit)
  {
    w.state == Building || (w.state == Moving && w.targetId != -1)
  }

  /** A worker that already heads for the node it would be sent to, or for
      which no node exists. */
  predicate Settled(ws: World, w: SimUnit, t: ResourceType)
  {
    var res := GatherTarget(ws, w.pos, t, false);
    res.None? || res.value.id == w.targetId
  }

  /** What the manager does with one worker: a busy or settled worker is
      left alone; any other gets a gather order for the nearest node of
      the planned type (any type when there is none), and stays as it is
      when that node has no walkable cell around it. */
  function SteerOne(ws: World, w: SimUnit, t: ResourceType): (r: SimUnit)
    requires ws.mapData.Valid()
    ensures r == w.(path := r.path, targetId := r.targetId, state := r.state)
    ensures Busy(w) || Settled(ws, w, t) ==> r == w
    ensures !Busy(w) && !Settled(ws, w, t) ==>
              var res := GatherTarget(ws, w.pos, t, false).value;
              r == TryAssignGatherTask(ws, w, res).1 &&
              (r == w || (r.targetId == res.id && r.targetId != w.targetId && (r.state == Moving || r.state == Gathering)))
  {
    var res := GatherTarget(ws, w.pos, t, false);
    if Busy(w) || res.None? || res.value.id == w.targetId then w
    else TryAssignGatherTask(ws, w, res.value).1
  }

  /** The manager's loop: every worker is steered as `SteerOne` says,
      against the world as it stood when the loop began. Only units change;
      with distinct IDs each listed worker ends as `SteerOne` leaves it. */
  function Steer(ws: World, workers: seq<SimUnit>, t: ResourceType): (r: World)
    requires ws.mapData.Valid()
    ensures r == ws.(units := r.units) && |r.units| == |ws.units|
    ensures forall q :: q !in Ids(workers) ==> GetUnit(r, q) == GetUnit(ws, q)
    ensures (forall i :: 0 <= i < |workers| ==> Busy(workers[i]) || Settled(ws, workers[i], t)) ==> r == ws
    ensures DistinctUnitIds(workers) ==>
              forall w :: w in workers && GetUnit(ws, w.id) == Some(w) ==> GetUnit(r, w.id) == Some(SteerOne(ws, w, t))
  {
    OrderAll(ws, workers, (w: SimUnit) => SteerOne(ws, w, t))
  }

  /** `ManageWorkersSmart`: the plan's type, read once from the counts and
      the stock, steers every worker of the player. With unique IDs each
      worker of the player ends as `SteerOne` leaves it. */
  function ManageWorkersSmart(cfg: Config, ws: World, pid: int, p: SimPlayer, hasBarracks: bool): (r: World)
    requires ws.mapData.Valid()
    ensures r == ws.(units := r.units) && |r.units| == |ws.units|
    ensures forall q :: q !in Ids(Select.Filter(ws.units, WorkerOf(pid))) ==> GetUnit(r, q) == GetUnit(ws, q)
    ensures UniqueUnitIds(ws) ==>
              var t := PlanType(cfg, |Select.Filter(ws.units, WorkerOf(pid))|, hasBarracks, p);
              forall w :: w in ws.units && w.player == pid && w.kind == Worker ==>
                GetUnit(r, w.id) == Some(SteerOne(ws, w, t))
  {
    var workers := Select.Filter(ws.units, WorkerOf(pid));
    FilterStored(ws, WorkerOf(pid));
    Steer(ws, workers, PlanType(cfg, |workers|, hasBarracks, p))
  }

  // ---------------------------------------------------------------------
  // Barracks order.

  /** `FindBuildSpot`: the first walkable cell of the 9x9 square around the
      centre, x-major. */
  function FindBuildSpot(ws: World, c: Int2): (s: Option<Int2>)
    requires ws.mapData.Valid()
    ensures s.None? <==> forall p :: Chebyshev(p, c) <= 4 ==> !IsWalkable(ws, p)
    ensures s.Some? ==> IsWalkable(ws, s.value) && Chebyshev(s.value, c) <= 4
    ensures s.Some? ==> forall p :: Chebyshev(p, c) <= 4 && Before(p, s.value) ==> !IsWalkable(ws, p)
  {
    var ok := (p: Int2) => IsWalkable(ws, p);
    FirstInScanOrder(Square(c, 4), ok);
    FirstAccepted(Square(c, 4), ok)
  }

  /** Whether the barracks step runs: five workers and no barracks. */
  predicate WantsBarracks(ws: World, pid: int, cfg: Config, workers: int, hasBarracks: bool)
  {
    workers >= 5 && !hasBarracks && CanAfford(ws, pid, cfg.BarracksCost())
    && Select.Any(ws.units, WorkerOf(pid))
  }

  /** The barracks step as written: the search centre is read from the
      base without a check, so with no base the step fails (`None`)
      whenever it gets that far. */
  function BarracksStepAsWritten(cfg: Config, ws: World, pid: int, base: Option<SimBuilding>, workers: int,
                                 hasBarracks: bool): (r: Option<(bool, World)>)
    requires ws.mapData.Valid()
    ensures r.None? <==> WantsBarracks(ws, pid, cfg, workers, hasBarracks) && base.None?
  {
    if !WantsBarracks(ws, pid, cfg, workers, hasBarracks) then Some((false, ws))
    else if base.None? then None
    else Some(BarracksStep(cfg, ws, pid, base, workers, hasBarracks))
  }

  /** The barracks step with the missing base treated as "no spot": with
      five workers, no barracks, the price and a worker, a barracks is
      placed in the square around the base, paid for exactly when placed. */
  function BarracksStep(cfg: Config, ws: World, pid: int, base: Option<SimBuilding>, workers: int,
                        hasBarracks: bool): (r: (bool, World))
    requires ws.mapData.Valid()
    ensures !r.0 ==> r.1 == ws
    ensures r.0 <==> WantsBarracks(ws, pid, cfg, workers, hasBarracks) && base.Some?
                     && FindBuildSpot(ws, base.value.pos).Some?
    ensures r.0 ==> GetPlayer(r.1, pid) == Some(Paid(GetPlayer(ws, pid).value, cfg.BarracksCost()))
    ensures r.0 ==> |r.1.buildings| == |ws.buildings| + 1
                    && r.1.buildings[|ws.buildings|].kind == Barracks
                    && Chebyshev(r.1.buildings[|ws.buildings|].pos, base.value.pos) <= 4
    ensures r.0 ==> r.1.mapData.Valid()
                    && Erected(ws, r.1, pid, Select.FirstWhere(ws.units, WorkerOf(pid)).value, Barracks,
                               FindBuildSpot(ws, base.value.pos).value, cfg.BarracksCost())
  {
    if !WantsBarracks(ws, pid, cfg, workers, hasBarracks) || base.None? then (false, ws)
    else
      var worker := Select.FirstWhere(ws.units, WorkerOf(pid)).value;
      match FindBuildSpot(ws, base.value.pos)
      case None => (false, ws)
      case Some(pos) => (true, BuildAt(ws, pid, worker, Barracks, pos, cfg.BarracksCost()))
  }

  /** With a base the two versions agree; without one the step as written
      fails at five workers, no barracks, the price and a worker. */
  lemma BarracksStepFixed(cfg: Config, ws: World, pid: int, base: Option<SimBuilding>, workers: int, hasBarracks: bool)
    requires ws.mapData.Valid()
    ensures base.Some? ==> BarracksStepAsWritten(cfg, ws, pid, base, workers, hasBarracks)
                           == Some(BarracksStep(cfg, ws, pid, base, workers, hasBarracks))
    ensures base.None? && WantsBarracks(ws, pid, cfg, workers, hasBarracks) ==>
              BarracksStepAsWritten(cfg, ws, pid, base, workers, hasBarracks).None?
              && !BarracksStep(cfg, ws, pid, base, workers, hasBarracks).0
  {
  }

  // ---------------------------------------------------------------------
  // Attack.

  /** `IsReachable`: the target needs a free neighbour to stand on, and the
      soldier reaches it when it already stands there or the search finds
      a path there. */
  function IsReachable(ws: World, start: Int2, end: Int2): (r: bool)
    requires ws.mapData.Valid()
    ensures r ==> FindWalkableNeighbor(ws, end).Some?
    ensures r <==> FindWalkableNeighbor(ws, end).Some?
                   && (var stand := FindWalkableNeighbor(ws, end).value;
                       start == stand || PathFinding.PathShape(ws, start, stand, PathFinding.FindPath(ws, start, stand)))
    ensures !ws.mapData.InBounds(start) ==> !r
  {
    match FindWalkableNeighbor(ws, end)
    case None => false
    case Some(stand) =>
      var path := PathFinding.FindPath(ws, start, stand);
      !(|path| == 0 && start != stand)
  }

  /** A soldier one step from the cell it would stand on reaches the
      target: the search returns that single step. */
  lemma NextToStandIsReachable(ws: World, start: Int2, end: Int2)
    requires ws.mapData.Valid() && ws.mapData.InBounds(start)
    requires FindWalkableNeighbor(ws, end).Some? && Adjacent(start, FindWalkableNeighbor(ws, end).value)
    ensures IsReachable(ws, start, end)
  {
    PathFinding.AdjacentGoal(ws, start, FindWalkableNeighbor(ws, end).value);
  }

  function BuildingDist(at: Int2): SimBuilding -> int
  {
    (b: SimBuilding) => DistSq(at, b.pos)
  }

  /** `FindClosestEnemyBuilding`: the enemy building nearest `at`, the
      first of equals in enumeration order; none without one. */
  function FindClosestEnemyBuilding(ws: World, pid: int, at: Int2): (r: Option<SimBuilding>)
    ensures r.None? <==> !Select.Any(ws.buildings, Bots.EnemyBuilding(pid))
    ensures r.Some? ==> r.value in ws.buildings && r.value.player != pid
    ensures r.Some? ==> forall b :: b in ws.buildings && b.player != pid ==> DistSq(at, r.value.pos) <= DistSq(at, b.pos)
    ensures r.Some? ==> exists i :: 0 <= i < |ws.buildings| && ws.buildings[i] == r.value
                          && forall j :: 0 <= j < i && ws.buildings[j].player != pid ==>
                               DistSq(at, r.value.pos) < DistSq(at, ws.buildings[j].pos)
  {
    match Select.NearestFirst(ws.buildings, Bots.EnemyBuilding(pid), BuildingDist(at))
    case None => None
    case Some(i) =>
      assert Bots.EnemyBuilding(pid)(ws.buildings[i]);
      Some(ws.buildings[i])
  }

  /** A soldier already attacking something is left alone. */
  predicate Engaged(u: SimUnit)
  {
    u.state == Attacking && u.targetId != -1
  }

  /** One soldier of `AttackWithAllSoldiers`: left alone when engaged;
      sent at the target when it is reachable, else at the enemy building
      closest to the soldier. Every order names an enemy building. */
  function SoldierOrder(ws: World, pid: int, target: SimBuilding, s: SimUnit): (r: SimUnit)
    requires ws.mapData.Valid()
    requires target in ws.buildings && target.player != pid
    ensures Engaged(s) ==> r == s
    ensures !Engaged(s) && IsReachable(ws, s.pos, target.pos) ==>
              r.targetId == target.id && (r.state == Moving || r.state == Attacking)
    ensures !Engaged(s) && !IsReachable(ws, s.pos, target.pos) ==>
              var b := FindClosestEnemyBuilding(ws, pid, s.pos).value;
              && (FindWalkableNeighbor(ws, b.pos).Some? ==> r.targetId == b.id && (r.state == Moving || r.state == Attacking))
              && (FindWalkableNeighbor(ws, b.pos).None? ==> r == s)
    ensures r != s ==> !Engaged(s) && (r.state == Moving || r.state == Attacking)
                       && exists b :: b in ws.buildings && b.player != pid && b.id == r.targetId
  {
    if Engaged(s) then s
    else if IsReachable(ws, s.pos, target.pos) then OrderAttack(ws, s, target)
    else
      assert Bots.EnemyBuilding(pid)(target);
      var b := FindClosestEnemyBuilding(ws, pid, s.pos).value;
      OrderAttack(ws, s, b)
  }

  /** The loop over the soldiers: each is ordered against the decision's
      world `at` (the map and the buildings the orders read do not change
      during the loop) and written back into `ws`. */
  function OrderSoldiers(at: World, ws: World, pid: int, target: SimBuilding, squad: seq<SimUnit>): (r: World)
    requires at.mapData.Valid()
    requires target in at.buildings && target.player != pid
    ensures r == ws.(units := r.units) && |r.units| == |ws.units|
    ensures forall q :: q !in Ids(squad) ==> GetUnit(r, q) == GetUnit(ws, q)
    ensures DistinctUnitIds(squad) ==>
              forall i :: 0 <= i < |squad| && GetUnit(ws, squad[i].id).Some? ==>
                GetUnit(r, squad[i].id) == Some(SoldierOrder(at, pid, target, squad[i]))
    decreases |squad|
  {
    if |squad| == 0 then ws
    else
      IdsCons(squad);
      var u := SoldierOrder(at, pid, target, squad[0]);
      var ws1 := PutUnit(ws, u);
      var r := OrderSoldiers(at, ws1, pid, target, squad[1..]);
      assert DistinctUnitIds(squad) ==>
               forall i :: 0 <= i < |squad| && GetUnit(ws, squad[i].id).Some? ==>
                 GetUnit(r, squad[i].id) == Some(SoldierOrder(at, pid, target, squad[i])) by {
        if DistinctUnitIds(squad) {
          assert DistinctUnitIds(squad[1..]);
          forall i | 0 <= i < |squad| && GetUnit(ws, squad[i].id).Some?
            ensures GetUnit(r, squad[i].id) == Some(SoldierOrder(at, pid, target, squad[i]))
          {
            if i == 0 {
              forall k | 0 <= k < |squad[1..]| ensures squad[1..][k].id != squad[0].id {
                assert squad[1..][k] == squad[k + 1];
              }
              assert squad[0].id !in Ids(squad[1..]);
            } else {
              assert squad[1..][i - 1] == squad[i];
              assert squad[i].id != squad[0].id;
            }
          }
        }
      }
      r
  }

  function SoldierOf(pid: int): SimUnit -> bool
  {
    (u: SimUnit) => u.player == pid && u.kind == Soldier
  }

  /** `AttackWithAllSoldiers`: the target is the first enemy base, else the
      first enemy building; with none nobody moves. Only the player's
      soldiers change, and with unique IDs each of them ends exactly as
      `SoldierOrder` sends it: engaged soldiers stay, the others go for the
      target when reachable and for the closest enemy building otherwise. */
  function AttackWithAllSoldiers(ws: World, pid: int): (r: World)
    requires ws.mapData.Valid()
    ensures r == ws.(units := r.units) && |r.units| == |ws.units|
    ensures forall q :: q !in Ids(Select.Filter(ws.units, SoldierOf(pid))) ==> GetUnit(r, q) == GetUnit(ws, q)
    ensures !Select.Any(ws.buildings, Bots.EnemyBuilding(pid)) ==> r == ws
    ensures Select.Any(ws.buildings, Bots.EnemyBuilding(pid)) && UniqueUnitIds(ws) ==>
              forall s :: s in ws.units && s.player == pid && s.kind == Soldier ==>
                GetUnit(r, s.id) == Some(SoldierOrder(ws, pid, Bots.BuildingTarget(ws, pid).value, s))
  {
    match Bots.BuildingTarget(ws, pid)
    case None => ws
    case Some(t) =>
      var squad := Select.Filter(ws.units, SoldierOf(pid));
      var r := OrderSoldiers(ws, ws, pid, t, squad);
      assert UniqueUnitIds(ws) ==>
               forall s :: s in ws.units && s.player == pid && s.kind == Soldier ==>
                 GetUnit(r, s.id) == Some(SoldierOrder(ws, pid, t, s)) by {
        if UniqueUnitIds(ws) {
          FilterDistinct(ws.units, SoldierOf(pid));
          forall s | s in ws.units && s.player == pid && s.kind == Soldier
            ensures GetUnit(r, s.id) == Some(SoldierOrder(ws, pid, t, s))
          {
            assert s in squad;
            var i :| 0 <= i < |squad| && squad[i] == s;
            assert GetUnit(ws, s.id).Some?;
          }
        }
      }
      r
  }
}
