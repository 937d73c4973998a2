/** The harassing bot (`HarasserAI`): few workers, a barracks early, and
    soldiers that hunt enemy workers and economy buildings, running from
    nearby soldiers and towers when hurt or outnumbered. */
module Harasser {
  import opened Wrappers
  import opened Types
  import opened World
  import opened Config
  import opened Resources
  import opened Grid
  import opened Units
  import opened Pace
  import opened Spots
  import opened Crew
  import opened Bots
  import SimMath
  import Select

  const INTERVAL: real := 0.2
  const MAX_WORKER_COUNT: int := 5
  const DANGER_SQ: int := 25
  const SQUAD_MIN: int := 3
  const RUN_STEP: int := 5
  const PLACE_TRIES: int := 30
  const PLACE_RADIUS: nat := 6

  /** Decisions come at most five times per second of frame time. */
  lemma {:induction false} FivePerSecond(timer: real, dts: seq<real>)
    requires timer >= 0.0 && NonNegative(dts)
    ensures Decisions(timer, dts, INTERVAL) as real <= 5.0 * (timer + Sum(dts))
  {
    DecisionsRationed(timer, dts, INTERVAL);
  }

  // ---------------------------------------------------------------------
  // Economy.

  /** The resource `AssignGatherTasks` asks for: Wood, then Stone, then
      Meat, by first shortfall. */
  function GatherType(p: SimPlayer, c: Cost): (r: Option<ResourceType>)
    ensures r == Some(Wood) <==> p.wood < c.wood
    ensures r == Some(Stone) <==> p.wood >= c.wood && p.stone < c.stone
    ensures r == Some(Meat) <==> p.wood >= c.wood && p.stone >= c.stone && p.meat < c.meat
    ensures r.None? <==> p.wood >= c.wood && p.stone >= c.stone && p.meat >= c.meat
  {
    ShortfallOfThree(p, c, Wood, Stone, Meat);
    FirstShortfall(p, c, [Wood, Stone, Meat])
  }

  /** `AssignGatherTasks`: the idle workers go for the type `GatherType`
      names; with no shortfall nothing changes. With unique IDs each idle
      worker of the player ends as `GatherOrder` leaves it for that type. */
  function AssignGatherTasks(ws: World, pid: int, c: Cost): (r: World)
    requires ws.mapData.Valid()
    ensures r == ws.(units := r.units) && |r.units| == |ws.units|
    ensures forall q :: q !in Ids(Select.Filter(ws.units, IdleWorkerOf(pid))) ==> GetUnit(r, q) == GetUnit(ws, q)
    ensures GetPlayer(ws, pid).Some? && GatherType(GetPlayer(ws, pid).value, c).None? ==> r == ws
    ensures UniqueUnitIds(ws) && GetPlayer(ws, pid).Some? && GatherType(GetPlayer(ws, pid).value, c).Some? ==>
              forall w :: w in ws.units && w.player == pid && w.kind == Worker && w.state == Idle ==>
                GetUnit(r, w.id) == Some(GatherOrder(ws, w, GatherType(GetPlayer(ws, pid).value, c).value, None))
  {
    GatherFor(ws, pid, c, [Wood, Stone, Meat])
  }

  /** The price `BuildNearBase` pays: a barracks its wood and stone, a house
      its full price, anything else nothing. */
  function BuildCost(cfg: Config, kind: BuildingType): (c: Cost)
    ensures kind == Barracks ==> c == Cost(BARRACKS_COST_WOOD, BARRACKS_COST_STONE, 0)
    ensures kind == House ==> c == cfg.house
    ensures kind !in {Barracks, House} ==> c == Free
  {
    match kind
    case Barracks => Cost(BARRACKS_COST_WOOD, BARRACKS_COST_STONE, 0)
    case House => cfg.house
    case _ => Free
  }

  /** `BuildNearBase`: the first of thirty tries in the 13x13 square around
      the base that is in bounds and flagged walkable gets the building,
      and the worker is ordered to build it; the random offsets are
      inputs. */
  function BuildNearBase(cfg: Config, ws: World, pid: int, worker: SimUnit, kind: BuildingType, offsets: seq<Int2>)
    : (r: (Option<Int2>, World))
    requires ws.mapData.Valid()
    requires |offsets| == PLACE_TRIES && OffsetsWithin(offsets, PLACE_RADIUS)
    ensures r.1.mapData.Valid()
    ensures r.0.None? ==> r.1 == ws
    ensures r.0.None? && BaseOf(ws, pid).Some? ==>
              forall i :: 0 <= i < |offsets| ==> !NodeFlagWalkable(ws, Add(BaseOf(ws, pid).value.pos, offsets[i]))
    ensures r.0.Some? ==> BaseOf(ws, pid).Some? && NodeFlagWalkable(ws, r.0.value)
                          && Chebyshev(r.0.value, BaseOf(ws, pid).value.pos) <= PLACE_RADIUS
    ensures r.0.Some? ==> Erected(ws, r.1, pid, worker, kind, r.0.value, BuildCost(cfg, kind))
  {
    var r := PlaceAround(ws, pid, worker, kind, BaseOf(ws, pid), offsets, FlagWalkable(ws), BuildCost(cfg, kind));
    if r.0.Some? then
      PlacedNearBase(ws, pid, worker, kind, BaseOf(ws, pid), offsets, FlagWalkable(ws), BuildCost(cfg, kind), PLACE_RADIUS);
      r
    else r
  }

  /** `CheckPopulation`: at the cap with no house under way, an affordable
      house stops the decision (built when a worker idles), an unaffordable
      one sends the workers gathering and lets the decision go on. */
  function CheckPopulation(cfg: Config, ws: World, pid: int, me: SimPlayer, offsets: seq<Int2>): (r: (bool, World))
    requires ws.mapData.Valid()
    requires |offsets| == PLACE_TRIES && OffsetsWithin(offsets, PLACE_RADIUS)
    ensures r.1.mapData.Valid()
    ensures r.0 <==> me.curPop >= me.maxPop && !Select.Any(ws.buildings, OwnUnfinished(pid, House))
                     && CanAfford(ws, pid, cfg.house)
    ensures r.0 && !Select.Any(ws.units, IdleWorkerOf(pid)) ==> r.1 == ws
    ensures !r.0 && r.1 != ws ==> !CanAfford(ws, pid, cfg.house) && r.1 == AssignGatherTasks(ws, pid, cfg.house)
    ensures !r.0 ==> r.1.buildings == ws.buildings
    ensures r.0 ==> r.1 == ws || BuiltOne(ws, r.1, pid, House, cfg.house)
  {
    if me.curPop < me.maxPop || Select.Any(ws.buildings, OwnUnfinished(pid, House)) then (false, ws)
    else if !CanAfford(ws, pid, cfg.house) then (false, AssignGatherTasks(ws, pid, cfg.house))
    else if !Select.Any(ws.units, IdleWorkerOf(pid)) then (true, ws)
    else
      var w := IdleWorker(ws, pid).value;
      var t := BuildNearBase(cfg, ws, pid, w, House, offsets);
      if t.0.Some? then
        assert Erected(ws, t.1, pid, w, House, t.0.value, cfg.house);
        (true, t.1)
      else (true, t.1)
  }

  /** What `ManageProduction` does in one decision. */
  datatype Production = TrainWorkers | FirstBarracks | BarracksUnderWay | TrainSoldiers | BarracksBusy

  /** The production order: a worker while under five and the base idles;
      otherwise a barracks when none exists, nothing while the only ones are
      unfinished, and soldiers from the first finished barracks when it
      idles. */
  function ProductionOf(workers: int, baseIdle: bool, anyBarracks: bool, finished: Option<SimBuilding>): (p: Production)
    ensures p == TrainWorkers <==> workers < MAX_WORKER_COUNT && baseIdle
    ensures p == FirstBarracks <==> !(workers < MAX_WORKER_COUNT && baseIdle) && finished.None? && !anyBarracks
    ensures p == BarracksUnderWay <==> !(workers < MAX_WORKER_COUNT && baseIdle) && finished.None? && anyBarracks
    ensures p == TrainSoldiers <==> !(workers < MAX_WORKER_COUNT && baseIdle) && finished.Some?
                                    && !finished.value.isTraining
    ensures p == BarracksBusy <==> !(workers < MAX_WORKER_COUNT && baseIdle) && finished.Some?
                                   && finished.value.isTraining
  {
    if workers < MAX_WORKER_COUNT && baseIdle then TrainWorkers
    else if finished.None? then (if anyBarracks then BarracksUnderWay else FirstBarracks)
    else if finished.value.isTraining then BarracksBusy
    else TrainSoldiers
  }

  // ---------------------------------------------------------------------
  // Retreat.

  function UnitSpots(us: seq<SimUnit>): (s: seq<Int2>)
    ensures |s| == |us| && forall i :: 0 <= i < |us| ==> s[i] == us[i].pos
    ensures forall u :: u in us ==> u.pos in s
  {
    var s := seq(|us|, i requires 0 <= i < |us| => us[i].pos);
    assert forall i :: 0 <= i < |us| ==> s[i] == us[i].pos;
    s
  }

  function BuildingSpots(bs: seq<SimBuilding>): (s: seq<Int2>)
    ensures |s| == |bs| && forall i :: 0 <= i < |bs| ==> s[i] == bs[i].pos
    ensures forall b :: b in bs ==> b.pos in s
  {
    var s := seq(|bs|, i requires 0 <= i < |bs| => bs[i].pos);
    assert forall i :: 0 <= i < |bs| ==> s[i] == bs[i].pos;
    s
  }

  /** An enemy soldier or an enemy tower stands on `q`. */
  predicate ThreatAt(ws: World, pid: int, q: Int2)
  {
    (exists u :: u in ws.units && u.player != pid && u.kind == Soldier && u.pos == q)
    || (exists b :: b in ws.buildings && b.player != pid && b.kind == Tower && b.pos == q)
  }

  /** The cells the retreat test weighs: enemy soldiers, then enemy towers,
      each in enumeration order. */
  function ThreatSpots(ws: World, pid: int): (s: seq<Int2>)
    ensures forall u :: u in ws.units && u.player != pid && u.kind == Soldier ==> u.pos in s
    ensures forall b :: b in ws.buildings && b.player != pid && b.kind == Tower ==> b.pos in s
    ensures forall i :: 0 <= i < |s| ==> ThreatAt(ws, pid, s[i])
  {
    var us := Select.Filter(ws.units, EnemyUnitKind(pid, Soldier));
    var bs := Select.Filter(ws.buildings, EnemyKind(pid, Tower));
    var s := UnitSpots(us) + BuildingSpots(bs);
    assert forall u :: u in ws.units && u.player != pid && u.kind == Soldier ==> u in us && u.pos in UnitSpots(us);
    assert forall b :: b in ws.buildings && b.player != pid && b.kind == Tower ==> b in bs && b.pos in BuildingSpots(bs);
    forall i | 0 <= i < |s|
      ensures ThreatAt(ws, pid, s[i])
    {
      if i < |us| {
        var u := us[i];
        assert u in us && EnemyUnitKind(pid, Soldier)(u) && s[i] == u.pos;
      } else {
        var b := bs[i - |us|];
        assert b in bs && EnemyKind(pid, Tower)(b) && s[i] == b.pos;
      }
    }
    s
  }

  function Everywhere(): Int2 -> bool
  {
    (p: Int2) => true
  }

  function DistTo(at: Int2): Int2 -> int
  {
    (p: Int2) => DistSq(at, p)
  }

  /** The closest threat under the strict scan: the first spot at the least
      squared distance. */
  function NearestThreat(spots: seq<Int2>, at: Int2): (r: Option<Int2>)
    ensures r.None? <==> |spots| == 0
    ensures r.Some? ==> r.value in spots && forall q :: q in spots ==> DistSq(at, r.value) <= DistSq(at, q)
  {
    assert |spots| > 0 ==> Everywhere()(spots[0]);
    match Select.NearestFirst(spots, Everywhere(), DistTo(at))
    case None => None
    case Some(i) => Some(spots[i])
  }

  /** The retreat test: the closest threat is nearer than five cells
      (squared distance under 25) and the soldier is below half health or
      has fewer than two comrades. */
  predicate Retreats(s: SimUnit, spots: seq<Int2>, squad: int)
  {
    var t := NearestThreat(spots, s.pos);
    t.Some? && DistSq(s.pos, t.value) < DANGER_SQ && (2 * s.health < s.maxHealth || squad < SQUAD_MIN)
  }

  /** Testing only the closest threat loses nothing: a soldier retreats
      exactly when some threat is in danger range and it is weak or the
      squad is small. */
  lemma RetreatsExactly(s: SimUnit, spots: seq<Int2>, squad: int)
    ensures Retreats(s, spots, squad) <==>
              (exists q :: q in spots && DistSq(s.pos, q) < DANGER_SQ) && (2 * s.health < s.maxHealth || squad < SQUAD_MIN)
  {
    var t := NearestThreat(spots, s.pos);
    if q :| q in spots && DistSq(s.pos, q) < DANGER_SQ {
      assert DistSq(s.pos, t.value) <= DistSq(s.pos, q);
    }
  }

  /** One axis of the run target: step away by at most five, then stay on
      the map. */
  function RunAxis(p: int, threat: int, size: int): (r: int)
    ensures 0 <= p < size ==> 0 <= r < size && -RUN_STEP <= r - p <= RUN_STEP
    ensures 0 <= p < size && p > threat ==> r >= p
    ensures 0 <= p < size && p < threat ==> r <= p
  {
    SimMath.ClampInt(p + SimMath.ClampInt(p - threat, -RUN_STEP, RUN_STEP), 0, size - 1)
  }

  /** `RunAway`'s destination: each axis stepped away from the threat by up
      to five cells, then clamped to the map. */
  function RunTarget(ws: World, pos: Int2, threat: Int2): (r: Int2)
    ensures ws.mapData.InBounds(pos) ==> ws.mapData.InBounds(r) && Chebyshev(r, pos) <= RUN_STEP
  {
    Int2(RunAxis(pos.x, threat.x, ws.mapData.width), RunAxis(pos.y, threat.y, ws.mapData.height))
  }

  /** Moving along an axis in the direction away from a point never brings
      one closer to it. */
  lemma AwayAxis(d: int, step: int)
    requires d > 0 ==> step >= 0
    requires d < 0 ==> step <= 0
    ensures (d + step) * (d + step) >= d * d
  {
    assert step * d >= 0;
    assert (d + step) * (d + step) == d * d + step * (2 * d + step);
    assert step * (2 * d + step) == 2 * (step * d) + step * step;
  }

  /** The run target is never closer to the threat than the soldier. */
  lemma RunTargetIsAway(ws: World, pos: Int2, threat: Int2)
    requires ws.mapData.InBounds(pos)
    ensures DistSq(RunTarget(ws, pos, threat), threat) >= DistSq(pos, threat)
  {
    var r := RunTarget(ws, pos, threat);
    AwayAxis(pos.x - threat.x, r.x - pos.x);
    AwayAxis(pos.y - threat.y, r.y - pos.y);
    assert r.x - threat.x == (pos.x - threat.x) + (r.x - pos.x);
    assert r.y - threat.y == (pos.y - threat.y) + (r.y - pos.y);
  }

  /** `RunAway`: a move to the run target when that cell is walkable
      (occupancy included); otherwise the soldier stays put. */
  function RunAway(ws: World, u: SimUnit, threat: Int2): (r: SimUnit)
    requires ws.mapData.Valid()
    ensures !IsWalkable(ws, RunTarget(ws, u.pos, threat)) ==> r == u
    ensures r.targetId == u.targetId || r.targetId == -1
    ensures r.id == u.id && r.pos == u.pos && r.player == u.player && r.health == u.health
    ensures IsWalkable(ws, RunTarget(ws, u.pos, threat)) && |r.path| > 0 ==>
              r.state == Moving && r.path[|r.path| - 1] == RunTarget(ws, u.pos, threat)
  {
    var dest := RunTarget(ws, u.pos, threat);
    if IsWalkable(ws, dest) then OrderMove(ws, u, dest) else u
  }

  // ---------------------------------------------------------------------
  // Target priority.

  /** The harass targets, collected once per pass: enemy workers, enemy
      farms, wood cutters and stone pits, and the first enemy base. */
  datatype Prey = Prey(workers: seq<SimUnit>, eco: seq<SimBuilding>, base: Option<SimBuilding>)

  function EnemyEco(pid: int): SimBuilding -> bool
  {
    (b: SimBuilding) => b.player != pid && (b.kind == Farm || b.kind == WoodCutter || b.kind == StonePit)
  }

  function PreyOf(ws: World, pid: int): (p: Prey)
    ensures forall w :: w in p.workers <==> w in ws.units && w.player != pid && w.kind == Worker
    ensures forall b :: b in p.eco <==> b in ws.buildings && EnemyEco(pid)(b)
    ensures p.base.Some? ==> p.base.value in ws.buildings && p.base.value.player != pid && p.base.value.kind == Base
  {
    Prey(Select.Filter(ws.units, EnemyUnitKind(pid, Worker)), Select.Filter(ws.buildings, EnemyEco(pid)),
         Select.FirstWhere(ws.buildings, EnemyKind(pid, Base)))
  }

  function AnyUnit(): SimUnit -> bool
  {
    (u: SimUnit) => true
  }

  function AnyBuilding(): SimBuilding -> bool
  {
    (b: SimBuilding) => true
  }

  function UnitDist(at: Int2): SimUnit -> int
  {
    (u: SimUnit) => DistSq(at, u.pos)
  }

  function BuildingDist(at: Int2): SimBuilding -> int
  {
    (b: SimBuilding) => DistSq(at, b.pos)
  }

  /** The target a soldier at `at` picks: the closest enemy worker (the
      first of equals, as a stable `OrderBy` gives), else the closest
      economy building, else the base, else none. */
  function AimOf(prey: Prey, at: Int2): (t: Target)
    ensures |prey.workers| > 0 ==> t.AtUnit? && t.u in prey.workers
                                   && forall w :: w in prey.workers ==> DistSq(at, t.u.pos) <= DistSq(at, w.pos)
    ensures |prey.workers| == 0 && |prey.eco| > 0 ==>
              t.AtBuilding? && t.b in prey.eco && forall b :: b in prey.eco ==> DistSq(at, t.b.pos) <= DistSq(at, b.pos)
    ensures |prey.workers| == 0 && |prey.eco| == 0 ==>
              (prey.base.Some? ==> t == AtBuilding(prey.base.value)) && (prey.base.None? ==> t.NoTarget?)
  {
    if |prey.workers| > 0 then
      assert AnyUnit()(prey.workers[0]);
      var i := Select.NearestFirst(prey.workers, AnyUnit(), UnitDist(at)).value;
      AtUnit(prey.workers[i])
    else if |prey.eco| > 0 then
      assert AnyBuilding()(prey.eco[0]);
      var i := Select.NearestFirst(prey.eco, AnyBuilding(), BuildingDist(at)).value;
      AtBuilding(prey.eco[i])
    else match prey.base
      case Some(b) => AtBuilding(b)
      case None => NoTarget
  }

  /** The ID an attack on a target sets. */
  function TargetIdOf(t: Target): int
  {
    match t
    case AtUnit(u) => u.id
    case AtBuilding(b) => b.id
    case NoTarget => -1
  }

  predicate Engageable(s: SimUnit)
  {
    s.state == Idle || s.state == Moving || s.state == Attacking
  }

  /** The attack logic for a soldier that does not run: an idle, moving or
      attacking soldier switches to the target only when it is not already
      its target; with nothing left an idle soldier heads for the centre.
      Orders are not repeated, so a soldier on its target is left alone. */
  function Engage(cfg: Config, ws: World, s: SimUnit, t: Target): (r: SimUnit)
    requires ws.mapData.Valid()
    ensures !Engageable(s) ==> r == s
    ensures !t.NoTarget? && s.targetId == TargetIdOf(t) ==> r == s
    ensures t.NoTarget? && s.state != Idle ==> r == s
    ensures t.AtUnit? && Engageable(s) && s.targetId != t.u.id ==> r.targetId == t.u.id
    ensures r.id == s.id && r.pos == s.pos && r.player == s.player && r.health == s.health
  {
    if !Engageable(s) then s
    else match t
      case AtUnit(u) => if s.targetId != u.id then OrderAttackUnit(ws, s, u) else s
      case AtBuilding(b) => if s.targetId != b.id then OrderAttack(ws, s, b) else s
      case NoTarget => if s.state == Idle then OrderMove(ws, s, Centre(cfg)) else s
  }

  /** One soldier's turn: run from the closest threat when `Retreats`
      says so, otherwise engage its target. */
  function HarassOne(cfg: Config, ws: World, s: SimUnit, spots: seq<Int2>, squad: int, prey: Prey): (r: SimUnit)
    requires ws.mapData.Valid()
    ensures Retreats(s, spots, squad) ==> r == RunAway(ws, s, NearestThreat(spots, s.pos).value)
    ensures !Retreats(s, spots, squad) ==> r == Engage(cfg, ws, s, AimOf(prey, s.pos))
    ensures r.id == s.id && r.pos == s.pos && r.player == s.player
  {
    if Retreats(s, spots, squad) then RunAway(ws, s, NearestThreat(spots, s.pos).value)
    else Engage(cfg, ws, s, AimOf(prey, s.pos))
  }

  /** A retreating soldier never takes a new target. */
  lemma RetreatDropsNoTarget(cfg: Config, ws: World, s: SimUnit, spots: seq<Int2>, squad: int, prey: Prey)
    requires ws.mapData.Valid()
    requires Retreats(s, spots, squad)
    ensures HarassOne(cfg, ws, s, spots, squad, prey).targetId in {s.targetId, -1}
  {
  }

  /** The pass over the soldiers, each taking its turn as `HarassOne`
      says against the world as it stood when the pass began. Only the
      listed soldiers change; with distinct IDs each ends as its turn
      leaves it. */
  function HarassAll(cfg: Config, ws: World, soldiers: seq<SimUnit>, spots: seq<Int2>, squad: int, prey: Prey): (r: World)
    requires ws.mapData.Valid()
    ensures r == ws.(units := r.units) && |r.units| == |ws.units|
    ensures forall q :: q !in Ids(soldiers) ==> GetUnit(r, q) == GetUnit(ws, q)
    ensures DistinctUnitIds(soldiers) ==>
              forall s :: s in soldiers && GetUnit(ws, s.id) == Some(s) ==>
                GetUnit(r, s.id) == Some(HarassOne(cfg, ws, s, spots, squad, prey))
  {
    OrderAll(ws, soldiers, (s: SimUnit) => HarassOne(cfg, ws, s, spots, squad, prey))
  }

  /** `ManageHarassMicro`: the threats and targets are read once, then each
      soldier of the player takes its turn; nothing else changes. With
      unique IDs each soldier of the player ends as its `HarassOne` turn
      leaves it, the squad size being the number of the player's
      soldiers. */
  function ManageHarassMicro(cfg: Config, ws: World, pid: int): (r: World)
    requires ws.mapData.Valid()
    ensures r == ws.(units := r.units) && |r.units| == |ws.units|
    ensures forall q :: q !in Ids(Select.Filter(ws.units, OwnUnitKind(pid, Soldier))) ==> GetUnit(r, q) == GetUnit(ws, q)
    ensures UniqueUnitIds(ws) ==>
              forall s :: s in ws.units && s.player == pid && s.kind == Soldier ==>
                GetUnit(r, s.id) == Some(HarassOne(cfg, ws, s, ThreatSpots(ws, pid),
                                                   |Select.Filter(ws.units, OwnUnitKind(pid, Soldier))|, PreyOf(ws, pid)))
  {
    var soldiers := Select.Filter(ws.units, OwnUnitKind(pid, Soldier));
    FilterStored(ws, OwnUnitKind(pid, Soldier));
    assert forall s :: s in ws.units && s.player == pid && s.kind == Soldier ==> OwnUnitKind(pid, Soldier)(s);
    HarassAll(cfg, ws, soldiers, ThreatSpots(ws, pid), |soldiers|, PreyOf(ws, pid))
  }
}
