/** Pieces the scripted bots share: the first resource a price falls short
    of in a bot's own order, the gather loop over idle workers, and the
    random placement tries around the base.

    A bot's placement asks `SimBuildingSystem.CreateBuilding` for the new
    building record. The repository calls that member without defining it,
    so it is modelled as the placeholder the other players place
    (`Spots.Placeholder`): an unfinished building of the type under the
    next ID, its cell blocked. The worker is then ordered to build it. */
module Bots {
  import opened Wrappers
  import opened Types
  import opened World
  import opened Config
  import opened Resources
  import opened Grid
  import opened Units
  import opened Spots
  import opened Crew
  import opened Pace
  import Select

  /** A bot's `Update(dt)`: the clock runs on every frame; a decision is
      made when the interval is reached and the bot's own player (when the
      bot checks for it) is present. */
  function Decide(timer: real, dt: real, interval: real, present: bool): (r: (bool, real))
    ensures r.0 <==> timer + dt >= interval && present
    ensures timer + dt >= interval ==> r.1 == 0.0
    ensures timer + dt < interval ==> r.1 == timer + dt
  {
    var (due, clock) := Throttle(timer, dt, interval);
    (due && present, clock)
  }

  // ---------------------------------------------------------------------
  // Shortfalls.

  /** The part of a price paid in one resource. */
  function Need(c: Cost, t: ResourceType): int
  {
    match t
    case Wood => c.wood
    case Stone => c.stone
    case Meat => c.meat
    case NoResource => 0
  }

  function ShortOf(p: SimPlayer, c: Cost): ResourceType -> bool
  {
    (t: ResourceType) => Stock(p, t) < Need(c, t)
  }

  /** The first resource of `order` whose stock is below its part of the
      price, if any. */
  function FirstShortfall(p: SimPlayer, c: Cost, order: seq<ResourceType>): (r: Option<ResourceType>)
    ensures r.None? <==> forall i :: 0 <= i < |order| ==> Stock(p, order[i]) >= Need(c, order[i])
    ensures r.Some? ==> exists i :: 0 <= i < |order| && order[i] == r.value && Stock(p, order[i]) < Need(c, order[i])
                                    && forall j :: 0 <= j < i ==> Stock(p, order[j]) >= Need(c, order[j])
  {
    match Select.FirstIndex(order, ShortOf(p, c))
    case None => None
    case Some(i) => Some(order[i])
  }

  /** A three-entry order picks its first short entry: the first when it
      is short, the second when only it and later ones are, and so on. */
  lemma ShortfallOfThree(p: SimPlayer, c: Cost, a: ResourceType, b: ResourceType, d: ResourceType)
    ensures var r := FirstShortfall(p, c, [a, b, d]);
            && (Stock(p, a) < Need(c, a) ==> r == Some(a))
            && (Stock(p, a) >= Need(c, a) && Stock(p, b) < Need(c, b) ==> r == Some(b))
            && (Stock(p, a) >= Need(c, a) && Stock(p, b) >= Need(c, b) && Stock(p, d) < Need(c, d) ==> r == Some(d))
            && (Stock(p, a) >= Need(c, a) && Stock(p, b) >= Need(c, b) && Stock(p, d) >= Need(c, d) ==> r.None?)
  {
    var s := [a, b, d];
    var r := FirstShortfall(p, c, s);
    assert s[0] == a && s[1] == b && s[2] == d;
    if r.None? {
      assert Stock(p, s[0]) >= Need(c, s[0]) && Stock(p, s[1]) >= Need(c, s[1]) && Stock(p, s[2]) >= Need(c, s[2]);
    } else {
      var i :| 0 <= i < |s| && s[i] == r.value && Stock(p, s[i]) < Need(c, s[i])
               && forall j :: 0 <= j < i ==> Stock(p, s[j]) >= Need(c, s[j]);
      if i == 1 {
        assert Stock(p, s[0]) >= Need(c, s[0]);
      } else if i == 2 {
        assert Stock(p, s[0]) >= Need(c, s[0]) && Stock(p, s[1]) >= Need(c, s[1]);
      }
    }
  }

  // ---------------------------------------------------------------------
  // The gather loop.

  /** The node a worker at `pos` is sent to: the nearest node with
      something left of type `t`, else of the fallback type. */
  function GatherNode(ws: World, pos: Int2, t: ResourceType, fallback: Option<ResourceType>): (r: Option<SimResource>)
    ensures r.Some? ==> r.value in ws.resources && r.value.amount > 0
    ensures Select.Any(ws.resources, Matches(t, true)) ==> r.Some? && Matches(t, true)(r.value)
    ensures r.None? <==> (!Select.Any(ws.resources, Matches(t, true))
                          && (fallback.None? || !Select.Any(ws.resources, Matches(fallback.value, true))))
  {
    match FindNearestResource(ws, pos, t, true)
    case Some(res) => Some(res)
    case None =>
      if fallback.None? then None else FindNearestResource(ws, pos, fallback.value, true)
  }

  /** One worker of the gather loop: sent to the node for type `t` when
      there is one, and left as it is otherwise or when no cell around
      that node is walkable. */
  function GatherOrder(ws: World, w: SimUnit, t: ResourceType, fallback: Option<ResourceType>): (r: SimUnit)
    requires ws.mapData.Valid()
    ensures r == w.(path := r.path, targetId := r.targetId, state := r.state)
    ensures GatherNode(ws, w.pos, t, fallback).None? ==> r == w
    ensures GatherNode(ws, w.pos, t, fallback).Some? ==>
              var res := GatherNode(ws, w.pos, t, fallback).value;
              ((forall p :: Adjacent(res.pos, p) ==> !IsWalkable(ws, p)) ==> r == w) &&
              (!(forall p :: Adjacent(res.pos, p) ==> !IsWalkable(ws, p)) ==>
                 r.targetId == res.id && (r.state == Moving || r.state == Gathering))
  {
    match GatherNode(ws, w.pos, t, fallback)
    case None => w
    case Some(res) => TryAssignGatherTask(ws, w, res).1
  }

  /** The gather loop: the `k`-th listed worker (counting from `k`) is sent
      to the node for type `pick(k)` as `GatherOrder` says, against the
      world as it stood when the loop began. Only the listed workers
      change; with no node for anybody nothing changes; with distinct IDs
      each listed worker ends as its `GatherOrder` leaves it. */
  function SendToGather(ws: World, workers: seq<SimUnit>, k: nat, pick: nat -> ResourceType,
                        fallback: Option<ResourceType>): (r: World)
    requires ws.mapData.Valid()
    ensures r == ws.(units := r.units) && |r.units| == |ws.units|
    ensures forall q :: q !in Ids(workers) ==> GetUnit(r, q) == GetUnit(ws, q)
    ensures (forall i :: 0 <= i < |workers| ==> GatherNode(ws, workers[i].pos, pick(k + i), fallback).None?) ==> r == ws
    ensures DistinctUnitIds(workers) ==>
              forall i :: 0 <= i < |workers| && GetUnit(ws, workers[i].id) == Some(workers[i]) ==>
                GetUnit(r, workers[i].id) == Some(GatherOrder(ws, workers[i], pick(k + i), fallback))
  {
    var f := (i: nat, w: SimUnit) => GatherOrder(ws, w, pick(i), fallback);
    assert KeepsIds(workers, k, f) by {
      forall i | 0 <= i < |workers| ensures f(k + i, workers[i]).id == workers[i].id {
        var u := GatherOrder(ws, workers[i], pick(k + i), fallback);
        assert u == workers[i].(path := u.path, targetId := u.targetId, state := u.state);
      }
    }
    OrderEach(ws, workers, k, f)
  }

  function Always(t: ResourceType): nat -> ResourceType
  {
    (k: nat) => t
  }

  /** The common `AssignGatherTasks`: the first short resource of the
      bot's order sends every idle worker of the player to its nearest node
      with something left; with no shortfall (or no player) nothing
      happens. With unique IDs each idle worker of the player ends as
      `GatherOrder` leaves it for the short type. */
  function GatherFor(ws: World, pid: int, c: Cost, order: seq<ResourceType>): (r: World)
    requires ws.mapData.Valid()
    ensures r == ws.(units := r.units) && |r.units| == |ws.units|
    ensures forall q :: q !in Ids(Select.Filter(ws.units, IdleWorkerOf(pid))) ==> GetUnit(r, q) == GetUnit(ws, q)
    ensures GetPlayer(ws, pid).None? || FirstShortfall(GetPlayer(ws, pid).value, c, order).None? ==> r == ws
    ensures UniqueUnitIds(ws) && GetPlayer(ws, pid).Some? && FirstShortfall(GetPlayer(ws, pid).value, c, order).Some? ==>
              forall w :: w in ws.units && w.player == pid && w.kind == Worker && w.state == Idle ==>
                GetUnit(r, w.id) == Some(GatherOrder(ws, w, FirstShortfall(GetPlayer(ws, pid).value, c, order).value, None))
  {
    match GetPlayer(ws, pid)
    case None => ws
    case Some(p) =>
      match FirstShortfall(p, c, order)
      case None => ws
      case Some(t) =>
        GatherAllIdle(ws, pid, t);
        SendToGather(ws, Select.Filter(ws.units, IdleWorkerOf(pid)), 0, Always(t), None)
  }

  /** Sending every idle worker of the player to gather one type: with
      unique IDs each of them ends as `GatherOrder` leaves it. */
  lemma GatherAllIdle(ws: World, pid: int, t: ResourceType)
    requires ws.mapData.Valid()
    ensures UniqueUnitIds(ws) ==>
              var r := SendToGather(ws, Select.Filter(ws.units, IdleWorkerOf(pid)), 0, Always(t), None);
              forall w :: w in ws.units && w.player == pid && w.kind == Worker && w.state == Idle ==>
                GetUnit(r, w.id) == Some(GatherOrder(ws, w, t, None))
  {
    var idle := Select.Filter(ws.units, IdleWorkerOf(pid));
    var r := SendToGather(ws, idle, 0, Always(t), None);
    if UniqueUnitIds(ws) {
      FilterStored(ws, IdleWorkerOf(pid));
      forall w | w in ws.units && w.player == pid && w.kind == Worker && w.state == Idle
        ensures GetUnit(r, w.id) == Some(GatherOrder(ws, w, t, None))
      {
        assert IdleWorkerOf(pid)(w);
        var i :| 0 <= i < |idle| && idle[i] == w;
        assert Always(t)(0 + i) == t;
      }
    }
  }

  // ---------------------------------------------------------------------
  // Placement tries.

  /** The cells `base + offset` of a run of random offsets. */
  function Shifted(base: Int2, offsets: seq<Int2>): (s: seq<Int2>)
    ensures |s| == |offsets|
    ensures forall i :: 0 <= i < |s| ==> s[i] == Add(base, offsets[i])
  {
    if |offsets| == 0 then [] else [Add(base, offsets[0])] + Shifted(base, offsets[1..])
  }

  /** Every offset has both components in `[-r, r]`. */
  predicate OffsetsWithin(offsets: seq<Int2>, r: int)
  {
    forall i :: 0 <= i < |offsets| ==> -r <= offsets[i].x <= r && -r <= offsets[i].y <= r
  }

  /** The try loop: the first try the test accepts is built on. The bots
      spend without checking the result, so an unaffordable price is not
      paid and the building is still placed. */
  function PlaceFirst(ws: World, pid: int, worker: SimUnit, kind: BuildingType, tries: seq<Int2>, ok: Int2 -> bool,
                      cost: Cost): (r: (Option<Int2>, World))
    requires ws.mapData.Valid()
    ensures r.1.mapData.Valid()
    ensures r.0.None? <==> forall i :: 0 <= i < |tries| ==> !ok(tries[i])
    ensures r.0.Some? ==> exists i :: 0 <= i < |tries| && tries[i] == r.0.value && ok(tries[i])
                                      && forall j :: 0 <= j < i ==> !ok(tries[j])
    ensures r.0.None? ==> r.1 == ws
    ensures r.0.Some? ==> Erected(ws, r.1, pid, worker, kind, r.0.value, cost)
  {
    match Select.FirstIndex(tries, ok)
    case None => (None, ws)
    case Some(i) => (Some(tries[i]), BuildAt(ws, pid, worker, kind, tries[i], cost))
  }

  /** The tries around the base; none without a base. */
  function PlaceAround(ws: World, pid: int, worker: SimUnit, kind: BuildingType, base: Option<SimBuilding>,
                       offsets: seq<Int2>, ok: Int2 -> bool, cost: Cost): (r: (Option<Int2>, World))
    requires ws.mapData.Valid()
    ensures r.1.mapData.Valid()
    ensures r.0.None? ==> r.1 == ws
    ensures base.None? ==> r.0.None?
    ensures r.0.Some? ==> base.Some? && ok(r.0.value)
                          && exists i :: 0 <= i < |offsets| && r.0.value == Add(base.value.pos, offsets[i])
                                         && forall j :: 0 <= j < i ==> !ok(Add(base.value.pos, offsets[j]))
    ensures base.Some? && r.0.None? ==> forall i :: 0 <= i < |offsets| ==> !ok(Add(base.value.pos, offsets[i]))
    ensures r.0.Some? ==> Erected(ws, r.1, pid, worker, kind, r.0.value, cost)
  {
    if base.None? then (None, ws)
    else PlaceFirst(ws, pid, worker, kind, Shifted(base.value.pos, offsets), ok, cost)
  }

  /** A placed cell lies within the offsets' box around the base. */
  lemma PlacedNearBase(ws: World, pid: int, worker: SimUnit, kind: BuildingType, base: Option<SimBuilding>,
                       offsets: seq<Int2>, ok: Int2 -> bool, cost: Cost, rad: nat)
    requires ws.mapData.Valid()
    requires OffsetsWithin(offsets, rad)
    requires PlaceAround(ws, pid, worker, kind, base, offsets, ok, cost).0.Some?
    ensures base.Some? && Chebyshev(PlaceAround(ws, pid, worker, kind, base, offsets, ok, cost).0.value, base.value.pos) <= rad
  {
    var p := PlaceAround(ws, pid, worker, kind, base, offsets, ok, cost).0.value;
    var i :| 0 <= i < |offsets| && p == Add(base.value.pos, offsets[i]);
    ChebyshevBox(p, base.value.pos, rad);
  }

  /** The first idle worker of the player (`GetIdleWorker`). */
  function IdleWorker(ws: World, pid: int): (r: Option<SimUnit>)
    ensures r.None? <==> !Select.Any(ws.units, IdleWorkerOf(pid))
    ensures r.Some? ==> r.value in ws.units && IdleWorkerOf(pid)(r.value) && GetUnit(ws, r.value.id).Some?
  {
    var w := Select.FirstWhere(ws.units, IdleWorkerOf(pid));
    assert w.None? ==> !Select.Any(ws.units, IdleWorkerOf(pid));
    w
  }

  /** `r` is `ws` after one build order of `kind` carried out by the
      player's first idle worker on some cell (see `Spots.Erected`). */
  ghost predicate BuiltOne(ws: World, r: World, pid: int, kind: BuildingType, cost: Cost)
    requires ws.mapData.Valid() && r.mapData.Valid()
  {
    IdleWorker(ws, pid).Some? && exists pos :: Erected(ws, r, pid, IdleWorker(ws, pid).value, kind, pos, cost)
  }

  /** The cell test of the bots' tries: in bounds and the node's walkable
      flag set (occupancy is not read). */
  function FlagWalkable(ws: World): Int2 -> bool
    requires ws.mapData.Valid()
  {
    (p: Int2) => NodeFlagWalkable(ws, p)
  }

  // ---------------------------------------------------------------------
  // Lookups the bots repeat.

  function OwnKind(pid: int, kind: BuildingType): SimBuilding -> bool
  {
    (b: SimBuilding) => b.player == pid && b.kind == kind
  }

  function OwnUnfinished(pid: int, kind: BuildingType): SimBuilding -> bool
  {
    (b: SimBuilding) => b.player == pid && b.kind == kind && !b.isConstructed
  }

  function OwnUnitKind(pid: int, kind: UnitType): SimUnit -> bool
  {
    (u: SimUnit) => u.player == pid && u.kind == kind
  }

  function OwnIdle(pid: int, kind: UnitType): SimUnit -> bool
  {
    (u: SimUnit) => u.player == pid && u.kind == kind && u.state == Idle
  }

  function EnemyUnit(pid: int): SimUnit -> bool
  {
    (u: SimUnit) => u.player != pid
  }

  function EnemyUnitKind(pid: int, kind: UnitType): SimUnit -> bool
  {
    (u: SimUnit) => u.player != pid && u.kind == kind
  }

  function EnemyBuilding(pid: int): SimBuilding -> bool
  {
    (b: SimBuilding) => b.player != pid
  }

  function EnemyKind(pid: int, kind: BuildingType): SimBuilding -> bool
  {
    (b: SimBuilding) => b.player != pid && b.kind == kind
  }

  /** The player's base: its first building of type Base. */
  function BaseOf(ws: World, pid: int): (r: Option<SimBuilding>)
    ensures r.Some? ==> r.value in ws.buildings && r.value.player == pid && r.value.kind == Base
    ensures r.None? <==> !Select.Any(ws.buildings, OwnKind(pid, Base))
  {
    Select.FirstWhere(ws.buildings, OwnKind(pid, Base))
  }

  /** The map centre `(MAP_WIDTH / 2, MAP_HEIGHT / 2)` the bots search
      towards when no target is left. */
  function Centre(cfg: Config): (c: Int2)
    ensures 0 <= 2 * c.x <= cfg.mapWidth && 0 <= 2 * c.y <= cfg.mapHeight
  {
    Int2(cfg.mapWidth / 2, cfg.mapHeight / 2)
  }

  /** What an attack order aims at. */
  datatype Target = AtUnit(u: SimUnit) | AtBuilding(b: SimBuilding) | NoTarget

  /** The building fallback of the bots' target searches: the first enemy
      base, else the first enemy building of any type. */
  function BuildingTarget(ws: World, pid: int): (r: Option<SimBuilding>)
    ensures r.Some? ==> r.value in ws.buildings && r.value.player != pid
    ensures r.None? <==> !Select.Any(ws.buildings, EnemyBuilding(pid))
    ensures Select.Any(ws.buildings, EnemyKind(pid, Base)) ==> r.Some? && r.value.kind == Base
  {
    match Select.FirstWhere(ws.buildings, EnemyKind(pid, Base))
    case Some(b) => Some(b)
    case None =>
      var any := Select.FirstWhere(ws.buildings, EnemyBuilding(pid));
      assert any.None? ==> !Select.Any(ws.buildings, EnemyBuilding(pid));
      any
  }

  /** The common attack choice: the first enemy unit; with none, the
      building fallback. */
  function AttackTarget(ws: World, pid: int): (t: Target)
    ensures t.AtUnit? <==> Select.Any(ws.units, EnemyUnit(pid))
    ensures t.AtUnit? ==> t.u in ws.units && t.u.player != pid
    ensures t.AtBuilding? ==> t.b in ws.buildings && t.b.player != pid
    ensures t.AtBuilding? && Select.Any(ws.buildings, EnemyKind(pid, Base)) ==> t.b.kind == Base
    ensures t.NoTarget? <==> !Select.Any(ws.units, EnemyUnit(pid)) && !Select.Any(ws.buildings, EnemyBuilding(pid))
  {
    match Select.FirstWhere(ws.units, EnemyUnit(pid))
    case Some(u) => AtUnit(u)
    case None =>
      match BuildingTarget(ws, pid)
      case Some(b) => AtBuilding(b)
      case None => NoTarget
  }

  /** An attack order on a target: a unit is chased to its own cell, a
      building is approached as `OrderAttack` says, and without a target
      nothing happens. Only the path, the target and the task change. */
  function Attack(ws: World, s: SimUnit, t: Target): (r: SimUnit)
    requires ws.mapData.Valid()
    ensures r == s.(path := r.path, targetId := r.targetId, state := r.state)
    ensures t.AtUnit? ==>
              r.targetId == t.u.id && r.path == PathFinding.FindPath(ws, s.pos, t.u.pos) &&
              r.state == TaskOnArrival(r.path, Attacking)
    ensures t.AtBuilding? && FindWalkableNeighbor(ws, t.b.pos).None? ==> r == s
    ensures t.AtBuilding? && FindWalkableNeighbor(ws, t.b.pos).Some? ==>
              r.targetId == t.b.id && (r.state == Moving || r.state == Attacking)
    ensures t.NoTarget? ==> r == s
  {
    match t
    case AtUnit(u) => OrderAttackUnit(ws, s, u)
    case AtBuilding(b) => OrderAttack(ws, s, b)
    case NoTarget => s
  }

  /** Every listed soldier attacks the target, against the world as it
      stood when the loop began; only they change, and with distinct IDs
      each ends as `Attack` leaves it. */
  function AttackAll(ws: World, squad: seq<SimUnit>, t: Target): (r: World)
    requires ws.mapData.Valid()
    ensures r == ws.(units := r.units) && |r.units| == |ws.units|
    ensures forall q :: q !in Ids(squad) ==> GetUnit(r, q) == GetUnit(ws, q)
    ensures t.NoTarget? ==> r == ws
    ensures DistinctUnitIds(squad) ==>
              forall s :: s in squad && GetUnit(ws, s.id) == Some(s) ==> GetUnit(r, s.id) == Some(Attack(ws, s, t))
  {
    OrderAll(ws, squad, (s: SimUnit) => Attack(ws, s, t))
  }

  /** Every listed unit is ordered to walk to `c`; only they change, and
      with distinct IDs each ends as `OrderMove` leaves it: on a path that
      ends at `c`, or with an empty path and its task kept when `c` cannot
      be reached. */
  function MarchAll(ws: World, squad: seq<SimUnit>, c: Int2): (r: World)
    requires ws.mapData.Valid()
    ensures r == ws.(units := r.units) && |r.units| == |ws.units|
    ensures forall q :: q !in Ids(squad) ==> GetUnit(r, q) == GetUnit(ws, q)
    ensures DistinctUnitIds(squad) ==>
              forall s :: s in squad && GetUnit(ws, s.id) == Some(s) ==> GetUnit(r, s.id) == Some(OrderMove(ws, s, c))
  {
    OrderAll(ws, squad, (s: SimUnit) => OrderMove(ws, s, c))
  }
}
