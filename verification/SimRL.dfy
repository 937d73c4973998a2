/** The tabular Q-learning environment over the simulation: a 64-row state
    code from player 1's stocks and population, five orders for the first
    idle worker of player 1, and the episode end once any Barracks stands. */
module SimRL {
  import opened Wrappers
  import opened Types
  import opened World
  import opened Config
  import opened Resources
  import opened Grid
  import opened Buildings
  import opened Units
  import opened StateCode
  import Tick
  import Select

  const WoodThresholds: seq<int> := [0, 500, 1000, 2000]
  const StoneThresholds: seq<int> := [0, 500, 1000, 2000]
  /** The meat thresholds as the environment declares them. */
  const MeatThresholdsAsWritten: seq<int> := [0, 50, 100]
  /** Two meat levels, as the 64-row layout and the scene environment use. */
  const MeatThresholds: seq<int> := [0, 50]

  /** `pop` is 1 exactly when the population has reached the cap. */
  function PopLevel(p: SimPlayer): nat
  {
    if p.curPop == p.maxPop then 1 else 0
  }

  /** The levels of player `p` under the given meat thresholds. */
  function LevelsOf(p: SimPlayer, meat: seq<int>): Levels
    requires |meat| > 0
  {
    Levels(ThresholdIndex(p.wood, WoodThresholds), ThresholdIndex(p.stone, StoneThresholds),
           ThresholdIndex(p.meat, meat), PopLevel(p))
  }

  /** `GetState` as written: with three meat thresholds the meat level can
      be 2 and its weight 2 collides with the stone weight 4, so the code
      runs up to 65, past the 64 rows. */
  function GetStateAsWritten(ws: World): (n: int)
    ensures GetPlayer(ws, 1).None? ==> n == 0
    ensures 0 <= n <= 65
  {
    match GetPlayer(ws, 1)
    case None => 0
    case Some(p) => Encode(LevelsOf(p, MeatThresholdsAsWritten))
  }

  /** `GetState` with two meat levels: a row of the 64-row table, from which
      the four levels can be read back. */
  function GetState(ws: World): (n: int)
    ensures GetPlayer(ws, 1).None? ==> n == 0
    ensures 0 <= n < 64
    ensures GetPlayer(ws, 1).Some? ==> Decode(n) == LevelsOf(GetPlayer(ws, 1).value, MeatThresholds)
  {
    match GetPlayer(ws, 1)
    case None => 0
    case Some(p) =>
      EncodeDecode(LevelsOf(p, MeatThresholds));
      Encode(LevelsOf(p, MeatThresholds))
  }

  /** The world with player 1 holding the given stocks and population. */
  function WithPlayerOne(wood: int, stone: int, meat: int, cur: int, max: int): World
  {
    World(0, MapData(0, 0, []), [], [], [], [SimPlayer(1, wood, stone, meat, cur, max, 0.0, 0.0)], 1)
  }

  /** The as-written code leaves the 64-row table (a rich, capped player
      gets 65) and is not injective (stone level 1 and meat level 2 share
      code 4). */
  lemma AsWrittenStateOverflows()
    ensures GetStateAsWritten(WithPlayerOne(2000, 2000, 100, 5, 5)) == 65
    ensures GetStateAsWritten(WithPlayerOne(0, 500, 0, 0, 5)) == 4
    ensures GetStateAsWritten(WithPlayerOne(0, 0, 100, 0, 5)) == 4
  {
    var rich := WithPlayerOne(2000, 2000, 100, 5, 5);
    assert GetPlayer(rich, 1) == Some(rich.players[0]);
    var a := WithPlayerOne(0, 500, 0, 0, 5);
    assert GetPlayer(a, 1) == Some(a.players[0]);
    var b := WithPlayerOne(0, 0, 100, 0, 5);
    assert GetPlayer(b, 1) == Some(b.players[0]);
  }

  /** Players whose levels differ get different corrected states. */
  lemma GetStateSeparates(ws: World, ws': World)
    requires GetPlayer(ws, 1).Some? && GetPlayer(ws', 1).Some?
    requires LevelsOf(GetPlayer(ws, 1).value, MeatThresholds) != LevelsOf(GetPlayer(ws', 1).value, MeatThresholds)
    ensures GetState(ws) != GetState(ws')
  {
  }

  // ---------------------------------------------------------------------
  // Orders.

  function IsIdleWorkerOf(pid: int): SimUnit -> bool
  {
    (u: SimUnit) => u.kind == Worker && u.state == Idle && u.player == pid
  }

  function IsBaseOf(pid: int): SimBuilding -> bool
  {
    (b: SimBuilding) => b.kind == Base && b.player == pid
  }

  function OfKind(t: ResourceType): SimResource -> bool
  {
    (r: SimResource) => r.kind == t
  }

  function ResourceDistance(from: Int2): SimResource -> int
  {
    (r: SimResource) => Manhattan(from, r.pos)
  }

  /** `OrderGather`: the nearest node of type `t` (the first of equal
      distance) is assigned to the worker, worth 5; no such node, or no
      free cell next to it, is worth -0.5 and changes nothing. */
  function OrderGather(ws: World, worker: SimUnit, t: ResourceType): (r: (real, World))
    requires ws.mapData.Valid()
    ensures r.0 == 5.0 || r.0 == -0.5
    ensures r.1.mapData == ws.mapData && r.1.tick == ws.tick
    ensures r.0 == -0.5 ==> r.1 == ws
    ensures Select.NearestFirst(ws.resources, OfKind(t), ResourceDistance(worker.pos)).None? ==> r.0 == -0.5
    ensures r.0 == 5.0 ==>
              var i := Select.NearestFirst(ws.resources, OfKind(t), ResourceDistance(worker.pos)).value;
              && ws.resources[i].kind == t
              && (forall j :: 0 <= j < |ws.resources| && ws.resources[j].kind == t ==>
                    Manhattan(worker.pos, ws.resources[i].pos) <= Manhattan(worker.pos, ws.resources[j].pos))
              && r.1 == PutUnit(ws, TryAssignGatherTask(ws, worker, ws.resources[i]).1)
              && TryAssignGatherTask(ws, worker, ws.resources[i]).1.targetId == ws.resources[i].id
  {
    match Select.NearestFirst(ws.resources, OfKind(t), ResourceDistance(worker.pos))
    case None => (-0.5, ws)
    case Some(i) =>
      var (ok, u1) := TryAssignGatherTask(ws, worker, ws.resources[i]);
      if ok then (5.0, PutUnit(ws, u1)) else (-0.5, ws)
  }

  /** The price of a worker as this environment pays it: meat only. */
  const RecruitCost: Cost := Cost(0, 0, WORKER_COST_MEAT)

  /** `OrderRecruitWorker`: player 1's first Base starts training a worker
      after paying its meat, worth 50; with no Base or a busy one -0.5,
      and without the meat -1, both changing nothing. */
  function OrderRecruitWorker(ws: World): (r: (real, World))
    ensures r.0 == 50.0 || r.0 == -0.5 || r.0 == -1.0
    ensures r.1.mapData == ws.mapData && r.1.tick == ws.tick
    ensures r.0 != 50.0 ==> r.1 == ws
    ensures Select.FirstWhere(ws.buildings, IsBaseOf(1)).None? ==> r.0 == -0.5
    ensures r.0 == 50.0 <==>
              && Select.FirstWhere(ws.buildings, IsBaseOf(1)).Some?
              && !Select.FirstWhere(ws.buildings, IsBaseOf(1)).value.isTraining
              && CanAfford(ws, 1, RecruitCost)
    ensures r.0 == 50.0 ==>
              var b := Select.FirstWhere(ws.buildings, IsBaseOf(1)).value;
              && GetPlayer(r.1, 1) == Some(Paid(GetPlayer(ws, 1).value, RecruitCost))
              && r.1.units == ws.units
              && (GetBuilding(ws, b.id).Some? ==>
                    GetBuilding(r.1, b.id) == Some(b.(isTraining := true, unitInProduction := Worker, trainingTimer := 0.0)))
  {
    match Select.FirstWhere(ws.buildings, IsBaseOf(1))
    case None => (-0.5, ws)
    case Some(b) =>
      if b.isTraining then (-0.5, ws)
      else
        var (ok, ws1) := SpendResources(ws, 1, RecruitCost);
        if ok then (50.0, PutBuilding(ws1, b.(isTraining := true, unitInProduction := Worker, trainingTimer := 0.0)))
        else (-1.0, ws)
  }

  const BarracksPrice: Cost := Cost(BARRACKS_COST_WOOD, BARRACKS_COST_STONE, 0)

  /** `SpawnBuilding`: a building of player 1 under the next ID at `pos`,
      its cell made unwalkable; a finished one raises the cap. */
  function SpawnBuilding(ws: World, kind: BuildingType, pos: Int2, built: bool): (r: (SimBuilding, World))
    requires ws.mapData.Valid()
    ensures r.0 == NewBuilding(ws.idCounter, 1, kind, pos, built, if built then BUILDING_MAX_PROGRESS else 0.0)
    ensures r.1.mapData.Valid() && r.1.idCounter == ws.idCounter + 1
    ensures r.1.mapData.width == ws.mapData.width && r.1.mapData.height == ws.mapData.height
    ensures r.1.buildings == ws.buildings + [r.0] && r.1.units == ws.units && r.1.resources == ws.resources
    ensures !built ==> r.1.players == ws.players
    ensures ws.mapData.InBounds(pos) ==> !r.1.mapData.At(pos).walkable
  {
    var (id, ws1) := NextID(ws);
    var b := NewBuilding(id, 1, kind, pos, built, if built then BUILDING_MAX_PROGRESS else 0.0);
    var ws2 := SetWalkable(AddBuilding(ws1, b), pos, false);
    (b, if built then OnBuildingCompleted(b, ws2) else ws2)
  }

  /** `OrderBuildBarracks`: with the wood and stone and a free cell next to
      the worker, the price is paid, an unfinished Barracks of player 1 is
      placed there and the worker is sent to build it, worth 50; otherwise
      -1 and nothing changes. */
  function OrderBuildBarracks(ws: World, worker: SimUnit): (r: (real, World))
    requires ws.mapData.Valid()
    ensures r.0 == 50.0 || r.0 == -1.0
    ensures r.1.mapData.Valid() && r.1.tick == ws.tick
    ensures r.0 == -1.0 ==> r.1 == ws
    ensures r.0 == 50.0 <==> CanAfford(ws, 1, BarracksPrice) && FindWalkableNeighbor(ws, worker.pos).Some?
    ensures r.0 == 50.0 ==>
              && GetPlayer(r.1, 1) == Some(Paid(GetPlayer(ws, 1).value, BarracksPrice))
              && |r.1.buildings| == |ws.buildings| + 1
              && r.1.buildings[..|ws.buildings|] == ws.buildings
              && var b := r.1.buildings[|ws.buildings|];
                 b.kind == Barracks && b.player == 1 && !b.isConstructed && b.id == ws.idCounter
                 && b.pos == FindWalkableNeighbor(ws, worker.pos).value
  {
    if !CanAfford(ws, 1, BarracksPrice) then (-1.0, ws)
    else match FindWalkableNeighbor(ws, worker.pos)
      case None => (-1.0, ws)
      case Some(pos) =>
        var ws1 := SpendResources(ws, 1, BarracksPrice).1;
        var (b, ws2) := SpawnBuilding(ws1, Barracks, pos, false);
        var b1 := InitializeBuildingStats(b);
        var ws3 := ws2.(buildings := ws1.buildings + [b1]);
        (50.0, PutUnit(ws3, OrderBuild(ws3, worker, b1)))
  }

  function IsBarracks(b: SimBuilding): bool
  {
    b.kind == Barracks
  }

  /** `IsTerminal`: some Barracks exists, of any owner, finished or not. */
  predicate IsTerminal(ws: World)
  {
    Select.Any(ws.buildings, IsBarracks)
  }

  /** A successful barracks order ends the episode. */
  lemma BarracksOrderEndsEpisode(ws: World, worker: SimUnit)
    requires ws.mapData.Valid()
    requires OrderBuildBarracks(ws, worker).0 == 50.0
    ensures IsTerminal(OrderBuildBarracks(ws, worker).1)
  {
    var r := OrderBuildBarracks(ws, worker).1;
    assert r.buildings[|ws.buildings|].kind == Barracks;
  }

  /** The order an action gives player 1's first idle worker: 0-2 gather
      wood, stone or meat, 3 recruits, 4 builds a barracks. With no idle
      worker, or any other action, nothing happens and it is worth 0. */
  function Order(ws: World, action: int): (r: (real, World))
    requires ws.mapData.Valid()
    ensures r.1.mapData.Valid() && r.1.tick == ws.tick
    ensures r.0 in {0.0, 5.0, -0.5, 50.0, -1.0}
    ensures Select.FirstWhere(ws.units, IsIdleWorkerOf(1)).None? || !(0 <= action <= 4) ==> r == (0.0, ws)
    ensures Select.FirstWhere(ws.units, IsIdleWorkerOf(1)).Some? && 0 <= action <= 4 ==> r.0 != 0.0
  {
    match Select.FirstWhere(ws.units, IsIdleWorkerOf(1))
    case None => (0.0, ws)
    case Some(w) =>
      if action == 0 then OrderGather(ws, w, Wood)
      else if action == 1 then OrderGather(ws, w, Stone)
      else if action == 2 then OrderGather(ws, w, Meat)
      else if action == 3 then OrderRecruitWorker(ws)
      else if action == 4 then OrderBuildBarracks(ws, w)
      else (0.0, ws)
  }

  /** `Step`: a -0.1 time penalty plus the order's value, then one tick. */
  function Step(ws: World, action: int, dt: real, draws: seq<real>): (r: (real, World))
    requires ws.mapData.Valid()
    ensures r.1.tick == ws.tick + 1 && r.1.mapData.Valid()
    ensures r.0 in {-0.1, 4.9, -0.6, 49.9, -1.1}
    ensures Select.FirstWhere(ws.units, IsIdleWorkerOf(1)).None? || !(0 <= action <= 4) ==>
              r == (-0.1, Tick.Advance(ws, dt, draws))
  {
    var o := Order(ws, action);
    (-0.1 + o.0, Tick.Advance(o.1, dt, draws))
  }

  /** The opening stocks of `Reset`: a fresh map and player 1 with 50 meat. */
  function Stocked(w: nat, h: nat): (r: World)
    ensures r.mapData == NewMap(w, h) && r.tick == 0 && r.idCounter == 1
    ensures r.units == [] && r.buildings == [] && r.resources == []
    ensures GetPlayer(r, 1) == Some(SimPlayer(1, 0, 0, 50, 0, 0, 0.0, 0.0))
  {
    var ws := NewWorld(w, h);
    assert GetPlayer(ws, 1) == Some(EmptyPlayer(1));
    AddResource(AddResource(AddResource(ws, 1, Meat, 50), 1, Wood, 0), 1, Stone, 0)
  }

  /** The stocked world with its finished Base of player 1 at the centre. */
  function Founded(w: nat, h: nat): (r: World)
    ensures r.mapData.Valid() && r.mapData.width == w && r.mapData.height == h && r.tick == 0
    ensures GetPlayer(r, 1) == Some(SimPlayer(1, 0, 0, 50, 0, POPULATION_BASE, 0.0, 0.0))
    ensures r.units == [] && r.resources == []
    ensures r.buildings == [NewBuilding(1, 1, Base, Int2(w / 2, h / 2), true, BUILDING_MAX_PROGRESS)]
  {
    SpawnBuilding(Stocked(w, h), Base, Int2(w / 2, h / 2), true).1
  }

  /** `Reset`: a fresh map, player 1 with 50 meat, a finished Base of
      player 1 at the centre (raising the cap to the base allowance) and,
      when a cell next to it is free, one worker of player 1 counted in
      the population. */
  function Reset(w: nat, h: nat): (r: World)
    ensures r.mapData.Valid() && r.mapData.width == w && r.mapData.height == h && r.tick == 0
    ensures GetPlayer(r, 1) == Some(SimPlayer(1, 0, 0, 50, |r.units|, POPULATION_BASE, 0.0, 0.0))
    ensures r.buildings == [NewBuilding(1, 1, Base, Int2(w / 2, h / 2), true, BUILDING_MAX_PROGRESS)]
    ensures r.resources == [] && |r.units| <= 1
    ensures forall u :: u in r.units ==> u.kind == Worker && u.player == 1
  {
    SpawnFirstWorker(Founded(w, h), Int2(w / 2, h / 2), 1);
    SpawnUnit(Founded(w, h), Int2(w / 2, h / 2), Worker, 1)
  }

  /** A worker spawned into a world with no units is the only unit, and
      its owner's population counts it. */
  lemma SpawnFirstWorker(ws: World, at: Int2, pid: int)
    requires ws.mapData.Valid() && ws.units == []
    requires GetPlayer(ws, pid).Some? && GetPlayer(ws, pid).value.curPop == 0
    ensures var r := SpawnUnit(ws, at, Worker, pid);
            && r.mapData.Valid() && r.mapData.width == ws.mapData.width && r.mapData.height == ws.mapData.height
            && r.buildings == ws.buildings && r.resources == ws.resources && r.tick == ws.tick
            && |r.units| <= 1 && (forall u :: u in r.units ==> u.kind == Worker && u.player == pid)
            && GetPlayer(r, pid) == Some(GetPlayer(ws, pid).value.(curPop := |r.units|))
  {
    var r := SpawnUnit(ws, at, Worker, pid);
    if HasPopulationSpace(ws, pid) && FindWalkableNeighbor(ws, at).Some? {
      assert r.units == [NewUnit(ws.idCounter, pid, Worker, FindWalkableNeighbor(ws, at).value)];
    }
  }

  /** A world whose only building is a Base and whose player 1 holds no
      wood or stone and 50 meat has not ended and is at meat level 1. */
  lemma OpeningState(r: World, b: SimBuilding)
    requires r.buildings == [b] && b.kind == Base
    requires GetPlayer(r, 1).Some?
    requires var p := GetPlayer(r, 1).value; p.wood == 0 && p.stone == 0 && p.meat == 50
    ensures !IsTerminal(r)
    ensures Decode(GetState(r)) == Levels(0, 0, 1, PopLevel(GetPlayer(r, 1).value))
  {
    assert r.buildings[0] == b;
  }

  /** A fresh episode has not ended and is at meat level 1 with no wood or
      stone. */
  lemma ResetState(w: nat, h: nat)
    ensures !IsTerminal(Reset(w, h))
    ensures Decode(GetState(Reset(w, h))) == Levels(0, 0, 1, if |Reset(w, h).units| == POPULATION_BASE then 1 else 0)
  {
    OpeningState(Reset(w, h), NewBuilding(1, 1, Base, Int2(w / 2, h / 2), true, BUILDING_MAX_PROGRESS));
  }
}
