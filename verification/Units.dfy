/** The unit system: the per-unit task machine (Idle, Moving, Gathering,
    Building, Attacking, Dead), kills and demolitions, and the orders that
    set a unit's path, target and task.

    The machine works on the world: the unit is the one stored under its
    ID, and every step writes the updated unit back, so a later lookup in
    the same step sees it. Orders return the ordered unit; the caller
    stores it. The random retry delay of a failed path search is the
    parameter `draw`, the value the generator returned in [0, 1). */
module Units {
  import opened Wrappers
  import opened Types
  import opened World
  import opened Config
  import opened Resources
  import opened Grid
  import opened PathFinding
  import opened Buildings

  /** The squared distance within which a unit stands next to a cell
      (diagonal neighbours are at 2). */
  const NextToSq: real := 2.1

  predicate InRange(a: Int2, b: Int2, range: real)
  {
    DistSq(a, b) as real <= range * range
  }

  // ---------------------------------------------------------------------
  // Paths.

  /** `p` is a walk from `from`: each cell is a king's move from the one
      before it. */
  predicate Chained(from: Int2, p: seq<Int2>)
  {
    |p| == 0 || (Adjacent(from, p[0]) && forall i :: 0 < i < |p| ==> Adjacent(p[i - 1], p[i]))
  }

  /** A path the search returned is a walk from its start. */
  lemma FoundPathIsChained(ws: World, start: Int2, end: Int2)
    requires ws.mapData.Valid()
    ensures Chained(start, FindPath(ws, start, end))
    ensures |FindPath(ws, start, end)| > 0 ==> FindPath(ws, start, end)[|FindPath(ws, start, end)| - 1] == end
  {
    var p := FindPath(ws, start, end);
    if |p| > 0 {
      assert PathShape(ws, start, end, p);
      forall i | 0 < i < |p|
        ensures Adjacent(p[i - 1], p[i])
      {
        assert 0 <= i - 1 < |p| - 1;
      }
    }
  }

  // ---------------------------------------------------------------------
  // Kills and demolitions.

  /** `KillUnit`: the unit is marked dead, its cell freed, it leaves the
      world and its owner's population drops by one (never below zero). */
  function KillUnit(ws: World, u: SimUnit): (r: (SimUnit, World))
    requires ws.mapData.Valid()
    ensures r.0 == u.(state := Dead)
    ensures forall v :: v in r.1.units <==> v in ws.units && v.id != u.id
    ensures r.1.mapData.Valid() && r.1.mapData.width == ws.mapData.width && r.1.mapData.height == ws.mapData.height
    ensures ws.mapData.InBounds(u.pos) ==> r.1.mapData.At(u.pos).occupant == NoOccupant
    ensures forall q :: r.1.mapData.InBounds(q) && q != u.pos ==> r.1.mapData.At(q) == ws.mapData.At(q)
    ensures r.1.buildings == ws.buildings && r.1.resources == ws.resources && r.1.idCounter == ws.idCounter
    ensures forall q :: q != u.player ==> GetPlayer(r.1, q) == GetPlayer(ws, q)
    ensures GetPlayer(ws, u.player).Some? ==>
              var c := GetPlayer(ws, u.player).value.curPop;
              GetPlayer(r.1, u.player) == Some(GetPlayer(ws, u.player).value.(curPop := if c - 1 < 0 then 0 else c - 1))
    ensures GetPlayer(ws, u.player).None? ==> r.1.players == ws.players
  {
    var ws1 := SetOccupant(ws, u.pos, NoOccupant);
    var ws2 := RemoveUnit(ws1, u.id);
    (u.(state := Dead), ModifyPopulation(ws2, u.player, -1))
  }

  /** `DestroyBuilding`: the building's cell is freed and walkable again and
      the building leaves the world. Its owner's cap is not reduced. */
  function DestroyBuilding(ws: World, b: SimBuilding): (r: World)
    requires ws.mapData.Valid()
    ensures forall x :: x in r.buildings <==> x in ws.buildings && x.id != b.id
    ensures r.mapData.Valid() && r.mapData.width == ws.mapData.width && r.mapData.height == ws.mapData.height
    ensures ws.mapData.InBounds(b.pos) ==>
              r.mapData.At(b.pos) == ws.mapData.At(b.pos).(occupant := NoOccupant, walkable := true)
    ensures forall q :: r.mapData.InBounds(q) && q != b.pos ==> r.mapData.At(q) == ws.mapData.At(q)
    ensures r.units == ws.units && r.players == ws.players && r.resources == ws.resources
  {
    var ws1 := if ws.mapData.InBounds(b.pos)
      then ws.(mapData := ws.mapData.Set(b.pos, ws.mapData.At(b.pos).(occupant := NoOccupant, walkable := true)))
      else ws;
    RemoveBuilding(ws1, b.id)
  }

  // ---------------------------------------------------------------------
  // Orders.

  /** `OrderMove` (and `MoveTo`): the unit takes the path the search finds;
      with a non-empty path it starts Moving and drops its target, with
      none only its path changes (to empty). */
  function OrderMove(ws: World, u: SimUnit, target: Int2): (r: SimUnit)
    requires ws.mapData.Valid()
    ensures r.path == FindPath(ws, u.pos, target)
    ensures |r.path| > 0 ==> r == u.(path := r.path, state := Moving, targetId := -1)
    ensures |r.path| == 0 ==> r == u.(path := [])
    ensures Chained(u.pos, r.path)
    ensures |r.path| > 0 ==> r.path[|r.path| - 1] == target
  {
    var p := FindPath(ws, u.pos, target);
    FoundPathIsChained(ws, u.pos, target);
    if |p| > 0 then u.(path := p, state := Moving, targetId := -1) else u.(path := p)
  }

  /** The task a unit ordered to a target takes: Moving when it has a path,
      otherwise the task it performs on the spot. */
  function TaskOnArrival(p: seq<Int2>, onSpot: TaskType): TaskType
  {
    if |p| > 0 then Moving else onSpot
  }

  /** The common shape of the orders that send a unit next to a target:
      with no free cell next to it the unit is unchanged; otherwise it takes
      the path to the first free neighbour, targets `targetId`, and moves
      or, already there, starts `onSpot`. */
  function OrderNextTo(ws: World, u: SimUnit, at: Int2, targetId: int, onSpot: TaskType): (r: (bool, SimUnit))
    requires ws.mapData.Valid()
    ensures !r.0 <==> forall p :: Adjacent(at, p) ==> !IsWalkable(ws, p)
    ensures !r.0 ==> r.1 == u
    ensures r.0 ==> r.1.targetId == targetId && (r.1.state == Moving || r.1.state == onSpot)
    ensures r.0 ==> r.1 == u.(path := r.1.path, targetId := targetId, state := TaskOnArrival(r.1.path, onSpot))
    ensures r.0 ==> Chained(u.pos, r.1.path)
    ensures r.0 && |r.1.path| > 0 ==>
              var last := r.1.path[|r.1.path| - 1];
              Adjacent(at, last) && IsWalkable(ws, last)
  {
    match FindWalkableNeighbor(ws, at)
    case None => (false, u)
    case Some(stand) =>
      var p := FindPath(ws, u.pos, stand);
      FoundPathIsChained(ws, u.pos, stand);
      (true, u.(path := p, targetId := targetId, state := TaskOnArrival(p, onSpot)))
  }

  /** `OrderBuild`: walk next to the building and build it. */
  function OrderBuild(ws: World, u: SimUnit, b: SimBuilding): (r: SimUnit)
    requires ws.mapData.Valid()
    ensures FindWalkableNeighbor(ws, b.pos).None? ==> r == u
    ensures FindWalkableNeighbor(ws, b.pos).Some? ==>
              r.targetId == b.id && (r.state == Moving || r.state == Building)
  {
    OrderNextTo(ws, u, b.pos, b.id, Building).1
  }

  /** `TryAssignGatherTask`: false, with the unit unchanged, exactly when no
      cell next to the resource is free; on true the unit targets the
      resource and is Moving or Gathering. */
  function TryAssignGatherTask(ws: World, u: SimUnit, res: SimResource): (r: (bool, SimUnit))
    requires ws.mapData.Valid()
    ensures !r.0 <==> forall p :: Adjacent(res.pos, p) ==> !IsWalkable(ws, p)
    ensures !r.0 ==> r.1 == u
    ensures r.0 ==> r.1.targetId == res.id && (r.1.state == Moving || r.1.state == Gathering)
    ensures r.1 == u.(path := r.1.path, targetId := r.1.targetId, state := r.1.state)
  {
    OrderNextTo(ws, u, res.pos, res.id, Gathering)
  }

  /** `OrderAttack`: walk next to the building and attack it. */
  function OrderAttack(ws: World, u: SimUnit, b: SimBuilding): (r: SimUnit)
    requires ws.mapData.Valid()
    ensures FindWalkableNeighbor(ws, b.pos).None? ==> r == u
    ensures FindWalkableNeighbor(ws, b.pos).Some? ==>
              r.targetId == b.id && (r.state == Moving || r.state == Attacking)
    ensures r == u.(path := r.path, targetId := r.targetId, state := r.state)
  {
    OrderNextTo(ws, u, b.pos, b.id, Attacking).1
  }

  /** `OrderAttackUnit`: path to the target's own cell, target it, and move
      or attack. */
  function OrderAttackUnit(ws: World, u: SimUnit, t: SimUnit): (r: SimUnit)
    requires ws.mapData.Valid()
    ensures r == u.(path := r.path, targetId := t.id, state := TaskOnArrival(r.path, Attacking))
    ensures r.path == FindPath(ws, u.pos, t.pos)
    ensures Chained(u.pos, r.path)
  {
    var p := FindPath(ws, u.pos, t.pos);
    FoundPathIsChained(ws, u.pos, t.pos);
    u.(path := p, targetId := t.id, state := TaskOnArrival(p, Attacking))
  }

  /** The search `MoveToTarget` runs: to the target itself, or for a
      building to its first free neighbour (none without one). */
  function SearchTowards(ws: World, from: Int2, target: Int2, isBuilding: bool): (p: seq<Int2>)
    requires ws.mapData.Valid()
    ensures Chained(from, p)
    ensures !isBuilding && |p| > 0 ==> p[|p| - 1] == target
    ensures isBuilding && |p| > 0 ==> Adjacent(target, p[|p| - 1]) && IsWalkable(ws, p[|p| - 1])
  {
    if !isBuilding then
      FoundPathIsChained(ws, from, target);
      FindPath(ws, from, target)
    else match FindWalkableNeighbor(ws, target)
      case None => []
      case Some(stand) =>
        FoundPathIsChained(ws, from, stand);
        FindPath(ws, from, stand)
  }

  /** `MoveToTarget`: a unit waiting out a failed search, or already on the
      target cell, is unchanged. A unit with a path keeps it and moves. A
      unit without one searches (towards a free neighbour of a building);
      on success it moves, on failure it idles and waits 0.5 plus the draw. */
  function MoveToTarget(ws: World, u: SimUnit, target: Int2, isBuilding: bool, draw: real): (r: SimUnit)
    requires ws.mapData.Valid()
    ensures u.retryTimer > 0.0 || u.pos == target ==> r == u
    ensures u.retryTimer <= 0.0 && u.pos != target && |u.path| > 0 ==> r == u.(state := Moving)
    ensures u.retryTimer <= 0.0 && u.pos != target && |u.path| == 0 ==>
              && Chained(u.pos, r.path)
              && (|r.path| > 0 ==> r == u.(path := r.path, state := Moving))
              && (|r.path| == 0 ==> r == u.(path := r.path, state := Idle, retryTimer := 0.5 + draw))
    ensures 0.0 <= draw < 1.0 && r.retryTimer != u.retryTimer ==> 0.5 <= r.retryTimer < 1.5
    ensures r.id == u.id && r.player == u.player && r.pos == u.pos && r.targetId == u.targetId
  {
    if u.retryTimer > 0.0 || u.pos == target then u
    else if |u.path| > 0 then u.(state := Moving)
    else
      var p := SearchTowards(ws, u.pos, target, isBuilding);
      if |p| > 0 then u.(path := p, state := Moving)
      else u.(path := p, state := Idle, retryTimer := 0.5 + draw)
  }

  /** Nothing lowers the retry timer, so once a search has failed the unit
      never searches through `MoveToTarget` again. */
  lemma RetryBlocksForever(ws: World, u: SimUnit, target: Int2, isBuilding: bool, draw: real, target': Int2, isBuilding': bool, draw': real)
    requires ws.mapData.Valid() && 0.0 <= draw
    requires u.retryTimer <= 0.0 && u.pos != target && |u.path| == 0
    ensures var r := MoveToTarget(ws, u, target, isBuilding, draw);
            r.state == Idle ==> MoveToTarget(ws, r, target', isBuilding', draw') == r
  {
  }

  // ---------------------------------------------------------------------
  // Movement.

  /** The movement step proper: progress accumulates; at 1 it resets and
      the unit steps onto the head of its path if that cell is free or its
      own, transferring its occupancy, else it drops the path. */
  function Step(ws: World, u: SimUnit, dt: real): (r: World)
    requires ws.mapData.Valid() && |u.path| > 0
    ensures r.mapData.Valid() && r.mapData.width == ws.mapData.width && r.mapData.height == ws.mapData.height
    ensures r.buildings == ws.buildings && r.resources == ws.resources && r.players == ws.players
    ensures u.moveProgress + u.moveSpeed * dt < 1.0 ==>
              r == PutUnit(ws, u.(moveProgress := u.moveProgress + u.moveSpeed * dt))
    ensures u.moveProgress + u.moveSpeed * dt >= 1.0 && !(IsWalkable(ws, u.path[0]) || u.path[0] == u.pos) ==>
              r == PutUnit(ws, u.(moveProgress := 0.0, path := []))
    ensures u.moveProgress + u.moveSpeed * dt >= 1.0 && (IsWalkable(ws, u.path[0]) || u.path[0] == u.pos) ==>
              && r.units == PutUnit(ws, u.(moveProgress := 0.0, pos := u.path[0], path := u.path[1..])).units
              && (ws.mapData.InBounds(u.path[0]) ==> r.mapData.At(u.path[0]).occupant == u.id)
              && (ws.mapData.InBounds(u.pos) && u.path[0] != u.pos ==> r.mapData.At(u.pos).occupant == NoOccupant)
              && (forall q :: r.mapData.InBounds(q) && q != u.pos && q != u.path[0] ==> r.mapData.At(q) == ws.mapData.At(q))
  {
    var progress := u.moveProgress + u.moveSpeed * dt;
    if progress < 1.0 then PutUnit(ws, u.(moveProgress := progress))
    else
      var next := u.path[0];
      if IsWalkable(ws, next) || next == u.pos then
        var ws1 := SetOccupant(ws, u.pos, NoOccupant);
        var ws2 := SetOccupant(ws1, next, u.id);
        PutUnit(ws2, u.(moveProgress := 0.0, pos := next, path := u.path[1..]))
      else PutUnit(ws, u.(moveProgress := 0.0, path := []))
  }

  /** A step along a walk keeps the rest of it a walk from the new cell,
      moves at most one king's move, and never lengthens the path. */
  lemma StepKeepsChain(ws: World, u: SimUnit, dt: real)
    requires ws.mapData.Valid() && |u.path| > 0 && Chained(u.pos, u.path)
    requires GetUnit(ws, u.id).Some?
    ensures var v := GetUnit(Step(ws, u, dt), u.id).value;
            && Chained(v.pos, v.path)
            && |v.path| <= |u.path|
            && (v.pos == u.pos || Adjacent(u.pos, v.pos))
            && (|v.path| > 0 ==> v.path[|v.path| - 1] == u.path[|u.path| - 1])
  {
    var progress := u.moveProgress + u.moveSpeed * dt;
    if progress >= 1.0 && (IsWalkable(ws, u.path[0]) || u.path[0] == u.pos) {
      StepLands(ws, u, dt);
      ChainTail(u.pos, u.path);
    }
  }

  /** A unit that takes its step stands on the first cell of its path with
      the rest of the path still to walk. */
  lemma StepLands(ws: World, u: SimUnit, dt: real)
    requires ws.mapData.Valid() && |u.path| > 0 && GetUnit(ws, u.id).Some?
    requires u.moveProgress + u.moveSpeed * dt >= 1.0 && (IsWalkable(ws, u.path[0]) || u.path[0] == u.pos)
    ensures GetUnit(Step(ws, u, dt), u.id) == Some(u.(moveProgress := 0.0, pos := u.path[0], path := u.path[1..]))
  {
    var ws1 := SetOccupant(ws, u.pos, NoOccupant);
    var ws2 := SetOccupant(ws1, u.path[0], u.id);
    assert GetUnit(ws2, u.id) == GetUnit(ws, u.id);
  }

  /** The rest of a walk is a walk from its first cell. */
  lemma ChainTail(from: Int2, p: seq<Int2>)
    requires |p| > 0 && Chained(from, p)
    ensures Chained(p[0], p[1..])
  {
    if |p| > 1 {
      forall i | 0 < i < |p[1..]|
        ensures Adjacent(p[1..][i - 1], p[1..][i])
      {
        assert p[1..][i - 1] == p[i] && p[1..][i] == p[i + 1];
      }
    }
  }

  /** The task chosen by a moving unit whose path has run out, given the
      entity its target ID names (resources first, then units, then
      buildings). A unit still out of range of its attack target, or away
      from the building it is to build, goes to `MoveToTarget`. */
  function Arrive(ws: World, u: SimUnit, draw: real): (r: SimUnit)
    requires ws.mapData.Valid()
    ensures u.targetId == -1 ==> r == u.(state := Idle)
    ensures u.targetId != -1 && GetResource(ws, u.targetId).Some? ==> r == u.(state := Gathering)
    ensures u.state == Moving && r.state == Attacking ==>
              (GetUnit(ws, u.targetId).Some? && GetUnit(ws, u.targetId).value.player != u.player
               && InRange(u.pos, GetUnit(ws, u.targetId).value.pos, u.attackRange))
              || (GetBuilding(ws, u.targetId).Some? && GetBuilding(ws, u.targetId).value.player != u.player
               && InRange(u.pos, GetBuilding(ws, u.targetId).value.pos, u.attackRange))
    ensures u.state == Moving && r.state == Building ==>
              GetBuilding(ws, u.targetId).Some? && GetBuilding(ws, u.targetId).value.player == u.player
              && !GetBuilding(ws, u.targetId).value.isConstructed
              && DistSq(u.pos, GetBuilding(ws, u.targetId).value.pos) as real <= NextToSq
    ensures r.id == u.id && r.player == u.player && r.pos == u.pos && r.targetId == u.targetId
  {
    if u.targetId == -1 then u.(state := Idle)
    else if GetResource(ws, u.targetId).Some? then u.(state := Gathering)
    else match GetUnit(ws, u.targetId)
      case Some(t) =>
        if t.player == u.player then u.(state := Idle)
        else if InRange(u.pos, t.pos, u.attackRange) then u.(state := Attacking)
        else MoveToTarget(ws, u.(state := Idle), t.pos, false, draw)
      case None =>
        match GetBuilding(ws, u.targetId)
        case None => u.(state := Idle)
        case Some(b) =>
          if b.player == u.player && !b.isConstructed then
            if DistSq(u.pos, b.pos) as real <= NextToSq then u.(state := Building)
            else MoveToTarget(ws, u, b.pos, true, draw)
          else if b.player != u.player then
            if InRange(u.pos, b.pos, u.attackRange) then u.(state := Attacking)
            else MoveToTarget(ws, u.(state := Idle), b.pos, true, draw)
          else u.(state := Idle)
  }

  /** `UpdateMovement`: with a path the unit steps; without one it picks
      its next task. */
  function UpdateMovement(ws: World, u: SimUnit, dt: real, draw: real): (r: World)
    requires ws.mapData.Valid()
    ensures r.mapData.Valid() && r.mapData.width == ws.mapData.width && r.mapData.height == ws.mapData.height
    ensures r.buildings == ws.buildings && r.resources == ws.resources && r.players == ws.players
    ensures |u.path| == 0 ==> r == PutUnit(ws, Arrive(ws, u, draw))
    ensures GetUnit(ws, u.id) == Some(u) ==> SameRoster(ws.units, r.units)
    ensures SameHeadcounts(ws.players, r.players)
  {
    if |u.path| == 0 then PutUnit(ws, Arrive(ws, u, draw)) else Step(ws, u, dt)
  }

  // ---------------------------------------------------------------------
  // Gathering.

  /** The resource left under `id`: its amount, or 0 once it is gone. */
  function Remaining(ws: World, id: int): int
  {
    match GetResource(ws, id)
    case None => 0
    case Some(res) => res.amount
  }

  /** A depleted node's cell: walkable Grass with no occupant. */
  function ClearCell(ws: World, p: Int2): (r: World)
    requires ws.mapData.Valid()
    ensures r == ws.(mapData := r.mapData)
    ensures r.mapData.Valid() && r.mapData.width == ws.mapData.width && r.mapData.height == ws.mapData.height
    ensures ws.mapData.InBounds(p) ==>
              r.mapData.At(p) == ws.mapData.At(p).(walkable := true, tile := GrassTile, occupant := NoOccupant)
    ensures forall q :: r.mapData.InBounds(q) && q != p ==> r.mapData.At(q) == ws.mapData.At(q)
  {
    if ws.mapData.InBounds(p)
    then ws.(mapData := ws.mapData.Set(p, ws.mapData.At(p).(walkable := true, tile := GrassTile, occupant := NoOccupant)))
    else ws
  }

  /** One harvest from `res` by `u`: `min(GATHER_AMOUNT, remaining)` moves
      from the node to the owner's stock; an emptied node is removed, its
      cell cleared, and the gatherer goes Idle. */
  function Harvest(ws: World, u: SimUnit, res: SimResource): (r: World)
    requires ws.mapData.Valid() && GetResource(ws, res.id) == Some(res)
    ensures r.mapData.Valid() && r.buildings == ws.buildings
    ensures r.mapData.width == ws.mapData.width && r.mapData.height == ws.mapData.height
    ensures r.players == AddResource(ws, u.player, res.kind, SimMath.MinInt(GATHER_AMOUNT, res.amount)).players
    ensures res.amount > GATHER_AMOUNT ==>
              && Remaining(r, res.id) == res.amount - GATHER_AMOUNT
              && r.mapData == ws.mapData
              && r.units == PutUnit(ws, u.(actionTimer := 0.0)).units
    ensures res.amount <= GATHER_AMOUNT ==>
              && GetResource(r, res.id).None?
              && r.units == PutUnit(ws, u.(actionTimer := 0.0, state := Idle)).units
    ensures res.amount <= GATHER_AMOUNT && ws.mapData.InBounds(res.pos) ==>
              && r.mapData.At(res.pos).walkable && r.mapData.At(res.pos).tile == GrassTile
              && r.mapData.At(res.pos).occupant == NoOccupant
    ensures GetUnit(ws, u.id) == Some(u) ==> SameRoster(ws.units, r.units)
    ensures SameHeadcounts(ws.players, r.players)
  {
    if res.amount > GATHER_AMOUNT then HarvestPart(ws, u, res) else HarvestLast(ws, u, res)
  }

  /** A harvest that leaves something in the node. */
  function HarvestPart(ws: World, u: SimUnit, res: SimResource): (r: World)
    requires ws.mapData.Valid() && GetResource(ws, res.id) == Some(res) && res.amount > GATHER_AMOUNT
    ensures r.mapData == ws.mapData && r.buildings == ws.buildings
    ensures r.players == AddResource(ws, u.player, res.kind, GATHER_AMOUNT).players
    ensures Remaining(r, res.id) == res.amount - GATHER_AMOUNT
    ensures r.units == PutUnit(ws, u.(actionTimer := 0.0)).units
    ensures GetUnit(ws, u.id) == Some(u) ==> SameRoster(ws.units, r.units)
    ensures SameHeadcounts(ws.players, r.players)
  {
    var ws1 := AddResource(PutResource(ws, res.(amount := res.amount - GATHER_AMOUNT)), u.player, res.kind, GATHER_AMOUNT);
    PutUnit(ws1, u.(actionTimer := 0.0))
  }

  /** The harvest that empties the node. */
  function HarvestLast(ws: World, u: SimUnit, res: SimResource): (r: World)
    requires ws.mapData.Valid() && GetResource(ws, res.id) == Some(res) && res.amount <= GATHER_AMOUNT
    ensures r.mapData.Valid() && r.buildings == ws.buildings
    ensures r.mapData.width == ws.mapData.width && r.mapData.height == ws.mapData.height
    ensures r.players == AddResource(ws, u.player, res.kind, res.amount).players
    ensures GetResource(r, res.id).None?
    ensures r.units == PutUnit(ws, u.(actionTimer := 0.0, state := Idle)).units
    ensures ws.mapData.InBounds(res.pos) ==>
              && r.mapData.At(res.pos).walkable && r.mapData.At(res.pos).tile == GrassTile
              && r.mapData.At(res.pos).occupant == NoOccupant
    ensures GetUnit(ws, u.id) == Some(u) ==> SameRoster(ws.units, r.units)
    ensures SameHeadcounts(ws.players, r.players)
  {
    var ws1 := AddResource(PutResource(ws, res.(amount := 0)), u.player, res.kind, res.amount);
    var ws2 := ClearCell(RemoveResource(ws1, res.id), res.pos);
    PutUnit(ws2, u.(actionTimer := 0.0, state := Idle))
  }

  /** Gathering conserves the resource: what leaves a node with a
      non-negative amount arrives in the owner's stock of that type. */
  lemma HarvestConserves(ws: World, u: SimUnit, res: SimResource)
    requires ws.mapData.Valid() && GetResource(ws, res.id) == Some(res)
    requires res.amount > 0 && res.kind != NoResource && GetPlayer(ws, u.player).Some?
    ensures var r := Harvest(ws, u, res);
            && GetPlayer(r, u.player).Some?
            && Remaining(r, res.id) + Stock(GetPlayer(r, u.player).value, res.kind)
               == Remaining(ws, res.id) + Stock(GetPlayer(ws, u.player).value, res.kind)
            && 0 <= Remaining(r, res.id) < Remaining(ws, res.id)
  {
    var amount := SimMath.MinInt(GATHER_AMOUNT, res.amount);
    var p := GetPlayer(ws, u.player).value;
    CreditStock(p, res.kind, amount, res.kind);
    var r := Harvest(ws, u, res);
    assert GetPlayer(r, u.player) == GetPlayer(AddResource(ws, u.player, res.kind, amount), u.player);
  }

  /** `UpdateGathering`: without its resource the unit idles; away from it,
      it re-orders itself there or idles if that fails; next to it, every
      `GATHER_INTERVAL` it harvests once. */
  function UpdateGathering(ws: World, u: SimUnit, dt: real): (r: World)
    requires ws.mapData.Valid()
    ensures r.mapData.Valid() && r.buildings == ws.buildings
    ensures GetResource(ws, u.targetId).None? ==> r == PutUnit(ws, u.(state := Idle))
    ensures GetResource(ws, u.targetId).Some? && DistSq(u.pos, GetResource(ws, u.targetId).value.pos) as real <= NextToSq ==>
              var res := GetResource(ws, u.targetId).value;
              (u.actionTimer + dt >= GATHER_INTERVAL ==> r == Harvest(ws, u, res))
              && (u.actionTimer + dt < GATHER_INTERVAL ==> r == PutUnit(ws, u.(actionTimer := u.actionTimer + dt)))
    ensures GetResource(ws, u.targetId).Some? && DistSq(u.pos, GetResource(ws, u.targetId).value.pos) as real > NextToSq ==>
              r.players == ws.players && r.resources == ws.resources && r.mapData == ws.mapData
    ensures GetUnit(ws, u.id) == Some(u) ==> SameRoster(ws.units, r.units)
    ensures SameHeadcounts(ws.players, r.players)
  {
    match GetResource(ws, u.targetId)
    case None => PutUnit(ws, u.(state := Idle))
    case Some(res) =>
      if DistSq(u.pos, res.pos) as real > NextToSq then
        var (ok, u1) := TryAssignGatherTask(ws, u, res);
        if ok then PutUnit(ws, u1) else PutUnit(ws, u.(state := Idle))
      else
        var timer := u.actionTimer + dt;
        if timer >= GATHER_INTERVAL then Harvest(ws, u, res)
        else PutUnit(ws, u.(actionTimer := timer))
  }

  // ---------------------------------------------------------------------
  // Construction.

  /** `UpdateConstruction`: without its building, or with a finished one,
      the unit idles; otherwise every `BUILD_INTERVAL` it advances the
      building by `BUILD_AMOUNT_PER_TICK` and idles once it is complete. */
  function UpdateConstruction(ws: World, u: SimUnit, dt: real): (r: World)
    requires ws.mapData.Valid()
    ensures r.mapData == ws.mapData && r.resources == ws.resources
    ensures GetBuilding(ws, u.targetId).None? || GetBuilding(ws, u.targetId).value.isConstructed ==>
              r == PutUnit(ws, u.(state := Idle))
    ensures GetBuilding(ws, u.targetId).Some? && !GetBuilding(ws, u.targetId).value.isConstructed
            && u.actionTimer + dt >= BUILD_INTERVAL ==>
              var b := GetBuilding(ws, u.targetId).value;
              var adv := AdvanceConstruction(b, ws, BUILD_AMOUNT_PER_TICK);
              && GetBuilding(r, b.id) == Some(adv.1)
              && r.units == PutUnit(ws, u.(actionTimer := 0.0, state := if adv.0 then Idle else u.state)).units
    ensures GetUnit(ws, u.id) == Some(u) ==> SameRoster(ws.units, r.units)
    ensures SameHeadcounts(ws.players, r.players)
  {
    match GetBuilding(ws, u.targetId)
    case None => PutUnit(ws, u.(state := Idle))
    case Some(b) =>
      if b.isConstructed then PutUnit(ws, u.(state := Idle))
      else
        var timer := u.actionTimer + dt;
        if timer >= BUILD_INTERVAL then
          var (done, b1, ws1) := AdvanceConstruction(b, ws, BUILD_AMOUNT_PER_TICK);
          var ws2 := PutBuilding(ws1, b1);
          PutUnit(ws2, u.(actionTimer := 0.0, state := if done then Idle else u.state))
        else PutUnit(ws, u.(actionTimer := timer))
  }

  // ---------------------------------------------------------------------
  // Combat.

  /** The attacker's target has gone: no unit or building under the ID,
      the unit is dead, or the building is an unfinished one of the
      attacker's own side. */
  predicate TargetLost(ws: World, u: SimUnit)
  {
    || (GetUnit(ws, u.targetId).None? && GetBuilding(ws, u.targetId).None?)
    || (GetUnit(ws, u.targetId).Some? && GetUnit(ws, u.targetId).value.state == Dead)
    || (GetBuilding(ws, u.targetId).Some? && !GetBuilding(ws, u.targetId).value.isConstructed
        && GetBuilding(ws, u.targetId).value.player == u.player)
  }

  /** One blow of `damage` at the unit or building under `id` (a unit when
      both exist): a destroyed target is killed or demolished. */
  function Strike(ws: World, id: int, damage: int): (r: World)
    requires ws.mapData.Valid()
    ensures r.mapData.Valid()
    ensures GetUnit(ws, id).Some? ==> r.buildings == ws.buildings
  {
    match GetUnit(ws, id)
    case Some(e) =>
      var e1 := e.(health := e.health - damage);
      if e1.health <= 0 then KillUnit(ws, e).1 else PutUnit(ws, e1)
    case None =>
      match GetBuilding(ws, id)
      case None => ws
      case Some(b) =>
        var b1 := b.(health := b.health - damage);
        if b1.health <= 0 then DestroyBuilding(ws, b) else PutBuilding(ws, b1)
  }

  /** The cell of the attacker's live target: the unit's, or else the
      building's. */
  function TargetCell(ws: World, u: SimUnit): Int2
    requires !TargetLost(ws, u)
  {
    if GetUnit(ws, u.targetId).Some? then GetUnit(ws, u.targetId).value.pos else GetBuilding(ws, u.targetId).value.pos
  }

  /** The attack timer of a unit in range: it runs on by `dt` until it
      reaches the unit's `attackSpeed`, when the unit is stored with its
      timer reset and strikes its target. */
  function Swing(ws: World, u: SimUnit, dt: real): (r: World)
    requires ws.mapData.Valid()
    ensures r.mapData.Valid()
    ensures u.attackTimer + dt < u.attackSpeed ==> r == PutUnit(ws, u.(attackTimer := u.attackTimer + dt))
    ensures u.attackTimer + dt >= u.attackSpeed ==> r == Strike(PutUnit(ws, u.(attackTimer := 0.0)), u.targetId, u.damage)
  {
    var timer := u.attackTimer + dt;
    if timer >= u.attackSpeed then Strike(PutUnit(ws, u.(attackTimer := 0.0)), u.targetId, u.damage)
    else PutUnit(ws, u.(attackTimer := timer))
  }

  /** `UpdateCombatStatic`: a lost target sends the unit Idle with no
      target. A target in range is struck every `AttackSpeed` seconds (the
      attacker is stored with its reset timer first). A target out of range
      sends the unit towards it. */
  function UpdateCombat(ws: World, u: SimUnit, dt: real, draw: real): (r: World)
    requires ws.mapData.Valid()
    ensures r.mapData.Valid()
    ensures TargetLost(ws, u) ==> r == PutUnit(ws, u.(state := Idle, targetId := -1))
    ensures !TargetLost(ws, u) && !InRange(u.pos, TargetCell(ws, u), u.attackRange) ==>
              r == PutUnit(ws, MoveToTarget(ws, u.(state := Idle), TargetCell(ws, u), GetUnit(ws, u.targetId).None?, draw))
    ensures !TargetLost(ws, u) && InRange(u.pos, TargetCell(ws, u), u.attackRange) && u.attackTimer + dt < u.attackSpeed ==>
              r == PutUnit(ws, u.(attackTimer := u.attackTimer + dt))
    ensures !TargetLost(ws, u) && InRange(u.pos, TargetCell(ws, u), u.attackRange) && u.attackTimer + dt >= u.attackSpeed ==>
              r == Strike(PutUnit(ws, u.(attackTimer := 0.0)), u.targetId, u.damage)
  {
    if TargetLost(ws, u) then PutUnit(ws, u.(state := Idle, targetId := -1))
    else
      var at := TargetCell(ws, u);
      if InRange(u.pos, at, u.attackRange) then Swing(ws, u, dt)
      else PutUnit(ws, MoveToTarget(ws, u.(state := Idle), at, GetUnit(ws, u.targetId).None?, draw))
  }

  // ---------------------------------------------------------------------
  // The machine.

  /** `UpdateUnit`: the unit stored under `id` runs the step of its task;
      a dead or idle unit (or a missing one) leaves the world unchanged. */
  function UpdateUnit(ws: World, id: int, dt: real, draw: real): (r: World)
    requires ws.mapData.Valid()
    ensures r.mapData.Valid()
    ensures GetUnit(ws, id).None? ==> r == ws
    ensures GetUnit(ws, id).Some? && GetUnit(ws, id).value.state in {Dead, Idle, Training} ==> r == ws
    ensures GetUnit(ws, id).Some? && GetUnit(ws, id).value.state in {Moving, Gathering} ==> r.buildings == ws.buildings
    ensures GetUnit(ws, id).Some? && GetUnit(ws, id).value.state in {Moving, Building} ==> r.resources == ws.resources
  {
    match GetUnit(ws, id)
    case None => ws
    case Some(u) =>
      match u.state
      case Moving => UpdateMovement(ws, u, dt, draw)
      case Gathering => UpdateGathering(ws, u, dt)
      case Building => UpdateConstruction(ws, u, dt)
      case Attacking => UpdateCombat(ws, u, dt, draw)
      case _ => ws
  }
}
