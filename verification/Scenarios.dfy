/** Training scenarios. `LoadScenario` wipes the world back to one empty
    player on an all-Grass map and then lets the scenario lay out its
    start; the economy-rush scenario starts player 1 with a finished base,
    one worker and 50 meat, scatters resource nodes at random free cells,
    and is won as soon as the player owns a Barracks. */
module Scenarios {
  import opened Wrappers
  import opened Types
  import opened World
  import opened Config
  import opened Resources
  import opened Grid
  import opened Buildings
  import Select

  /** The experiment settings the scenario reads: the share of tiles that
      get a resource node and the amount each node holds. */
  datatype Settings = Settings(resourceDensity: real, amountPerNode: int)

  /** One random draw of the scattering loop: a cell, and the roll that
      picks its resource kind. */
  datatype Draw = Draw(x: int, y: int, roll: real)

  /** The economy-rush scenario. `settings` is None when no experiment
      manager is present; `draws` is the random stream of the set-up. */
  datatype Scenario = EconomyRush(settings: Option<Settings>, draws: seq<Draw>)

  // ---------------------------------------------------------------------
  // Loading.

  /** A node as the reset leaves it: Grass, walkable and unoccupied. */
  function ClearedNode(n: Node): Node
  {
    n.(tile := GrassTile, walkable := true, occupant := NoOccupant)
  }

  /** `ResetGrid`: every cell becomes walkable, unoccupied Grass; the map
      keeps its size and every node its coordinates. */
  function ResetGrid(m: MapData): (r: MapData)
    requires m.Valid()
    ensures r.Valid() && r.width == m.width && r.height == m.height
    ensures forall p :: r.InBounds(p) ==>
              && r.At(p).tile == GrassTile && r.At(p).walkable && r.At(p).occupant == NoOccupant
              && r.At(p).x == m.At(p).x && r.At(p).y == m.At(p).y
  {
    MapData(m.width, m.height,
      seq(m.width, x requires 0 <= x < m.width =>
        seq(m.height, y requires 0 <= y < m.height => ClearedNode(m.grid[x][y]))))
  }

  /** Resetting a map whose nodes know their own coordinates gives the
      freshly constructed map of that size. */
  lemma ResetIsFreshMap(m: MapData)
    requires m.Valid()
    requires forall p :: m.InBounds(p) ==> m.At(p).x == p.x && m.At(p).y == p.y
    ensures ResetGrid(m) == NewMap(m.width, m.height)
  {
    var r := ResetGrid(m);
    var n := NewMap(m.width, m.height);
    forall x | 0 <= x < m.width ensures r.grid[x] == n.grid[x] {
      forall y | 0 <= y < m.height ensures r.grid[x][y] == n.grid[x][y] {
        assert r.At(Int2(x, y)) == n.At(Int2(x, y));
      }
    }
  }

  /** The clean-up half of `LoadScenario`: no units, buildings or resource
      nodes, player 1 alone with no stocks and no population cap, and the
      grid reset. The tick and the ID counter carry over. */
  function ResetWorld(ws: World): (r: World)
    requires ws.mapData.Valid()
    ensures r.units == [] && r.buildings == [] && r.resources == []
    ensures |r.players| == 1 && GetPlayer(r, 1) == Some(EmptyPlayer(1))
    ensures r.mapData == ResetGrid(ws.mapData)
    ensures r.tick == ws.tick && r.idCounter == ws.idCounter
  {
    ws.(units := [], buildings := [], resources := [], players := [EmptyPlayer(1)],
        mapData := ResetGrid(ws.mapData))
  }

  /** `LoadScenario`: the scenario becomes the current one, and its set-up
      runs on the reset world, so nothing of the previous game survives
      except the tick, the ID counter and the map size. */
  function LoadScenario(sc: Scenario, ws: World): (r: (Scenario, World))
    requires ws.mapData.Valid()
    ensures r.0 == sc
    ensures r.1 == SetupMap(sc, ResetWorld(ws))
    ensures forall u :: u in r.1.units ==> u.player == 1
    ensures |r.1.buildings| == 1 && r.1.buildings[0].kind == Base
    ensures forall i :: 0 <= i < |r.1.resources| ==> r.1.resources[i].id >= ws.idCounter
  {
    (sc, SetupMap(sc, ResetWorld(ws)))
  }

  // ---------------------------------------------------------------------
  // The economy-rush start.

  /** The resource kind a roll picks: below 0.4 Wood, below 0.8 Stone,
      otherwise Meat. */
  function KindOf(roll: real): (k: ResourceType)
    ensures k != NoResource
    ensures k == Wood <==> roll < 0.4
    ensures k == Meat <==> roll >= 0.8
  {
    if roll < 0.4 then Wood else if roll < 0.8 then Stone else Meat
  }

  /** The tile a resource node of each kind is drawn on. */
  function TileOf(k: ResourceType): TileType
  {
    match k
    case Wood => ForestTile
    case Stone => StoneTile
    case _ => MeatBushTile
  }

  /** A new resource node stands where the original world was walkable, its
      cell is now blocked and shows the node's tile, and it holds `amount`. */
  predicate Placed(ws: World, r: World, res: SimResource, amount: int)
    requires ws.mapData.Valid() && r.mapData.Valid()
  {
    && IsWalkable(ws, res.pos)
    && r.mapData.InBounds(res.pos)
    && !r.mapData.At(res.pos).walkable
    && r.mapData.At(res.pos).tile == TileOf(res.kind)
    && r.mapData.At(res.pos).occupant == ws.mapData.At(res.pos).occupant
    && res.amount == amount
    && res.kind != NoResource
  }

  /** One pass of the scattering loop: a drawn cell that is walkable gets
      a node with the next ID; any other draw is skipped. */
  function PlaceOne(ws: World, d: Draw, amount: int): (r: World)
    requires ws.mapData.Valid()
    ensures r.mapData.Valid() && r.mapData.width == ws.mapData.width && r.mapData.height == ws.mapData.height
    ensures r == ws.(resources := r.resources, mapData := r.mapData, idCounter := r.idCounter)
    ensures !IsWalkable(ws, Int2(d.x, d.y)) ==> r == ws
    ensures IsWalkable(ws, Int2(d.x, d.y)) ==>
              && r.resources == ws.resources + [SimResource(ws.idCounter, KindOf(d.roll), Int2(d.x, d.y), amount)]
              && r.idCounter == ws.idCounter + 1
              && Placed(ws, r, r.resources[|ws.resources|], amount)
              && !IsWalkable(r, Int2(d.x, d.y))
    ensures forall p :: r.mapData.InBounds(p) && p != Int2(d.x, d.y) ==> r.mapData.At(p) == ws.mapData.At(p)
    ensures forall p :: IsWalkable(r, p) ==> IsWalkable(ws, p)
    ensures forall p :: r.mapData.InBounds(p) ==> r.mapData.At(p).occupant == ws.mapData.At(p).occupant
  {
    var pos := Int2(d.x, d.y);
    if !IsWalkable(ws, pos) then ws
    else
      var (id, ws1) := NextID(ws);
      var kind := KindOf(d.roll);
      var node := ws1.mapData.At(pos).(walkable := false, tile := TileOf(kind));
      ws1.(resources := ws1.resources + [SimResource(id, kind, pos, amount)],
           mapData := ws1.mapData.Set(pos, node))
  }

  /** `GenerateResources` over a stream of draws: existing nodes stay in
      front, each new node takes the next ID, and there are at most as many
      new nodes as draws. Only nodes, map and counter change. */
  function GenerateResources(ws: World, draws: seq<Draw>, amount: int): (r: World)
    requires ws.mapData.Valid()
    ensures r.mapData.Valid() && r.mapData.width == ws.mapData.width && r.mapData.height == ws.mapData.height
    ensures r == ws.(resources := r.resources, mapData := r.mapData, idCounter := r.idCounter)
    ensures |ws.resources| <= |r.resources| <= |ws.resources| + |draws|
    ensures r.resources[..|ws.resources|] == ws.resources
    ensures r.idCounter == ws.idCounter + (|r.resources| - |ws.resources|)
    ensures forall k :: |ws.resources| <= k < |r.resources| ==> r.resources[k].id == ws.idCounter + (k - |ws.resources|)
    decreases |draws|
  {
    if |draws| == 0 then ws
    else
      var ws1 := PlaceOne(ws, draws[0], amount);
      var r := GenerateResources(ws1, draws[1..], amount);
      assert r.resources[..|ws.resources|] == r.resources[..|ws1.resources|][..|ws.resources|];
      r
  }

  /** No new node of `r` (relative to `ws`) stands on `p`. */
  predicate NoNewNodeAt(ws: World, r: World, p: Int2)
  {
    forall k :: |ws.resources| <= k < |r.resources| ==> r.resources[k].pos != p
  }

  /** Every cell of `r` without a new node is as in `ws`. */
  ghost predicate OnlyNewCellsChange(ws: World, r: World)
    requires ws.mapData.Valid() && r.mapData.Valid()
    requires r.mapData.width == ws.mapData.width && r.mapData.height == ws.mapData.height
  {
    forall p :: r.mapData.InBounds(p) && NoNewNodeAt(ws, r, p) ==> r.mapData.At(p) == ws.mapData.At(p)
  }

  /** Every new node of `r` is `Placed`. */
  predicate AllPlaced(ws: World, r: World, amount: int)
    requires ws.mapData.Valid() && r.mapData.Valid()
  {
    forall k :: |ws.resources| <= k < |r.resources| ==> Placed(ws, r, r.resources[k], amount)
  }

  /** No two new nodes of `r` share a cell. */
  predicate NewCellsDistinct(ws: World, r: World)
  {
    forall k, l :: |ws.resources| <= k < l < |r.resources| ==> r.resources[k].pos != r.resources[l].pos
  }

  /** The scattering touches only the cells it puts a node on. */
  lemma {:induction false} GenerateResourcesFrame(ws: World, draws: seq<Draw>, amount: int)
    requires ws.mapData.Valid()
    ensures OnlyNewCellsChange(ws, GenerateResources(ws, draws, amount))
    decreases |draws|
  {
    if |draws| > 0 {
      var ws1 := PlaceOne(ws, draws[0], amount);
      GenerateResourcesFrame(ws1, draws[1..], amount);
      var r := GenerateResources(ws1, draws[1..], amount);
      assert GenerateResources(ws, draws, amount) == r;
      forall p | r.mapData.InBounds(p) && NoNewNodeAt(ws, r, p) ensures r.mapData.At(p) == ws.mapData.At(p) {
        assert NoNewNodeAt(ws1, r, p);
        if |ws1.resources| > |ws.resources| {
          assert r.resources[|ws.resources|] == ws1.resources[|ws.resources|];
        }
      }
    }
  }

  /** Where the scattering places: every new node stands on a cell that was
      walkable before, now blocked and showing the node's tile. */
  lemma {:induction false} GenerateResourcesPlaces(ws: World, draws: seq<Draw>, amount: int)
    requires ws.mapData.Valid()
    ensures AllPlaced(ws, GenerateResources(ws, draws, amount), amount)
    decreases |draws|
  {
    if |draws| > 0 {
      var ws1 := PlaceOne(ws, draws[0], amount);
      GenerateResourcesPlaces(ws1, draws[1..], amount);
      var r := GenerateResources(ws1, draws[1..], amount);
      assert GenerateResources(ws, draws, amount) == r;
      var n := |ws.resources|;
      var n1 := |ws1.resources|;
      forall k | n1 <= k < |r.resources| ensures Placed(ws, r, r.resources[k], amount) {
        assert Placed(ws1, r, r.resources[k], amount);
      }
      if n1 > n {
        var first := r.resources[n];
        assert first == ws1.resources[n];
        GenerateResourcesFrame(ws1, draws[1..], amount);
        assert !IsWalkable(ws1, first.pos);
        assert NoNewNodeAt(ws1, r, first.pos);
        assert r.mapData.At(first.pos) == ws1.mapData.At(first.pos);
      }
    }
  }

  /** No two nodes of one scattering share a cell. */
  lemma {:induction false} GenerateResourcesDistinct(ws: World, draws: seq<Draw>, amount: int)
    requires ws.mapData.Valid()
    ensures NewCellsDistinct(ws, GenerateResources(ws, draws, amount))
    decreases |draws|
  {
    if |draws| > 0 {
      var ws1 := PlaceOne(ws, draws[0], amount);
      GenerateResourcesDistinct(ws1, draws[1..], amount);
      GenerateResourcesPlaces(ws1, draws[1..], amount);
      var r := GenerateResources(ws1, draws[1..], amount);
      assert GenerateResources(ws, draws, amount) == r;
      var n := |ws.resources|;
      if |ws1.resources| > n {
        var first := r.resources[n];
        assert first == ws1.resources[n];
        assert !IsWalkable(ws1, first.pos);
        forall l | n < l < |r.resources| ensures first.pos != r.resources[l].pos {
          assert Placed(ws1, r, r.resources[l], amount);
        }
      }
    }
  }

  /** `Mathf.FloorToInt(totalTiles * ResourceDensity)`. */
  function ResourceCount(m: MapData, s: Settings): int
  {
    ((m.width * m.height) as real * s.resourceDensity).Floor
  }

  /** The draws the loop consumes: one per node to place, as far as the
      stream goes; none for a non-positive count. */
  function DrawsUsed(draws: seq<Draw>, count: int): (r: seq<Draw>)
    ensures |r| <= |draws| && r == draws[..|r|]
    ensures count <= 0 ==> r == []
    ensures 0 <= count <= |draws| ==> |r| == count
  {
    if count <= 0 then [] else if count >= |draws| then draws else draws[..count]
  }

  /** The building record `SpawnBuilding` creates: player 1's, with its
      stats initialised and full progress exactly when constructed. */
  function StartBuilding(id: int, kind: BuildingType, pos: Int2, constructed: bool): (b: SimBuilding)
    ensures b.id == id && b.player == 1 && b.kind == kind && b.pos == pos
    ensures b.isConstructed == constructed
    ensures b.progress == (if constructed then BUILDING_MAX_PROGRESS else 0.0)
    ensures b.health == 10 && b.maxHealth == 1000
  {
    InitializeBuildingStats(NewBuilding(id, 1, kind, pos, constructed,
                                        if constructed then BUILDING_MAX_PROGRESS else 0.0))
  }

  /** `SpawnBuilding`: the building is appended with the next ID, its cell
      is blocked, and a constructed one raises player 1's population cap;
      units and resource nodes are untouched. */
  function SpawnBuilding(ws: World, kind: BuildingType, pos: Int2, constructed: bool): (r: World)
    requires ws.mapData.Valid()
    ensures r.mapData.Valid() && r.mapData.width == ws.mapData.width && r.mapData.height == ws.mapData.height
    ensures r.units == ws.units && r.resources == ws.resources && r.tick == ws.tick
    ensures r.idCounter == ws.idCounter + 1
    ensures r.buildings == ws.buildings + [StartBuilding(ws.idCounter, kind, pos, constructed)]
    ensures ws.mapData.InBounds(pos) ==> r.mapData.At(pos) == ws.mapData.At(pos).(walkable := false)
    ensures forall q :: r.mapData.InBounds(q) && q != pos ==> r.mapData.At(q) == ws.mapData.At(q)
    ensures !constructed ==> r.players == ws.players
    ensures forall q :: q != 1 ==> GetPlayer(r, q) == GetPlayer(ws, q)
    ensures SameHeadcounts(ws.players, r.players)
    ensures constructed && GetPlayer(ws, 1).Some? ==>
              GetPlayer(r, 1) == Some(GetPlayer(ws, 1).value.(maxPop := GetPlayer(ws, 1).value.maxPop + PopulationBonus(kind)))
  {
    var (id, ws1) := NextID(ws);
    var b := StartBuilding(id, kind, pos, constructed);
    var ws2 := SetWalkable(AddBuilding(ws1, b), pos, false);
    assert ws2 == ws.(idCounter := id + 1, buildings := ws.buildings + [b], mapData := ws2.mapData);
    if constructed then OnBuildingCompleted(b, ws2) else ws2
  }

  /** The starting grants: 50 meat for player 1; the zero grants of wood
      and stone change nothing. */
  function StartingStocks(ws: World): (r: World)
    ensures r == ws.(players := r.players) && SameHeadcounts(ws.players, r.players)
    ensures forall q :: q != 1 ==> GetPlayer(r, q) == GetPlayer(ws, q)
    ensures GetPlayer(ws, 1).Some? ==> GetPlayer(r, 1) == Some(GetPlayer(ws, 1).value.(meat := GetPlayer(ws, 1).value.meat + 50))
  {
    var ws1 := AddResource(ws, 1, Meat, 50);
    var ws2 := AddResource(ws1, 1, Wood, 0);
    AddResource(ws2, 1, Stone, 0)
  }

  /** The base and its worker: a finished base at the centre raising the
      cap by 10, and at most one worker next to it. */
  function PlaceBase(ws: World): (r: World)
    requires ws.mapData.Valid()
    ensures r.mapData.Valid() && r.mapData.width == ws.mapData.width && r.mapData.height == ws.mapData.height
    ensures r.tick == ws.tick && r.resources == ws.resources
    ensures r.buildings == ws.buildings + [StartBuilding(ws.idCounter, Base, Int2(ws.mapData.width / 2, ws.mapData.height / 2), true)]
    ensures |ws.units| <= |r.units| <= |ws.units| + 1 && r.units[..|ws.units|] == ws.units
    ensures forall i :: |ws.units| <= i < |r.units| ==> r.units[i].player == 1 && r.units[i].kind == Worker
    ensures r.idCounter == ws.idCounter + 1 + (|r.units| - |ws.units|)
    ensures |r.players| == |ws.players|
    ensures forall q :: q != 1 ==> GetPlayer(r, q) == GetPlayer(ws, q)
    ensures GetPlayer(ws, 1).Some? ==>
              var p := GetPlayer(ws, 1).value;
              && GetPlayer(r, 1).Some?
              && GetPlayer(r, 1).value == p.(maxPop := p.maxPop + POPULATION_BASE, curPop := GetPlayer(r, 1).value.curPop)
              && (0 <= p.curPop < p.maxPop + POPULATION_BASE ==> GetPlayer(r, 1).value.curPop == p.curPop + (|r.units| - |ws.units|))
  {
    var centre := Int2(ws.mapData.width / 2, ws.mapData.height / 2);
    var ws1 := SpawnBuilding(ws, Base, centre, true);
    var ws2 := SpawnUnit(ws1, centre, Worker, 1);
    assert ws2.units[..|ws.units|] == ws.units;
    ws2
  }

  /** The fixed part of the economy-rush start: the starting grants, then
      the base and its worker. */
  function StartingBase(ws: World): (r: World)
    requires ws.mapData.Valid()
    ensures r.mapData.Valid() && r.mapData.width == ws.mapData.width && r.mapData.height == ws.mapData.height
    ensures r.tick == ws.tick && r.resources == ws.resources
    ensures r.buildings == ws.buildings + [StartBuilding(ws.idCounter, Base, Int2(ws.mapData.width / 2, ws.mapData.height / 2), true)]
    ensures |ws.units| <= |r.units| <= |ws.units| + 1 && r.units[..|ws.units|] == ws.units
    ensures forall i :: |ws.units| <= i < |r.units| ==> r.units[i].player == 1 && r.units[i].kind == Worker
    ensures r.idCounter == ws.idCounter + 1 + (|r.units| - |ws.units|)
    ensures |r.players| == |ws.players|
    ensures forall q :: q != 1 ==> GetPlayer(r, q) == GetPlayer(ws, q)
    ensures GetPlayer(ws, 1).Some? ==>
              var p := GetPlayer(ws, 1).value;
              && GetPlayer(r, 1).Some?
              && GetPlayer(r, 1).value.meat == p.meat + 50
              && GetPlayer(r, 1).value.wood == p.wood && GetPlayer(r, 1).value.stone == p.stone
              && GetPlayer(r, 1).value.maxPop == p.maxPop + POPULATION_BASE
              && (0 <= p.curPop < p.maxPop + POPULATION_BASE ==> GetPlayer(r, 1).value.curPop == p.curPop + (|r.units| - |ws.units|))
  {
    PlaceBase(StartingStocks(ws))
  }

  /** `SetupMap`: the starting base, then, with settings present, the
      resource scattering with the number of nodes the density asks for. */
  function SetupMap(sc: Scenario, ws: World): (r: World)
    requires ws.mapData.Valid()
    ensures r.mapData.Valid() && r.mapData.width == ws.mapData.width && r.mapData.height == ws.mapData.height
    ensures var base := StartingBase(ws);
            && r.players == base.players && r.units == base.units && r.buildings == base.buildings
            && (sc.settings.None? ==> r == base)
            && |r.resources| >= |ws.resources| && r.resources[..|ws.resources|] == ws.resources
            && (forall i :: |ws.resources| <= i < |r.resources| ==> r.resources[i].id > ws.idCounter)
  {
    var base := StartingBase(ws);
    match sc.settings
    case None => base
    case Some(s) =>
      GenerateResources(base, DrawsUsed(sc.draws, ResourceCount(base.mapData, s)), s.amountPerNode)
  }

  // ---------------------------------------------------------------------
  // Winning and reward.

  function OwnBarracks(pid: int): SimBuilding -> bool
  {
    (b: SimBuilding) => b.player == pid && b.kind == Barracks
  }

  /** `CheckWinCondition`: the player owns a Barracks, finished or merely
      placed. */
  function CheckWinCondition(ws: World, pid: int): (won: bool)
    ensures won <==> exists i :: 0 <= i < |ws.buildings| && ws.buildings[i].player == pid && ws.buildings[i].kind == Barracks
  {
    Select.FirstWhere(ws.buildings, OwnBarracks(pid)).Some?
  }

  /** The step counters of an experiment, when one is running. */
  datatype Steps = Steps(maxSteps: int, currentSteps: int)

  /** `CalculateReward`: nothing for a missing player or before the win; on
      the win 950 plus ten per step left, never less than 950. Without an
      experiment the cap is 5000 steps and the clock is the world's tick. */
  function CalculateReward(ws: World, pid: int, steps: Option<Steps>): (reward: real)
    ensures GetPlayer(ws, pid).None? || !CheckWinCondition(ws, pid) ==> reward == 0.0
    ensures GetPlayer(ws, pid).Some? && CheckWinCondition(ws, pid) ==> reward >= 950.0
    ensures GetPlayer(ws, pid).Some? && CheckWinCondition(ws, pid) ==>
              var (mx, cur) := if steps.Some? then (steps.value.maxSteps, steps.value.currentSteps) else (5000, ws.tick);
              (cur < mx ==> reward == 950.0 + 10.0 * (mx - cur) as real) && (cur >= mx ==> reward == 950.0)
  {
    if GetPlayer(ws, pid).None? then 0.0
    else if CheckWinCondition(ws, pid) then
      var maxSteps := if steps.Some? then steps.value.maxSteps else 5000;
      var currentSteps := if steps.Some? then steps.value.currentSteps else ws.tick;
      var speedBonus := (maxSteps - currentSteps) as real * 10.0;
      950.0 + (if speedBonus < 0.0 then 0.0 else speedBonus)
    else 0.0
  }

  /** An earlier win pays at least as much as a later one. */
  lemma EarlierWinPaysMore(ws: World, pid: int, mx: int, a: int, b: int)
    requires GetPlayer(ws, pid).Some? && CheckWinCondition(ws, pid)
    requires a <= b
    ensures CalculateReward(ws, pid, Some(Steps(mx, a))) >= CalculateReward(ws, pid, Some(Steps(mx, b)))
  {
  }

  // ---------------------------------------------------------------------
  // The whole start.

  /** Player 1's opening stocks: alone, with 50 meat, no wood or stone,
      the base's population cap of 10, and a population that counts the at
      most one worker. */
  predicate OpeningStocks(w: World)
  {
    && |w.players| == 1
    && GetPlayer(w, 1).Some?
    && GetPlayer(w, 1).value.meat == 50 && GetPlayer(w, 1).value.wood == 0 && GetPlayer(w, 1).value.stone == 0
    && GetPlayer(w, 1).value.maxPop == POPULATION_BASE
    && GetPlayer(w, 1).value.curPop == |w.units| <= 1
  }

  /** The economy-rush opening position: the opening stocks, the scenario
      not yet won, and no reward. */
  predicate EconomyRushOpening(w: World)
  {
    OpeningStocks(w) && !CheckWinCondition(w, 1) && CalculateReward(w, 1, None) == 0.0
  }

  /** The starting base laid out on a cleared world gives the opening stocks. */
  lemma BaseOnClearedWorld(w0: World)
    requires w0.mapData.Valid()
    requires w0.units == [] && w0.buildings == [] && |w0.players| == 1 && GetPlayer(w0, 1) == Some(EmptyPlayer(1))
    ensures OpeningStocks(StartingBase(w0))
  {
    var p := GetPlayer(w0, 1).value;
    assert p.curPop == 0 && p.maxPop == 0 && p.meat == 0;
    var r := StartingBase(w0);
    assert GetPlayer(r, 1).value.curPop == |r.units|;
  }

  /** The starting base on a world without buildings does not win yet. */
  lemma BaseAloneDoesNotWin(w0: World)
    requires w0.mapData.Valid() && w0.buildings == []
    ensures !CheckWinCondition(StartingBase(w0), 1) && CalculateReward(StartingBase(w0), 1, None) == 0.0
  {
    var base := StartingBase(w0);
    assert base.buildings == [StartBuilding(w0.idCounter, Base, Int2(w0.mapData.width / 2, w0.mapData.height / 2), true)];
  }

  /** Loading the economy rush into any world, whatever it held, yields
      the opening position. */
  lemma EconomyRushStart(sc: Scenario, ws: World)
    requires ws.mapData.Valid()
    ensures EconomyRushOpening(LoadScenario(sc, ws).1)
  {
    var w0 := ResetWorld(ws);
    BaseOnClearedWorld(w0);
    BaseAloneDoesNotWin(w0);
    var base := StartingBase(w0);
    var w := LoadScenario(sc, ws).1;
    assert w.players == base.players && w.units == base.units && w.buildings == base.buildings;
    assert GetPlayer(w, 1) == GetPlayer(base, 1);
    assert CheckWinCondition(w, 1) == CheckWinCondition(base, 1);
  }
}
