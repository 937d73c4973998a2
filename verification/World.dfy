/** The simulation's data records: map nodes, the map grid, units,
    buildings, resource nodes, players, and the world that holds them.

    Each ID-keyed dictionary of the world is a sequence of its entries in
    insertion order (see module Select). Records are immutable values; an
    operation returns the updated world. */
module World {
  import opened Wrappers
  import opened Types
  import Select

  const NoOccupant: int := -1

  datatype Node = Node(x: int, y: int, tile: TileType, walkable: bool, occupant: int)

  /** The map: `grid[x][y]` is the node at column x, row y. */
  datatype MapData = MapData(width: nat, height: nat, grid: seq<seq<Node>>)
  {
    predicate Valid()
    {
      |grid| == width && forall x :: 0 <= x < |grid| ==> |grid[x]| == height
    }

    predicate InBounds(p: Int2)
    {
      0 <= p.x < width && 0 <= p.y < height
    }

    function At(p: Int2): Node
      requires Valid() && InBounds(p)
    {
      grid[p.x][p.y]
    }

    /** The map with the node at `p` replaced. */
    function Set(p: Int2, n: Node): (m: MapData)
      requires Valid() && InBounds(p)
      ensures m.Valid() && m.width == width && m.height == height
      ensures m.At(p) == n
      ensures forall q :: InBounds(q) && q != p ==> m.At(q) == At(q)
    {
      MapData(width, height, grid[p.x := grid[p.x][p.y := n]])
    }
  }

  /** A fresh node: Grass, walkable, unoccupied. */
  function FreshNode(x: int, y: int): (n: Node)
    ensures n.x == x && n.y == y
    ensures n.tile == GrassTile && n.walkable && n.occupant == NoOccupant
  {
    Node(x, y, GrassTile, true, NoOccupant)
  }

  function FreshColumn(x: int, h: nat): (col: seq<Node>)
    ensures |col| == h
    ensures forall y :: 0 <= y < h ==> col[y] == FreshNode(x, y)
  {
    seq(h, y => FreshNode(x, y))
  }

  /** The map constructor: a `w` by `h` grid of fresh nodes that know their
      own coordinates. */
  function NewMap(w: nat, h: nat): (m: MapData)
    ensures m.Valid() && m.width == w && m.height == h
    ensures forall p :: m.InBounds(p) ==> m.At(p) == FreshNode(p.x, p.y)
  {
    MapData(w, h, seq(w, x => FreshColumn(x, h)))
  }

  /** `IsInBounds` holds exactly on the rectangle [0, w) x [0, h). */
  lemma InBoundsRectangle(m: MapData, p: Int2)
    ensures m.InBounds(p) <==> 0 <= p.x && p.x < m.width && 0 <= p.y && p.y < m.height
    ensures m.InBounds(p) ==> m.InBounds(Int2(m.width - 1 - p.x, m.height - 1 - p.y))
    ensures !m.InBounds(Int2(m.width, p.y)) && !m.InBounds(Int2(p.x, -1))
  {
  }

  // ---------------------------------------------------------------------
  // Entities.

  datatype SimUnit = SimUnit(
    id: int, player: int, kind: UnitType,
    pos: Int2, path: seq<Int2>, moveProgress: real, moveSpeed: real,
    health: int, maxHealth: int, damage: int,
    attackRange: real, attackSpeed: real, attackTimer: real,
    state: TaskType, targetId: int, actionTimer: real, retryTimer: real)

  datatype SimBuilding = SimBuilding(
    id: int, player: int, kind: BuildingType, pos: Int2,
    isConstructed: bool, progress: real, health: int, maxHealth: int,
    damage: int, attackRange: real, attackSpeed: real, attackTimer: real, targetUnitId: int,
    isTraining: bool, trainingTimer: real, unitInProduction: UnitType,
    isResourceGenerator: bool, resourceType: ResourceType,
    resourceTimer: real, resourceInterval: real, resourceAmountPerCycle: int)

  datatype SimResource = SimResource(id: int, kind: ResourceType, pos: Int2, amount: int)

  datatype SimPlayer = SimPlayer(
    id: int, wood: int, stone: int, meat: int,
    curPop: int, maxPop: int, damageDealt: real, damageTaken: real)

  /** A player with empty stocks and no population. */
  function EmptyPlayer(pid: int): (p: SimPlayer)
    ensures p.id == pid && p.wood == 0 && p.stone == 0 && p.meat == 0
    ensures p.curPop == 0 && p.maxPop == 0
  {
    SimPlayer(pid, 0, 0, 0, 0, 0, 0.0, 0.0)
  }

  datatype World = World(
    tick: int, mapData: MapData,
    units: seq<SimUnit>, buildings: seq<SimBuilding>,
    resources: seq<SimResource>, players: seq<SimPlayer>,
    idCounter: int)

  /** The world constructor: tick 0, a `w` by `h` map, no entities, and
      player 1 with no resources and no population cap; IDs start at 1. */
  function NewWorld(w: nat, h: nat): (ws: World)
    ensures ws.tick == 0 && ws.mapData == NewMap(w, h)
    ensures ws.units == [] && ws.buildings == [] && ws.resources == []
    ensures ws.players == [EmptyPlayer(1)]
    ensures ws.idCounter == 1
  {
    World(0, NewMap(w, h), [], [], [], [EmptyPlayer(1)], 1)
  }

  /** `NextID`: the current counter value, and the world with the counter
      advanced by one. */
  function NextID(ws: World): (r: (int, World))
    ensures r.0 == ws.idCounter
    ensures r.1.idCounter == r.0 + 1
    ensures r.1 == ws.(idCounter := ws.idCounter + 1)
  {
    (ws.idCounter, ws.(idCounter := ws.idCounter + 1))
  }

  /** The IDs handed out by `n` successive `NextID` calls, and the world after. */
  function TakeIDs(ws: World, n: nat): (r: (seq<int>, World))
    ensures |r.0| == n
    ensures r.1 == ws.(idCounter := ws.idCounter + n)
    decreases n
  {
    if n == 0 then ([], ws)
    else
      var (id, ws1) := NextID(ws);
      var (rest, ws2) := TakeIDs(ws1, n - 1);
      ([id] + rest, ws2)
  }

  /** Successive IDs are consecutive, start at the counter, and are pairwise
      distinct; from a new world the first ID is 1. */
  lemma {:induction false} TakeIDsDistinct(ws: World, n: nat)
    ensures forall i :: 0 <= i < n ==> TakeIDs(ws, n).0[i] == ws.idCounter + i
    ensures forall i, j :: 0 <= i < j < n ==> TakeIDs(ws, n).0[i] != TakeIDs(ws, n).0[j]
    decreases n
  {
    if n > 0 {
      var ws1 := NextID(ws).1;
      TakeIDsDistinct(ws1, n - 1);
      var ids := TakeIDs(ws, n).0;
      assert ids == [ws.idCounter] + TakeIDs(ws1, n - 1).0;
      assert forall i :: 1 <= i < n ==> ids[i] == TakeIDs(ws1, n - 1).0[i - 1];
    }
  }

  lemma FirstIDIsOne(w: nat, h: nat)
    ensures NextID(NewWorld(w, h)).0 == 1
    ensures TakeIDs(NewWorld(w, h), 2).0 == [1, 2]
  {
    TakeIDsDistinct(NewWorld(w, h), 2);
  }

  /** A building record as an object initialiser leaves it: the given
      identity, owner, kind, cell, construction flag and progress, and every
      other field at its default (zero, false, the first enumerator). */
  function NewBuilding(id: int, pid: int, kind: BuildingType, pos: Int2, built: bool, progress: real): (b: SimBuilding)
    ensures b.id == id && b.player == pid && b.kind == kind && b.pos == pos
    ensures b.isConstructed == built && b.progress == progress
    ensures b.health == 0 && b.maxHealth == 0 && !b.isTraining && !b.isResourceGenerator
  {
    SimBuilding(id, pid, kind, pos, built, progress, 0, 0,
                0, 0.0, 0.0, 0.0, 0, false, 0.0, Worker, false, NoResource, 0.0, 0.0, 0)
  }

  // ---------------------------------------------------------------------
  // Dictionary lookups by ID.

  function PlayerKey(p: SimPlayer): int { p.id }
  function UnitKey(u: SimUnit): int { u.id }
  function BuildingKey(b: SimBuilding): int { b.id }
  function ResourceKey(r: SimResource): int { r.id }

  function GetPlayer(ws: World, pid: int): (r: Option<SimPlayer>)
    ensures r.Some? <==> exists i :: 0 <= i < |ws.players| && ws.players[i].id == pid
    ensures r.Some? ==> r.value in ws.players && r.value.id == pid
  {
    match Select.IndexOfKey(ws.players, PlayerKey, pid)
    case None => None
    case Some(i) => Some(ws.players[i])
  }

  function GetUnit(ws: World, id: int): (r: Option<SimUnit>)
    ensures r.Some? <==> exists i :: 0 <= i < |ws.units| && ws.units[i].id == id
    ensures r.Some? ==> r.value in ws.units && r.value.id == id
  {
    match Select.IndexOfKey(ws.units, UnitKey, id)
    case None => None
    case Some(i) => Some(ws.units[i])
  }

  function GetBuilding(ws: World, id: int): (r: Option<SimBuilding>)
    ensures r.Some? <==> exists i :: 0 <= i < |ws.buildings| && ws.buildings[i].id == id
    ensures r.Some? ==> r.value in ws.buildings && r.value.id == id
  {
    match Select.IndexOfKey(ws.buildings, BuildingKey, id)
    case None => None
    case Some(i) => Some(ws.buildings[i])
  }

  function GetResource(ws: World, id: int): (r: Option<SimResource>)
    ensures r.Some? <==> exists i :: 0 <= i < |ws.resources| && ws.resources[i].id == id
    ensures r.Some? ==> r.value in ws.resources && r.value.id == id
  {
    match Select.IndexOfKey(ws.resources, ResourceKey, id)
    case None => None
    case Some(i) => Some(ws.resources[i])
  }

  // ---------------------------------------------------------------------
  // Dictionary updates by ID: replace the entry with that ID (if present).

  /** The same units, in order, as far as IDs and owners go. */
  predicate SameRoster(s: seq<SimUnit>, t: seq<SimUnit>)
  {
    |s| == |t| && forall i :: 0 <= i < |s| ==> s[i].id == t[i].id && s[i].player == t[i].player
  }

  /** The same players, in order, each with the same population. */
  predicate SameHeadcounts(s: seq<SimPlayer>, t: seq<SimPlayer>)
  {
    |s| == |t| && forall i :: 0 <= i < |s| ==> s[i].id == t[i].id && s[i].curPop == t[i].curPop
  }

  function PutPlayer(ws: World, p: SimPlayer): (r: World)
    ensures r == ws.(players := r.players)
    ensures |r.players| == |ws.players|
    ensures GetPlayer(ws, p.id).Some? ==> GetPlayer(r, p.id) == Some(p)
    ensures forall q :: q != p.id ==> GetPlayer(r, q) == GetPlayer(ws, q)
    ensures GetPlayer(ws, p.id).None? ==> r == ws
    ensures GetPlayer(ws, p.id).Some? && GetPlayer(ws, p.id).value.curPop == p.curPop ==> SameHeadcounts(ws.players, r.players)
  {
    match Select.IndexOfKey(ws.players, PlayerKey, p.id)
    case None => ws
    case Some(i) =>
      var r := ws.(players := ws.players[i := p]);
      forall q {
        Select.IndexOfKeyUpdate(ws.players, PlayerKey, q, i, p);
      }
      r
  }

  function PutUnit(ws: World, u: SimUnit): (r: World)
    ensures r == ws.(units := r.units)
    ensures |r.units| == |ws.units|
    ensures GetUnit(ws, u.id).Some? ==> GetUnit(r, u.id) == Some(u)
    ensures forall q :: q != u.id ==> GetUnit(r, q) == GetUnit(ws, q)
    ensures GetUnit(ws, u.id).None? ==> r == ws
    ensures forall v :: v in ws.units && v.id != u.id ==> v in r.units
    ensures forall v :: v in r.units ==> v in ws.units || v == u
    ensures GetUnit(ws, u.id).Some? && GetUnit(ws, u.id).value.player == u.player ==> SameRoster(ws.units, r.units)
  {
    match Select.IndexOfKey(ws.units, UnitKey, u.id)
    case None => ws
    case Some(i) =>
      var r := ws.(units := ws.units[i := u]);
      forall q {
        Select.IndexOfKeyUpdate(ws.units, UnitKey, q, i, u);
      }
      forall v | v in ws.units && v.id != u.id
        ensures v in r.units
      {
        var j :| 0 <= j < |ws.units| && ws.units[j] == v;
        assert r.units[j] == v;
      }
      forall v | v in r.units
        ensures v in ws.units || v == u
      {
        var j :| 0 <= j < |r.units| && r.units[j] == v;
        if j != i { assert ws.units[j] == v; }
      }
      r
  }

  function PutBuilding(ws: World, b: SimBuilding): (r: World)
    ensures r == ws.(buildings := r.buildings)
    ensures |r.buildings| == |ws.buildings|
    ensures GetBuilding(ws, b.id).Some? ==> GetBuilding(r, b.id) == Some(b)
    ensures forall q :: q != b.id ==> GetBuilding(r, q) == GetBuilding(ws, q)
    ensures GetBuilding(ws, b.id).None? ==> r == ws
  {
    match Select.IndexOfKey(ws.buildings, BuildingKey, b.id)
    case None => ws
    case Some(i) =>
      var r := ws.(buildings := ws.buildings[i := b]);
      forall q {
        Select.IndexOfKeyUpdate(ws.buildings, BuildingKey, q, i, b);
      }
      r
  }

  function PutResource(ws: World, res: SimResource): (r: World)
    ensures r == ws.(resources := r.resources)
    ensures |r.resources| == |ws.resources|
    ensures GetResource(ws, res.id).Some? ==> GetResource(r, res.id) == Some(res)
    ensures forall q :: q != res.id ==> GetResource(r, q) == GetResource(ws, q)
    ensures GetResource(ws, res.id).None? ==> r == ws
  {
    match Select.IndexOfKey(ws.resources, ResourceKey, res.id)
    case None => ws
    case Some(i) =>
      var r := ws.(resources := ws.resources[i := res]);
      forall q {
        Select.IndexOfKeyUpdate(ws.resources, ResourceKey, q, i, res);
      }
      r
  }

  /** The units whose ID differs from `id`. */
  function NotId(id: int): SimUnit -> bool
  {
    (u: SimUnit) => u.id != id
  }

  /** The units of player `pid`. */
  function OwnedBy(pid: int): SimUnit -> bool
  {
    (u: SimUnit) => u.player == pid
  }

  /** Unit IDs are dictionary keys: no two units share one. */
  predicate DistinctUnitIds(s: seq<SimUnit>)
  {
    forall i, j :: 0 <= i < j < |s| ==> s[i].id != s[j].id
  }

  predicate UniqueUnitIds(ws: World)
  {
    DistinctUnitIds(ws.units)
  }

  /** With unique IDs, units of different owners have different IDs. */
  lemma OwnersSeparateIds(ws: World, u: SimUnit, v: SimUnit)
    requires UniqueUnitIds(ws) && u in ws.units && v in ws.units && u.player != v.player
    ensures u.id != v.id
  {
    var i :| 0 <= i < |ws.units| && ws.units[i] == u;
    var j :| 0 <= j < |ws.units| && ws.units[j] == v;
    assert i != j;
  }

  /** With unique IDs, two units stored under one ID are the same unit. */
  lemma SameIdSameUnit(ws: World, u: SimUnit, v: SimUnit)
    requires UniqueUnitIds(ws) && u in ws.units && v in ws.units && u.id == v.id
    ensures u == v
  {
    var i :| 0 <= i < |ws.units| && ws.units[i] == u;
    var j :| 0 <= j < |ws.units| && ws.units[j] == v;
    assert !(i < j) && !(j < i);
  }

  /** Entries of a dictionary are removed with `Remove(id)`. */
  function RemoveUnit(ws: World, id: int): (r: World)
    ensures r == ws.(units := r.units)
    ensures forall u :: u in r.units <==> u in ws.units && u.id != id
  {
    ws.(units := Select.Filter(ws.units, NotId(id)))
  }

  function RemoveBuilding(ws: World, id: int): (r: World)
    ensures r == ws.(buildings := r.buildings)
    ensures forall b :: b in r.buildings <==> b in ws.buildings && b.id != id
  {
    ws.(buildings := Select.Filter(ws.buildings, (b: SimBuilding) => b.id != id))
  }

  function RemoveResource(ws: World, id: int): (r: World)
    ensures r == ws.(resources := r.resources)
    ensures forall x :: x in r.resources <==> x in ws.resources && x.id != id
  {
    ws.(resources := Select.Filter(ws.resources, (x: SimResource) => x.id != id))
  }

  /** `Buildings.Add(b.ID, b)`: the building joins the end of the
      enumeration; under a fresh ID it is found by that ID. */
  function AddBuilding(ws: World, b: SimBuilding): (r: World)
    ensures r == ws.(buildings := ws.buildings + [b])
    ensures GetBuilding(ws, b.id).None? ==> GetBuilding(r, b.id) == Some(b)
    ensures forall q :: q != b.id ==> GetBuilding(r, q) == GetBuilding(ws, q)
  {
    var r := ws.(buildings := ws.buildings + [b]);
    forall q {
      Select.IndexOfKeyAppend(ws.buildings, BuildingKey, q, b);
    }
    r
  }

  /** The node at `p` with its walkable flag set; a no-op out of bounds. */
  function SetWalkable(ws: World, p: Int2, flag: bool): (r: World)
    requires ws.mapData.Valid()
    ensures r == ws.(mapData := r.mapData) && r.mapData.Valid()
    ensures r.mapData.width == ws.mapData.width && r.mapData.height == ws.mapData.height
    ensures ws.mapData.InBounds(p) ==> r.mapData.At(p) == ws.mapData.At(p).(walkable := flag)
    ensures forall q :: r.mapData.InBounds(q) && q != p ==> r.mapData.At(q) == ws.mapData.At(q)
  {
    if ws.mapData.InBounds(p) then ws.(mapData := ws.mapData.Set(p, ws.mapData.At(p).(walkable := flag))) else ws
  }

  /** The node at `p` with a new occupant; a no-op out of bounds. */
  function SetOccupant(ws: World, p: Int2, occ: int): (r: World)
    requires ws.mapData.Valid()
    ensures r == ws.(mapData := r.mapData) && r.mapData.Valid()
    ensures r.mapData.width == ws.mapData.width && r.mapData.height == ws.mapData.height
    ensures ws.mapData.InBounds(p) ==> r.mapData.At(p) == ws.mapData.At(p).(occupant := occ)
    ensures forall q :: r.mapData.InBounds(q) && q != p ==> r.mapData.At(q) == ws.mapData.At(q)
    ensures !ws.mapData.InBounds(p) ==> r == ws
  {
    if ws.mapData.InBounds(p) then ws.(mapData := ws.mapData.Set(p, ws.mapData.At(p).(occupant := occ))) else ws
  }
}
