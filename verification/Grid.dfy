/** Grid queries: node lookup, walkability, neighbour choice, distances,
    the eight-neighbourhood and the fixed maze map. */
module Grid {
  import opened Wrappers
  import opened Types
  import opened World
  import Select

  function GetNode(ws: World, p: Int2): (r: Option<Node>)
    requires ws.mapData.Valid()
    ensures r.Some? <==> ws.mapData.InBounds(p)
    ensures r.Some? ==> r.value == ws.mapData.At(p)
  {
    if ws.mapData.InBounds(p) then Some(ws.mapData.At(p)) else None
  }

  /** `IsWalkable`: in bounds, the node's own flag set, and no occupant. */
  predicate IsWalkable(ws: World, p: Int2)
    requires ws.mapData.Valid()
  {
    ws.mapData.InBounds(p) && ws.mapData.At(p).walkable && ws.mapData.At(p).occupant == NoOccupant
  }

  /** The node flag alone, without the occupancy test (what the map-level
      `Grid[x, y].IsWalkable` check of several scripted players reads). */
  predicate NodeFlagWalkable(ws: World, p: Int2)
    requires ws.mapData.Valid()
  {
    ws.mapData.InBounds(p) && ws.mapData.At(p).walkable
  }

  lemma WalkableImpliesFlag(ws: World, p: Int2)
    requires ws.mapData.Valid()
    ensures IsWalkable(ws, p) ==> NodeFlagWalkable(ws, p)
    ensures !ws.mapData.InBounds(p) ==> !IsWalkable(ws, p) && GetNode(ws, p).None?
  {
  }

  // ---------------------------------------------------------------------
  // Neighbourhoods.

  /** `a` and `b` are distinct and one king's move apart. */
  predicate Adjacent(a: Int2, b: Int2)
  {
    a != b && -1 <= a.x - b.x <= 1 && -1 <= a.y - b.y <= 1
  }

  const Cardinals: seq<Int2> := [Int2(0, 1), Int2(0, -1), Int2(1, 0), Int2(-1, 0)]
  const Diagonals: seq<Int2> := [Int2(1, 1), Int2(1, -1), Int2(-1, 1), Int2(-1, -1)]

  /** The search order of `FindWalkableNeighbor`: cardinals, then diagonals. */
  function NeighborCandidates(c: Int2): (ns: seq<Int2>)
    ensures |ns| == 8
    ensures forall i :: 0 <= i < 8 ==> Adjacent(c, ns[i])
    ensures forall i :: 0 <= i < 4 ==> ns[i] == Add(c, Cardinals[i])
    ensures forall i :: 4 <= i < 8 ==> ns[i] == Add(c, Diagonals[i - 4])
  {
    seq(4, i requires 0 <= i < 4 => Add(c, Cardinals[i])) + seq(4, i requires 0 <= i < 4 => Add(c, Diagonals[i]))
  }

  /** `FindWalkableNeighbor`: the first walkable candidate, or none. */
  function FindWalkableNeighbor(ws: World, c: Int2): (r: Option<Int2>)
    requires ws.mapData.Valid()
    ensures r.None? <==> forall p :: Adjacent(c, p) ==> !IsWalkable(ws, p)
    ensures r.Some? ==> Adjacent(c, r.value) && IsWalkable(ws, r.value)
    ensures r.Some? ==>
              exists i :: 0 <= i < 8 && r.value == NeighborCandidates(c)[i]
                && forall j :: 0 <= j < i ==> !IsWalkable(ws, NeighborCandidates(c)[j])
    ensures (exists i :: 0 <= i < 4 && IsWalkable(ws, Add(c, Cardinals[i]))) ==>
              r.Some? && (r.value.x == c.x || r.value.y == c.y)
  {
    var ns := NeighborCandidates(c);
    AdjacentAreCandidates(c);
    match Select.FirstIndex(ns, (p: Int2) => IsWalkable(ws, p))
    case None => None
    case Some(i) => Some(ns[i])
  }

  /** Every king's-move neighbour is one of the eight candidates. */
  lemma AdjacentAreCandidates(c: Int2)
    ensures forall p :: Adjacent(c, p) ==> p in NeighborCandidates(c)
  {
    var ns := NeighborCandidates(c);
    forall p | Adjacent(c, p)
      ensures p in ns
    {
      var dx, dy := p.x - c.x, p.y - c.y;
      if dx == 0 && dy == 1 { assert p == ns[0]; }
      else if dx == 0 && dy == -1 { assert p == ns[1]; }
      else if dx == 1 && dy == 0 { assert p == ns[2]; }
      else if dx == -1 && dy == 0 { assert p == ns[3]; }
      else if dx == 1 && dy == 1 { assert p == ns[4]; }
      else if dx == 1 && dy == -1 { assert p == ns[5]; }
      else if dx == -1 && dy == 1 { assert p == ns[6]; }
      else { assert p == ns[7]; }
    }
  }

  /** The expansion order of the path search (`GetNeighbors`). */
  function Neighbors(p: Int2): (ns: seq<Int2>)
    ensures |ns| == 8
    ensures forall i :: 0 <= i < 8 ==> Adjacent(p, ns[i])
    ensures forall i, j :: 0 <= i < j < 8 ==> ns[i] != ns[j]
    ensures forall q :: Adjacent(p, q) ==> q in ns
  {
    var ns := [Int2(p.x + 1, p.y), Int2(p.x - 1, p.y), Int2(p.x, p.y + 1), Int2(p.x, p.y - 1),
               Int2(p.x + 1, p.y + 1), Int2(p.x + 1, p.y - 1), Int2(p.x - 1, p.y + 1), Int2(p.x - 1, p.y - 1)];
    forall q | Adjacent(p, q)
      ensures q in ns
    {
      var dx, dy := q.x - p.x, q.y - p.y;
      if dx == 1 && dy == 0 { assert q == ns[0]; }
      else if dx == -1 && dy == 0 { assert q == ns[1]; }
      else if dx == 0 && dy == 1 { assert q == ns[2]; }
      else if dx == 0 && dy == -1 { assert q == ns[3]; }
      else if dx == 1 && dy == 1 { assert q == ns[4]; }
      else if dx == 1 && dy == -1 { assert q == ns[5]; }
      else if dx == -1 && dy == 1 { assert q == ns[6]; }
      else { assert q == ns[7]; }
    }
    ns
  }

  // ---------------------------------------------------------------------
  // Distances.

  function Abs(v: int): nat
  {
    if v < 0 then -v else v
  }

  /** `GetDistance`: the Manhattan distance. */
  function Manhattan(a: Int2, b: Int2): (d: nat)
  {
    Abs(a.x - b.x) + Abs(a.y - b.y)
  }

  /** `GetDistanceSq`: the squared Euclidean distance. The source computes it
      in single precision from integer differences; it is exact here. */
  function DistSq(a: Int2, b: Int2): (d: nat)
  {
    var dx, dy := a.x - b.x, a.y - b.y;
    assert dx * dx >= 0 && dy * dy >= 0;
    dx * dx + dy * dy
  }

  /** The Manhattan distance is a metric. */
  lemma ManhattanMetric(a: Int2, b: Int2, c: Int2)
    ensures Manhattan(a, b) == Manhattan(b, a)
    ensures Manhattan(a, b) == 0 <==> a == b
    ensures Manhattan(a, c) <= Manhattan(a, b) + Manhattan(b, c)
  {
  }

  /** The squared distance is symmetric, zero only on equal points, and lies
      between half the squared Manhattan distance and its square. */
  lemma DistSqProperties(a: Int2, b: Int2)
    ensures DistSq(a, b) == DistSq(b, a)
    ensures DistSq(a, b) == 0 <==> a == b
    ensures DistSq(a, b) <= Manhattan(a, b) * Manhattan(a, b) <= 2 * DistSq(a, b)
  {
    var dx: int, dy: int := Abs(a.x - b.x), Abs(a.y - b.y);
    assert dx * dx == (a.x - b.x) * (a.x - b.x);
    assert dy * dy == (a.y - b.y) * (a.y - b.y);
    SquareBounds(dx, dy);
    if DistSq(a, b) == 0 {
      assert (a.x - b.x) * (a.x - b.x) == 0;
    }
  }

  lemma SquareBounds(dx: int, dy: int)
    requires dx >= 0 && dy >= 0
    ensures dx * dx + dy * dy <= (dx + dy) * (dx + dy) <= 2 * (dx * dx + dy * dy)
  {
    assert (dx + dy) * (dx + dy) == dx * dx + 2 * dx * dy + dy * dy;
    assert 0 <= 2 * dx * dy;
    assert (dx - dy) * (dx - dy) >= 0;
    assert (dx - dy) * (dx - dy) == dx * dx - 2 * dx * dy + dy * dy;
  }

  /** Adjacent cells are at squared distance 1 or 2 and Manhattan 1 or 2. */
  lemma AdjacentDistance(a: Int2, b: Int2)
    requires Adjacent(a, b)
    ensures 1 <= DistSq(a, b) <= 2
    ensures 1 <= Manhattan(a, b) <= 2
  {
  }

  // ---------------------------------------------------------------------
  // The maze map.

  /** The fixed 8 x 10 maze, indexed `[x][y]`; 1 is a wall. */
  const Maze: seq<seq<int>> := [
    [1, 1, 1, 1, 1, 1, 1, 1, 1, 1],
    [1, 0, 0, 0, 0, 0, 0, 0, 0, 1],
    [1, 0, 1, 1, 1, 1, 1, 1, 0, 1],
    [1, 0, 1, 0, 0, 0, 0, 1, 0, 1],
    [1, 0, 1, 0, 1, 1, 0, 1, 0, 1],
    [1, 0, 1, 0, 1, 1, 0, 1, 0, 1],
    [1, 0, 0, 0, 0, 0, 0, 0, 0, 1],
    [1, 1, 1, 1, 1, 1, 1, 1, 1, 1]
  ]

  const MazeRows: nat := 8
  const MazeCols: nat := 10

  predicate MazeOpen(x: int, y: int)
  {
    0 <= x < MazeRows && 0 <= y < MazeCols && Maze[x][y] == 0
  }

  /** One maze cell: the coordinates and everything else but the tile and
      walkable flag are kept, the occupant is cleared. */
  function MazeNode(n: Node, x: int, y: int): (r: Node)
    ensures r.x == n.x && r.y == n.y && r.occupant == NoOccupant
    ensures r.walkable <==> MazeOpen(x, y)
    ensures r.tile == (if MazeOpen(x, y) then GrassTile else StoneTile)
  {
    if x < MazeRows && y < MazeCols && 0 <= x && 0 <= y then
      if Maze[x][y] == 1 then n.(occupant := NoOccupant, tile := StoneTile, walkable := false)
      else n.(occupant := NoOccupant, tile := GrassTile, walkable := true)
    else n.(occupant := NoOccupant, tile := StoneTile, walkable := false)
  }

  /** `GenerateMazeMap`: every cell is unoccupied; the cells inside the maze
      follow the pattern and every cell outside it is unwalkable stone. */
  function GenerateMazeMap(m: MapData): (r: MapData)
    requires m.Valid()
    ensures r.Valid() && r.width == m.width && r.height == m.height
    ensures forall p :: r.InBounds(p) ==> r.At(p).occupant == NoOccupant
    ensures forall p :: r.InBounds(p) ==> (r.At(p).walkable <==> MazeOpen(p.x, p.y))
    ensures forall p :: r.InBounds(p) && !(p.x < MazeRows && p.y < MazeCols) ==>
              r.At(p).tile == StoneTile && !r.At(p).walkable
    ensures forall p :: r.InBounds(p) ==> r.At(p).x == m.At(p).x && r.At(p).y == m.At(p).y
  {
    MapData(m.width, m.height,
      seq(m.width, x requires 0 <= x < m.width =>
        seq(m.height, y requires 0 <= y < m.height => MazeNode(m.grid[x][y], x, y))))
  }

  /** The maze has a corridor ring: (1, 1) and (6, 8) are open, its border
      is closed, and the centre block (4, 4) is a wall. */
  lemma MazeShape()
    ensures MazeOpen(1, 1) && MazeOpen(6, 8)
    ensures forall y :: 0 <= y < MazeCols ==> !MazeOpen(0, y) && !MazeOpen(7, y)
    ensures !MazeOpen(4, 4)
  {
  }
}
