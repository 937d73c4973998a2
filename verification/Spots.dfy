/** Build-spot searches and placeholder placement shared by the scripted
    players. A search visits the cells around a centre in a fixed order and
    takes the first one a test accepts; the orders are x-major squares and
    Chebyshev rings of growing radius. */
module Spots {
  import opened Wrappers
  import opened Types
  import opened World
  import opened Config
  import opened Resources
  import opened Grid
  import opened Buildings
  import opened Units
  import Select

  /** The Chebyshev distance: the ring a cell lies on around a centre. */
  function Chebyshev(p: Int2, c: Int2): nat
  {
    var dx, dy := Abs(p.x - c.x), Abs(p.y - c.y);
    if dx >= dy then dx else dy
  }

  /** `a` comes before `b` in the scan of the nested loops `for x`, `for y`:
      a smaller column, or the same column and a smaller row. */
  predicate Before(a: Int2, b: Int2)
  {
    a.x < b.x || (a.x == b.x && a.y < b.y)
  }

  /** A scan in strictly increasing x-major order, so each cell once. */
  predicate XMajor(s: seq<Int2>)
  {
    forall i, j :: 0 <= i < j < |s| ==> Before(s[i], s[j])
  }

  /** `a` comes before `b` in a ring search around `c`: an inner ring, or
      the same ring and x-major. */
  predicate RingBefore(a: Int2, b: Int2, c: Int2)
  {
    Chebyshev(a, c) < Chebyshev(b, c) || (Chebyshev(a, c) == Chebyshev(b, c) && Before(a, b))
  }

  /** A scan in strictly increasing ring order around `c`. */
  predicate RingMajor(s: seq<Int2>, c: Int2)
  {
    forall i, j :: 0 <= i < j < |s| ==> RingBefore(s[i], s[j], c)
  }

  /** The cells `(c.x + x, c.y + y)` for `y` from `y0` to `hi` with
      `keep(x, y)`, in increasing `y`. */
  function Column(c: Int2, x: int, y0: int, hi: int, keep: (int, int) -> bool): (s: seq<Int2>)
    ensures forall p :: p in s <==> p.x == c.x + x && y0 <= p.y - c.y <= hi && keep(x, p.y - c.y)
    ensures XMajor(s)
    decreases hi - y0
  {
    if y0 > hi then []
    else
      var rest := Column(c, x, y0 + 1, hi, keep);
      if keep(x, y0) then
        var h := Int2(c.x + x, c.y + y0);
        assert forall p :: p in rest ==> Before(h, p);
        XMajorConcat([h], rest);
        [h] + rest
      else rest
  }

  /** The cells of the square `[lo, hi]²` around `c` accepted by `keep`, in
      the order of the loops `for x: for y:`. */
  function Cells(c: Int2, x0: int, lo: int, hi: int, keep: (int, int) -> bool): (s: seq<Int2>)
    ensures forall p :: p in s <==> x0 <= p.x - c.x <= hi && lo <= p.y - c.y <= hi && keep(p.x - c.x, p.y - c.y)
    ensures XMajor(s)
    decreases hi - x0
  {
    if x0 > hi then []
    else
      var col, rest := Column(c, x0, lo, hi, keep), Cells(c, x0 + 1, lo, hi, keep);
      XMajorConcat(col, rest);
      col + rest
  }

  /** Two x-major scans, every cell of the first before every cell of the
      second, make one x-major scan. */
  lemma XMajorConcat(a: seq<Int2>, b: seq<Int2>)
    requires XMajor(a) && XMajor(b)
    requires forall p, q :: p in a && q in b ==> Before(p, q)
    ensures XMajor(a + b)
  {
    forall i, j | 0 <= i < j < |a + b| ensures Before((a + b)[i], (a + b)[j]) {
      if j < |a| {
      } else if i >= |a| {
        assert (a + b)[i] == b[i - |a|] && (a + b)[j] == b[j - |a|];
      } else {
        assert (a + b)[i] in a && (a + b)[j] in b;
      }
    }
  }

  function Anywhere(): (int, int) -> bool
  {
    (x: int, y: int) => true
  }

  /** A cell is within Chebyshev distance `r` exactly when both offsets are
      in `[-r, r]`. */
  lemma ChebyshevBox(p: Int2, c: Int2, r: int)
    ensures Chebyshev(p, c) <= r <==> -r <= p.x - c.x <= r && -r <= p.y - c.y <= r
  {
  }

  /** The square of half-width `r` around `c`, scanned x-major. */
  function Square(c: Int2, r: nat): (s: seq<Int2>)
    ensures forall p :: p in s <==> Chebyshev(p, c) <= r
    ensures XMajor(s)
  {
    var s := Cells(c, -(r as int), -(r as int), r, Anywhere());
    forall p ensures p in s <==> Chebyshev(p, c) <= r {
      ChebyshevBox(p, c, r);
    }
    s
  }

  /** The ring test of the searches: `|x| == r || |y| == r`, minus the
      gate corridor `y == -r && |x| < 3` when a gate is asked for. */
  function RingKeep(r: int, gate: bool): (int, int) -> bool
  {
    (x: int, y: int) => (Abs(x) == r || Abs(y) == r) && !(gate && y == -r && Abs(x) < 3)
  }

  /** The gate corridor: the cells on the bottom edge of ring `r` less than
      three columns from the centre. */
  predicate InGate(p: Int2, c: Int2, r: int)
  {
    p.y - c.y == -r && Abs(p.x - c.x) < 3
  }

  /** Ring `r` around `c`, scanned x-major. */
  function Ring(c: Int2, r: nat, gate: bool): (s: seq<Int2>)
    ensures forall p :: p in s <==> Chebyshev(p, c) == r && !(gate && InGate(p, c, r))
    ensures XMajor(s)
  {
    Cells(c, -(r as int), -(r as int), r, RingKeep(r, gate))
  }

  /** Rings `lo` to `hi`, innermost first. */
  function Rings(c: Int2, lo: nat, hi: int, gate: bool): (s: seq<Int2>)
    ensures forall p :: p in s <==> lo <= Chebyshev(p, c) <= hi && !(gate && InGate(p, c, Chebyshev(p, c)))
    ensures RingMajor(s, c)
    decreases hi - lo
  {
    if lo > hi then []
    else
      var ring, rest := Ring(c, lo, gate), Rings(c, lo + 1, hi, gate);
      forall i, j | 0 <= i < j < |ring + rest| ensures RingBefore((ring + rest)[i], (ring + rest)[j], c) {
        if j < |ring| {
        } else if i >= |ring| {
          assert (ring + rest)[i] == rest[i - |ring|] && (ring + rest)[j] == rest[j - |ring|];
        } else {
          assert (ring + rest)[i] in ring && (ring + rest)[j] in rest;
        }
      }
      ring + rest
  }

  /** The first cell of a scan a test accepts. */
  function FirstAccepted(cells: seq<Int2>, ok: Int2 -> bool): (r: Option<Int2>)
    ensures r.None? <==> forall p :: p in cells ==> !ok(p)
    ensures r.Some? ==> r.value in cells && ok(r.value)
    ensures r.Some? ==> exists i :: 0 <= i < |cells| && cells[i] == r.value && ok(cells[i])
                                    && forall j :: 0 <= j < i ==> !ok(cells[j])
  {
    match Select.FirstIndex(cells, ok)
    case None => None
    case Some(i) => Some(cells[i])
  }

  /** Scanning a concatenation scans the first part, then the second. */
  lemma {:induction false} FirstAcceptedConcat(a: seq<Int2>, b: seq<Int2>, ok: Int2 -> bool)
    ensures FirstAccepted(a + b, ok) == if FirstAccepted(a, ok).Some? then FirstAccepted(a, ok) else FirstAccepted(b, ok)
  {
    if |a| > 0 {
      assert (a + b)[0] == a[0];
      assert (a + b)[1..] == a[1..] + b;
      FirstAcceptedConcat(a[1..], b, ok);
      if !ok(a[0]) {
        assert FirstAccepted(a + b, ok) == FirstAccepted(a[1..] + b, ok) by {
          FirstIndexTail(a + b, ok);
        }
        assert FirstAccepted(a, ok) == FirstAccepted(a[1..], ok) by {
          FirstIndexTail(a, ok);
        }
      }
    } else {
      assert a + b == b;
    }
  }

  /** In an x-major scan the cell found is the first accepted one in x-major
      order: every scanned cell before it is refused. */
  lemma FirstInScanOrder(cells: seq<Int2>, ok: Int2 -> bool)
    requires XMajor(cells)
    ensures FirstAccepted(cells, ok).Some? ==>
              forall p :: p in cells && Before(p, FirstAccepted(cells, ok).value) ==> !ok(p)
  {
    if FirstAccepted(cells, ok).Some? {
      var v := FirstAccepted(cells, ok).value;
      var i :| 0 <= i < |cells| && cells[i] == v && ok(cells[i]) && forall j :: 0 <= j < i ==> !ok(cells[j]);
      forall p | p in cells && Before(p, v) ensures !ok(p) {
        var j :| 0 <= j < |cells| && cells[j] == p;
        var ordered := Before(cells[i], cells[j]);
      }
    }
  }

  /** In a ring scan the cell found is the first accepted one in ring order:
      every scanned cell on an inner ring, or before it on its ring, is
      refused. */
  lemma FirstInRingOrder(cells: seq<Int2>, c: Int2, ok: Int2 -> bool)
    requires RingMajor(cells, c)
    ensures FirstAccepted(cells, ok).Some? ==>
              forall p :: p in cells && RingBefore(p, FirstAccepted(cells, ok).value, c) ==> !ok(p)
  {
    if FirstAccepted(cells, ok).Some? {
      var v := FirstAccepted(cells, ok).value;
      var i :| 0 <= i < |cells| && cells[i] == v && ok(cells[i]) && forall j :: 0 <= j < i ==> !ok(cells[j]);
      forall p | p in cells && RingBefore(p, v, c) ensures !ok(p) {
        var j :| 0 <= j < |cells| && cells[j] == p;
        var ordered := RingBefore(cells[i], cells[j], c);
      }
    }
  }

  /** Past a rejected head the scan continues on the tail. */
  lemma FirstIndexTail(s: seq<Int2>, ok: Int2 -> bool)
    requires |s| > 0 && !ok(s[0])
    ensures FirstAccepted(s, ok) == FirstAccepted(s[1..], ok)
  {
  }

  /** A ring search takes a cell of the innermost ring holding an accepted
      cell: no accepted cell lies strictly closer to the centre. */
  lemma {:induction false} RingSearchInnermost(c: Int2, lo: nat, hi: int, gate: bool, ok: Int2 -> bool, q: Int2)
    requires q in Rings(c, lo, hi, gate) && ok(q)
    ensures FirstAccepted(Rings(c, lo, hi, gate), ok).Some?
    ensures Chebyshev(FirstAccepted(Rings(c, lo, hi, gate), ok).value, c) <= Chebyshev(q, c)
    decreases hi - lo
  {
    var ring := Ring(c, lo, gate);
    var rest := Rings(c, lo + 1, hi, gate);
    FirstAcceptedConcat(ring, rest, ok);
    if FirstAccepted(ring, ok).None? {
      assert q !in ring;
      RingSearchInnermost(c, lo + 1, hi, gate, ok, q);
    }
  }

  /** `SpawnPlaceholder`: an unfinished building of `pid` under the next
      ID, with its type's stats, added to the buildings; its cell becomes
      unwalkable and occupied by it. */
  function Placeholder(ws: World, pid: int, kind: BuildingType, pos: Int2): (r: (SimBuilding, World))
    requires ws.mapData.Valid()
    ensures r.0.id == ws.idCounter && r.0.player == pid && r.0.kind == kind && r.0.pos == pos
    ensures !r.0.isConstructed && r.0.progress == 0.0
    ensures r.1.buildings == ws.buildings + [r.0] && r.1.idCounter == ws.idCounter + 1
    ensures r.1.units == ws.units && r.1.players == ws.players && r.1.resources == ws.resources
    ensures r.1.tick == ws.tick && r.1.mapData.Valid()
    ensures r.1.mapData.width == ws.mapData.width && r.1.mapData.height == ws.mapData.height
    ensures ws.mapData.InBounds(pos) ==> !r.1.mapData.At(pos).walkable && r.1.mapData.At(pos).occupant == r.0.id
    ensures forall q :: r.1.mapData.InBounds(q) && q != pos ==> r.1.mapData.At(q) == ws.mapData.At(q)
  {
    var (id, ws1) := NextID(ws);
    var b := InitializeBuildingStats(NewBuilding(id, pid, kind, pos, false, 0.0));
    var ws2 := SetWalkable(AddBuilding(ws1, b), pos, false);
    (b, SetOccupant(ws2, pos, id))
  }

  /** What a build order on `pos` leaves behind: the price paid when the
      player can pay it (a spend it cannot afford changes nothing); one
      unfinished building of `kind` owned by the player appended on `pos`
      under the next ID, with its cell blocked; the worker sent to build it
      when a cell next to it is free, and kept as it was otherwise; no other
      unit, player, resource or cell changed. */
  ghost predicate Erected(ws: World, r: World, pid: int, worker: SimUnit, kind: BuildingType, pos: Int2, cost: Cost)
    requires ws.mapData.Valid() && r.mapData.Valid()
  {
    ErectedStocks(ws, r, pid, cost) && ErectedBuilding(ws, r, pid, kind, pos) && ErectedWorker(ws, r, worker, pos)
  }

  /** The stock part: the price leaves the player exactly when affordable. */
  ghost predicate ErectedStocks(ws: World, r: World, pid: int, cost: Cost)
  {
    && r.tick == ws.tick && r.resources == ws.resources && r.idCounter == ws.idCounter + 1
    && GetPlayer(r, pid) == (if CanAfford(ws, pid, cost) then Some(Paid(GetPlayer(ws, pid).value, cost)) else GetPlayer(ws, pid))
    && (forall q :: q != pid ==> GetPlayer(r, q) == GetPlayer(ws, q))
  }

  /** The building part: one unfinished building appended, its cell blocked. */
  ghost predicate ErectedBuilding(ws: World, r: World, pid: int, kind: BuildingType, pos: Int2)
    requires ws.mapData.Valid() && r.mapData.Valid()
  {
    && |r.buildings| == |ws.buildings| + 1 && r.buildings[..|ws.buildings|] == ws.buildings
    && (var b := r.buildings[|ws.buildings|];
        b.id == ws.idCounter && b.player == pid && b.kind == kind && b.pos == pos && !b.isConstructed)
    && r.mapData.width == ws.mapData.width && r.mapData.height == ws.mapData.height
    && (ws.mapData.InBounds(pos) ==> !r.mapData.At(pos).walkable && r.mapData.At(pos).occupant == ws.idCounter)
    && (forall q :: r.mapData.InBounds(q) && q != pos ==> r.mapData.At(q) == ws.mapData.At(q))
  }

  /** The unit part: only the worker changes, and it is sent to build when
      a cell next to the building is free. */
  ghost predicate ErectedWorker(ws: World, r: World, worker: SimUnit, pos: Int2)
    requires ws.mapData.Valid()
  {
    && |r.units| == |ws.units|
    && (forall q :: q != worker.id ==> GetUnit(r, q) == GetUnit(ws, q))
    && (GetUnit(ws, worker.id) == Some(worker) && FindWalkableNeighbor(ws, pos).None? ==> GetUnit(r, worker.id) == Some(worker))
    && (GetUnit(ws, worker.id).Some? && FindWalkableNeighbor(ws, pos).Some? ==>
          GetUnit(r, worker.id).Some? && GetUnit(r, worker.id).value.targetId == ws.idCounter
          && GetUnit(r, worker.id).value.state in {Moving, Building})
  }

  /** The placement world: paid, with the placeholder appended. */
  function Placed(ws: World, pid: int, kind: BuildingType, pos: Int2, cost: Cost): (r: (SimBuilding, World))
    requires ws.mapData.Valid()
    ensures r.1.mapData.Valid()
  {
    Placeholder(SpendResources(ws, pid, cost).1, pid, kind, pos)
  }

  lemma PlacedStocks(ws: World, pid: int, kind: BuildingType, pos: Int2, cost: Cost, u: SimUnit)
    requires ws.mapData.Valid()
    ensures ErectedStocks(ws, PutUnit(Placed(ws, pid, kind, pos, cost).1, u), pid, cost)
  {
  }

  lemma PlacedBuilding(ws: World, pid: int, kind: BuildingType, pos: Int2, cost: Cost, u: SimUnit)
    requires ws.mapData.Valid()
    ensures PutUnit(Placed(ws, pid, kind, pos, cost).1, u).mapData.Valid()
    ensures ErectedBuilding(ws, PutUnit(Placed(ws, pid, kind, pos, cost).1, u), pid, kind, pos)
  {
    var ws2 := Placed(ws, pid, kind, pos, cost).1;
    assert ws2.buildings[..|ws.buildings|] == ws.buildings;
  }

  lemma PlacedWorker(ws: World, pid: int, worker: SimUnit, kind: BuildingType, pos: Int2, cost: Cost)
    requires ws.mapData.Valid()
    ensures var (b, ws2) := Placed(ws, pid, kind, pos, cost);
            ErectedWorker(ws, PutUnit(ws2, OrderBuild(ws2, worker, b)), worker, pos)
  {
    var (b, ws2) := Placed(ws, pid, kind, pos, cost);
    forall p | Adjacent(pos, p) ensures IsWalkable(ws2, p) == IsWalkable(ws, p) {
    }
    assert FindWalkableNeighbor(ws2, pos).Some? == FindWalkableNeighbor(ws, pos).Some?;
    assert forall q :: GetUnit(ws2, q) == GetUnit(ws, q);
  }

  /** The build order once a spot is found: pay the price, place the
      placeholder and send the worker to build it. */
  function BuildAt(ws: World, pid: int, worker: SimUnit, kind: BuildingType, pos: Int2, cost: Cost): (r: World)
    requires ws.mapData.Valid()
    ensures r.mapData.Valid()
    ensures Erected(ws, r, pid, worker, kind, pos, cost)
  {
    var (b, ws2) := Placed(ws, pid, kind, pos, cost);
    var u := OrderBuild(ws2, worker, b);
    PlacedStocks(ws, pid, kind, pos, cost, u);
    PlacedBuilding(ws, pid, kind, pos, cost, u);
    PlacedWorker(ws, pid, worker, kind, pos, cost);
    PutUnit(ws2, u)
  }
}
