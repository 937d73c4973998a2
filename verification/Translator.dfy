/** The action translator of the learning agent (`DRLActionTranslator`):
    an action code and a target cell become orders for player 1, and the
    translator reports whether the order went through. */
module Translator {
  import opened Wrappers
  import opened Types
  import opened World
  import opened Config
  import opened Resources
  import opened Grid
  import opened Units
  import opened Buildings
  import opened Spots
  import opened Bots
  import Select

  /** The agent always plays player 1. */
  const AGENT: int := 1

  /** What an action code asks for. */
  datatype Command = Wait | Build(kind: BuildingType) | Train(unit: UnitType) | AttackAt | GatherAt | Unknown

  /** The translator's code table: 0 waits, 1 and 2 build a house and a
      barracks, 3 and 4 train a worker and a soldier, 5 attacks, 6
      gathers, 7 to 9 build a farm, a wood cutter and a stone pit; any
      other code asks for nothing. */
  function CommandOf(code: int): (c: Command)
    ensures c.Unknown? <==> code < 0 || code > 9
    ensures c.Build? <==> code in {1, 2, 7, 8, 9}
    ensures c.Train? <==> code in {3, 4}
    ensures c.Build? ==> c.kind in {House, Barracks, Farm, WoodCutter, StonePit}
  {
    match code
    case 0 => Wait
    case 1 => Build(House)
    case 2 => Build(Barracks)
    case 3 => Train(Worker)
    case 4 => Train(Soldier)
    case 5 => AttackAt
    case 6 => GatherAt
    case 7 => Build(Farm)
    case 8 => Build(WoodCutter)
    case 9 => Build(StonePit)
    case _ => Unknown
  }

  /** Distinct codes ask for distinct commands. */
  lemma CodesDistinct(a: int, b: int)
    requires 0 <= a <= 9 && 0 <= b <= 9 && a != b
    ensures CommandOf(a) != CommandOf(b)
  {
  }

  // ---------------------------------------------------------------------
  // Choosing a worker.

  function OwnIdleWorker(): SimUnit -> bool
  {
    (u: SimUnit) => u.player == AGENT && u.kind == Worker && u.state == Idle
  }

  function OwnFreeWorker(): SimUnit -> bool
  {
    (u: SimUnit) => u.player == AGENT && u.kind == Worker && u.state != Building
  }

  function DistTo(target: Int2): SimUnit -> int
  {
    (u: SimUnit) => DistSq(u.pos, target)
  }

  /** `FindIdleWorker`: the idle worker of the agent nearest the target
      (the first of equals). */
  function FindIdleWorker(ws: World, target: Int2): (r: Option<SimUnit>)
    ensures r.None? <==> !Select.Any(ws.units, OwnIdleWorker())
    ensures r.Some? ==> r.value in ws.units && OwnIdleWorker()(r.value)
    ensures r.Some? ==> forall i :: 0 <= i < |ws.units| && OwnIdleWorker()(ws.units[i]) ==>
                          DistSq(r.value.pos, target) <= DistSq(ws.units[i].pos, target)
  {
    match Select.NearestFirst(ws.units, OwnIdleWorker(), DistTo(target))
    case None => None
    case Some(i) => Some(ws.units[i])
  }

  /** `FindBestWorkerForGathering`: the nearest idle worker, else the
      nearest worker that is not building. */
  function FindGatherer(ws: World, target: Int2): (r: Option<SimUnit>)
    ensures r.None? <==> !Select.Any(ws.units, OwnFreeWorker())
    ensures r.Some? ==> r.value in ws.units && OwnFreeWorker()(r.value)
    ensures Select.Any(ws.units, OwnIdleWorker()) ==> r.Some? && r.value.state == Idle
    ensures r.Some? ==> forall i :: 0 <= i < |ws.units| && OwnIdleWorker()(ws.units[i]) ==>
                          DistSq(r.value.pos, target) <= DistSq(ws.units[i].pos, target)
    ensures r.Some? && !Select.Any(ws.units, OwnIdleWorker()) ==>
              forall i :: 0 <= i < |ws.units| && OwnFreeWorker()(ws.units[i]) ==>
                DistSq(r.value.pos, target) <= DistSq(ws.units[i].pos, target)
  {
    match FindIdleWorker(ws, target)
    case Some(w) => Some(w)
    case None =>
      assert !Select.Any(ws.units, OwnIdleWorker());
      match Select.NearestFirst(ws.units, OwnFreeWorker(), DistTo(target))
      case None => None
      case Some(i) => Some(ws.units[i])
  }

  // ---------------------------------------------------------------------
  // Building and training.

  /** The price the translator charges for a building: the house, farm and
      stone pit their wood, the wood cutter its meat, the barracks and the
      tower their wood and stone, the wall its stone; a base nothing. */
  function BuildPrice(cfg: Config, kind: BuildingType): (c: Cost)
    ensures kind == House ==> c == Cost(cfg.house.wood, 0, 0)
    ensures kind == Farm ==> c == Cost(cfg.farm.wood, 0, 0)
    ensures kind == WoodCutter ==> c == Cost(0, 0, cfg.woodCutter.meat)
    ensures kind == StonePit ==> c == Cost(cfg.stonePit.wood, 0, 0)
    ensures kind == Barracks ==> c == Cost(BARRACKS_COST_WOOD, BARRACKS_COST_STONE, 0)
    ensures kind == Tower ==> c == Cost(cfg.tower.wood, cfg.tower.stone, 0)
    ensures kind == Wall ==> c == Cost(0, cfg.wall.stone, 0)
    ensures kind == Base ==> c == Free
  {
    match kind
    case House => Cost(cfg.house.wood, 0, 0)
    case Farm => Cost(cfg.farm.wood, 0, 0)
    case WoodCutter => Cost(0, 0, cfg.woodCutter.meat)
    case StonePit => Cost(cfg.stonePit.wood, 0, 0)
    case Barracks => Cost(BARRACKS_COST_WOOD, BARRACKS_COST_STONE, 0)
    case Tower => Cost(cfg.tower.wood, cfg.tower.stone, 0)
    case Wall => Cost(0, cfg.wall.stone, 0)
    case _ => Free
  }

  /** Only the wood cutter asks for meat. */
  lemma OnlyWoodCutterCostsMeat(cfg: Config, kind: BuildingType)
    requires kind != WoodCutter
    ensures BuildPrice(cfg, kind).meat == 0
  {
  }

  /** The outcome of a building order: whether it went through, the worker
      chosen to build, and the world after the payment. */
  datatype BuildOutcome = BuildOutcome(ok: bool, builder: Option<SimUnit>, world: World)

  /** `TryBuildBuilding`: the cell must be free and walkable grass, an idle
      worker must exist and the price be stocked; then the price is paid,
      the building is created on the cell and the idle worker nearest the
      cell is ordered to build it. A refusal changes nothing. */
  function TryBuildBuilding(cfg: Config, ws: World, kind: BuildingType, pos: Int2): (r: BuildOutcome)
    requires ws.mapData.Valid()
    ensures r.ok <==> IsWalkable(ws, pos) && ws.mapData.At(pos).tile == GrassTile
                      && Select.Any(ws.units, OwnIdleWorker()) && CanAfford(ws, AGENT, BuildPrice(cfg, kind))
    ensures !r.ok ==> r.world == ws && r.builder.None?
    ensures r.ok ==> GetPlayer(r.world, AGENT) == Some(Paid(GetPlayer(ws, AGENT).value, BuildPrice(cfg, kind)))
    ensures r.ok ==> r.builder == FindIdleWorker(ws, pos) && r.builder.Some?
    ensures r.world.mapData.Valid()
    ensures r.ok ==> Erected(ws, r.world, AGENT, r.builder.value, kind, pos, BuildPrice(cfg, kind))
  {
    if !IsWalkable(ws, pos) || ws.mapData.At(pos).tile != GrassTile then BuildOutcome(false, None, ws)
    else match FindIdleWorker(ws, pos)
      case None => BuildOutcome(false, None, ws)
      case Some(w) =>
        if !CanAfford(ws, AGENT, BuildPrice(cfg, kind)) then BuildOutcome(false, None, ws)
        else BuildOutcome(true, Some(w), BuildAt(ws, AGENT, w, kind, pos, BuildPrice(cfg, kind)))
  }

  /** The producer `TryTrainUnit` looks for: a finished, idle building of
      the agent, a base for a worker and a barracks for a soldier. */
  function Producer(t: UnitType): SimBuilding -> bool
  {
    (b: SimBuilding) => b.player == AGENT && b.isConstructed && !b.isTraining
                        && (if t == Worker then b.kind == Base else b.kind == Barracks)
  }

  /** `TryTrainUnit`: true exactly when a producer exists, even when the
      price is not stocked and so nothing starts; the first producer starts
      training when it is. */
  function TryTrainUnit(cfg: Config, ws: World, t: UnitType): (r: (bool, World))
    ensures r.0 <==> Select.Any(ws.buildings, Producer(t))
    ensures !r.0 || !CanAfford(ws, AGENT, TrainCost(cfg, t)) ==> r.1 == ws
    ensures r.0 && CanAfford(ws, AGENT, TrainCost(cfg, t)) ==>
              var b := Select.FirstWhere(ws.buildings, Producer(t)).value;
              GetPlayer(r.1, AGENT) == Some(Paid(GetPlayer(ws, AGENT).value, TrainCost(cfg, t)))
              && GetBuilding(r.1, b.id) == Some(b.(isTraining := true, unitInProduction := t, trainingTimer := 0.0))
    ensures r.1.mapData == ws.mapData && r.1.units == ws.units
  {
    match Select.FirstWhere(ws.buildings, Producer(t))
    case None => (false, ws)
    case Some(b) =>
      var (b1, ws1) := StartTraining(b, ws, t, cfg);
      if !b1.isTraining then (true, ws)
      else
        assert GetBuilding(ws1, b.id).Some? by {
          var i :| 0 <= i < |ws.buildings| && ws.buildings[i] == b;
          assert BuildingKey(ws1.buildings[i]) == b.id;
        }
        (true, PutBuilding(ws1, b1))
  }

  // ---------------------------------------------------------------------
  // Attacking.

  function OwnSoldier(): SimUnit -> bool
  {
    (u: SimUnit) => u.player == AGENT && u.kind == Soldier
  }

  /** What occupies the target cell, if it is an enemy: the occupant ID is
      looked up among the units first, then among the buildings. */
  function CellTarget(ws: World, pos: Int2): (t: Target)
    requires ws.mapData.Valid() && ws.mapData.InBounds(pos)
    ensures t.AtUnit? ==> t.u.id == ws.mapData.At(pos).occupant && GetUnit(ws, t.u.id) == Some(t.u) && t.u.player != AGENT
    ensures t.AtBuilding? ==> t.b.id == ws.mapData.At(pos).occupant && GetUnit(ws, t.b.id).None?
                              && GetBuilding(ws, t.b.id) == Some(t.b) && t.b.player != AGENT
    ensures ws.mapData.At(pos).occupant == NoOccupant ==> t.NoTarget?
    ensures GetUnit(ws, ws.mapData.At(pos).occupant).Some? && GetUnit(ws, ws.mapData.At(pos).occupant).value.player == AGENT
            ==> t.NoTarget?
  {
    var occ := ws.mapData.At(pos).occupant;
    if occ == NoOccupant then NoTarget
    else match GetUnit(ws, occ)
      case Some(u) => if u.player != AGENT then AtUnit(u) else NoTarget
      case None =>
        match GetBuilding(ws, occ)
        case Some(b) => if b.player != AGENT then AtBuilding(b) else NoTarget
        case None => NoTarget
  }

  /** The order each soldier takes: attack the enemy on the cell, or walk
      to the cell when there is none. */
  function Charge(ws: World, pos: Int2, t: Target, u: SimUnit): (r: SimUnit)
    requires ws.mapData.Valid()
    ensures r == u.(path := r.path, targetId := r.targetId, state := r.state)
    ensures t.AtUnit? ==> r.targetId == t.u.id
    ensures t.AtBuilding? && FindWalkableNeighbor(ws, t.b.pos).Some? ==> r.targetId == t.b.id
    ensures t.NoTarget? ==> r == OrderMove(ws, u, pos)
    ensures r.id == u.id
  {
    if t.NoTarget? then OrderMove(ws, u, pos) else Attack(ws, u, t)
  }

  /** The charge loop: every listed soldier takes its `Charge` order,
      against the world as it stood when the loop began. Only they change;
      with distinct IDs each ends as `Charge` leaves it. */
  function ChargeAll(ws: World, pos: Int2, t: Target, squad: seq<SimUnit>): (r: World)
    requires ws.mapData.Valid()
    ensures r == ws.(units := r.units) && |r.units| == |ws.units|
    ensures forall q :: q !in Crew.Ids(squad) ==> GetUnit(r, q) == GetUnit(ws, q)
    ensures DistinctUnitIds(squad) ==>
              forall s :: s in squad && GetUnit(ws, s.id) == Some(s) ==> GetUnit(r, s.id) == Some(Charge(ws, pos, t, s))
  {
    Crew.OrderAll(ws, squad, (s: SimUnit) => Charge(ws, pos, t, s))
  }

  /** `CommandArmyAttack`: every soldier of the agent charges the cell;
      true exactly when the agent has a soldier, and only soldiers change.
      With unique IDs each soldier of the agent ends as `Charge` against
      what occupies the cell leaves it. */
  function CommandArmyAttack(ws: World, pos: Int2): (r: (bool, World))
    requires ws.mapData.Valid() && ws.mapData.InBounds(pos)
    ensures r.0 <==> Select.Any(ws.units, OwnSoldier())
    ensures r.1 == ws.(units := r.1.units) && |r.1.units| == |ws.units|
    ensures forall q :: q !in Crew.Ids(Select.Filter(ws.units, OwnSoldier())) ==> GetUnit(r.1, q) == GetUnit(ws, q)
    ensures UniqueUnitIds(ws) ==>
              forall s :: s in ws.units && s.player == AGENT && s.kind == Soldier ==>
                GetUnit(r.1, s.id) == Some(Charge(ws, pos, CellTarget(ws, pos), s))
  {
    var squad := Select.Filter(ws.units, OwnSoldier());
    Crew.FilterStored(ws, OwnSoldier());
    assert forall s :: s in ws.units && s.player == AGENT && s.kind == Soldier ==> OwnSoldier()(s);
    (Select.Any(ws.units, OwnSoldier()), ChargeAll(ws, pos, CellTarget(ws, pos), squad))
  }

  // ---------------------------------------------------------------------
  // Gathering.

  /** The resource on a cell, if the cell is in bounds and its occupant is
      a resource. */
  function ResourceOn(ws: World, c: Int2): (r: Option<SimResource>)
    requires ws.mapData.Valid()
    ensures r.Some? ==> ws.mapData.InBounds(c) && r.value.id == ws.mapData.At(c).occupant
                        && GetResource(ws, r.value.id) == r
  {
    if !ws.mapData.InBounds(c) then None
    else
      var occ := ws.mapData.At(c).occupant;
      if occ == NoOccupant then None else GetResource(ws, occ)
  }

  function HoldsResource(ws: World): Int2 -> bool
    requires ws.mapData.Valid()
  {
    (c: Int2) => ResourceOn(ws, c).Some?
  }

  function CellDist(target: Int2): Int2 -> int
  {
    (c: Int2) => DistSq(c, target)
  }

  /** The 3x3 scan order: x outer from left to right, y inner from bottom
      to top. */
  function Around(p: Int2): (cells: seq<Int2>)
    ensures |cells| == 9
    ensures forall c :: c in cells <==> -1 <= c.x - p.x <= 1 && -1 <= c.y - p.y <= 1
  {
    var cells := [Int2(p.x - 1, p.y - 1), Int2(p.x - 1, p.y), Int2(p.x - 1, p.y + 1),
                  Int2(p.x, p.y - 1), Int2(p.x, p.y), Int2(p.x, p.y + 1),
                  Int2(p.x + 1, p.y - 1), Int2(p.x + 1, p.y), Int2(p.x + 1, p.y + 1)];
    assert forall c: Int2 | -1 <= c.x - p.x <= 1 && -1 <= c.y - p.y <= 1 :: c in cells by {
      forall c: Int2 | -1 <= c.x - p.x <= 1 && -1 <= c.y - p.y <= 1 ensures c in cells {
        var k := 3 * (c.x - p.x + 1) + (c.y - p.y + 1);
        assert cells[k] == c;
      }
    }
    cells
  }

  /** The resource `CommandGatherResource` aims at: the one on the target
      cell, else the one nearest the target in the 3x3 block around it (the
      first of equals in scan order). */
  function GatherSpot(ws: World, pos: Int2): (r: Option<SimResource>)
    requires ws.mapData.Valid()
    ensures ResourceOn(ws, pos).Some? ==> r == ResourceOn(ws, pos)
    ensures r.None? <==> forall c :: c in Around(pos) ==> ResourceOn(ws, c).None?
    ensures r.Some? ==> exists c :: c in Around(pos) && ResourceOn(ws, c) == r
    ensures r.Some? && ResourceOn(ws, pos).None? ==>
              exists c :: c in Around(pos) && ResourceOn(ws, c) == r
                          && forall d :: d in Around(pos) && ResourceOn(ws, d).Some? ==> DistSq(c, pos) <= DistSq(d, pos)
  {
    var cells := Around(pos);
    assert cells[4] == pos;
    if ResourceOn(ws, pos).Some? then ResourceOn(ws, pos)
    else match Select.NearestFirst(cells, HoldsResource(ws), CellDist(pos))
      case None =>
        assert forall c :: c in cells ==> ResourceOn(ws, c).None? by {
          forall c | c in cells ensures ResourceOn(ws, c).None? {
            var k :| 0 <= k < 9 && cells[k] == c;
            assert !HoldsResource(ws)(cells[k]);
          }
        }
        None
      case Some(k) =>
        var c := cells[k];
        assert forall d :: d in cells && ResourceOn(ws, d).Some? ==> DistSq(c, pos) <= DistSq(d, pos) by {
          forall d | d in cells && ResourceOn(ws, d).Some? ensures DistSq(c, pos) <= DistSq(d, pos) {
            var j :| 0 <= j < 9 && cells[j] == d;
            assert HoldsResource(ws)(cells[j]);
          }
        }
        ResourceOn(ws, c)
  }

  /** `CommandGatherResource`: true exactly when a resource is found and a
      worker can be spared for it; that worker alone is sent, and it ends
      as the gather order on that resource leaves it: heading for the
      resource, or unchanged when no cell next to the resource is free
      (the report is true even then). */
  function CommandGatherResource(ws: World, pos: Int2): (r: (bool, World))
    requires ws.mapData.Valid()
    ensures r.0 <==> GatherSpot(ws, pos).Some? && Select.Any(ws.units, OwnFreeWorker())
    ensures !r.0 ==> r.1 == ws
    ensures r.1 == ws.(units := r.1.units) && |r.1.units| == |ws.units|
    ensures r.0 ==> var w := FindGatherer(ws, GatherSpot(ws, pos).value.pos).value;
                    forall q :: q != w.id ==> GetUnit(r.1, q) == GetUnit(ws, q)
    ensures r.0 ==> var res := GatherSpot(ws, pos).value;
                    var w := FindGatherer(ws, res.pos).value;
                    GetUnit(r.1, w.id) == Some(TryAssignGatherTask(ws, w, res).1) &&
                    (TryAssignGatherTask(ws, w, res).0 ==>
                       TryAssignGatherTask(ws, w, res).1.targetId == res.id &&
                       TryAssignGatherTask(ws, w, res).1.state in {Moving, Gathering})
  {
    match GatherSpot(ws, pos)
    case None => (false, ws)
    case Some(res) =>
      match FindGatherer(ws, res.pos)
      case None => (false, ws)
      case Some(w) => (true, PutUnit(ws, TryAssignGatherTask(ws, w, res).1))
  }

  // ---------------------------------------------------------------------
  // The entry point.

  /** The result of one action: whether it went through, the builder named
      by a building order, and the world after it. */
  datatype Outcome = Outcome(ok: bool, builder: Option<SimUnit>, world: World)

  /** `ExecuteAction`: an off-map target fails, waiting succeeds, an
      unknown code fails, and every other code reports its command's own
      result and leaves the world its command leaves. */
  function ExecuteAction(cfg: Config, ws: World, code: int, x: int, y: int): (r: Outcome)
    requires ws.mapData.Valid()
    ensures !ws.mapData.InBounds(Int2(x, y)) ==> r == Outcome(false, None, ws)
    ensures ws.mapData.InBounds(Int2(x, y)) && code == 0 ==> r == Outcome(true, None, ws)
    ensures (code < 0 || code > 9) ==> !r.ok && r.world == ws
    ensures ws.mapData.InBounds(Int2(x, y)) && CommandOf(code).Build? ==>
              (r.ok <==> IsWalkable(ws, Int2(x, y)) && ws.mapData.At(Int2(x, y)).tile == GrassTile
                         && Select.Any(ws.units, OwnIdleWorker()) && CanAfford(ws, AGENT, BuildPrice(cfg, CommandOf(code).kind)))
    ensures ws.mapData.InBounds(Int2(x, y)) && CommandOf(code).Train? ==>
              (r.ok <==> Select.Any(ws.buildings, Producer(CommandOf(code).unit)))
    ensures ws.mapData.InBounds(Int2(x, y)) && code == 5 ==> (r.ok <==> Select.Any(ws.units, OwnSoldier()))
    ensures ws.mapData.InBounds(Int2(x, y)) && code == 6 ==>
              (r.ok <==> GatherSpot(ws, Int2(x, y)).Some? && Select.Any(ws.units, OwnFreeWorker()))
    ensures r.builder.Some? ==> CommandOf(code).Build? && r.ok
    ensures ws.mapData.InBounds(Int2(x, y)) && CommandOf(code).Build? ==>
              var b := TryBuildBuilding(cfg, ws, CommandOf(code).kind, Int2(x, y));
              r.world == b.world && r.builder == b.builder
    ensures ws.mapData.InBounds(Int2(x, y)) && CommandOf(code).Train? ==>
              r.world == TryTrainUnit(cfg, ws, CommandOf(code).unit).1
    ensures ws.mapData.InBounds(Int2(x, y)) && code == 5 ==> r.world == CommandArmyAttack(ws, Int2(x, y)).1
    ensures ws.mapData.InBounds(Int2(x, y)) && code == 6 ==> r.world == CommandGatherResource(ws, Int2(x, y)).1
  {
    var pos := Int2(x, y);
    if !ws.mapData.InBounds(pos) then Outcome(false, None, ws)
    else match CommandOf(code)
      case Wait => Outcome(true, None, ws)
      case Build(kind) =>
        var b := TryBuildBuilding(cfg, ws, kind, pos);
        Outcome(b.ok, b.builder, b.world)
      case Train(t) =>
        var (ok, ws1) := TryTrainUnit(cfg, ws, t);
        Outcome(ok, None, ws1)
      case AttackAt =>
        var (ok, ws1) := CommandArmyAttack(ws, pos);
        Outcome(ok, None, ws1)
      case GatherAt =>
        var (ok, ws1) := CommandGatherResource(ws, pos);
        Outcome(ok, None, ws1)
      case Unknown => Outcome(false, None, ws)
  }
}
