/** The scripted commander (`EliteCommanderAI`): a combat-micro pass once
    a second, and every five seconds a macro decision that defends the base
    when enemies come close, follows a fixed opening, then runs a mid-game
    of houses, workers, barracks, soldiers, harassment and full assaults. */
module Elite {
  import opened Wrappers
  import opened Types
  import opened World
  import opened Config
  import opened Resources
  import opened Grid
  import opened Units
  import opened Buildings
  import opened Pace
  import opened Spots
  import opened Crew
  import opened Bots
  import Select

  const MICRO_INTERVAL: real := 1.0
  const MACRO_INTERVAL: real := 5.0
  const PLACE_TRIES: int := 30
  const PLACE_RADIUS: nat := 8
  const ASSAULT_SOLDIERS: int := 10
  const HARASS_SOLDIERS: int := 2
  const WORKER_TARGET: int := 15
  const BARRACKS_TARGET: int := 2
  const SPARE_WOOD: int := 600
  const UNDER_ATTACK_SQ: int := 100
  const KITE_RANGE_SQ: int := 16
  const DEFENCE_RANGE_SQ: int := 225

  // ---------------------------------------------------------------------
  // The two clocks.

  /** Both clocks advance every frame; the micro pass runs once its clock
      reaches a second, the macro decision once its clock passes (strictly)
      five seconds, and each clock restarts from zero when it fires. */
  datatype Clocks = Clocks(macro: real, micro: real)

  function Advance(c: Clocks, dt: real): (r: (bool, bool, Clocks))
    ensures r.0 <==> c.micro + dt >= MICRO_INTERVAL
    ensures r.1 <==> c.macro + dt > MACRO_INTERVAL
    ensures r.2.micro == if r.0 then 0.0 else c.micro + dt
    ensures r.2.macro == if r.1 then 0.0 else c.macro + dt
  {
    var (micro, mc) := Throttle(c.micro, dt, MICRO_INTERVAL);
    var t := c.macro + dt;
    if t <= MACRO_INTERVAL then (micro, false, Clocks(t, mc)) else (micro, true, Clocks(0.0, mc))
  }

  /** The number of macro decisions a run of frames makes. */
  function MacroDecisions(timer: real, dts: seq<real>): (n: nat)
    ensures n <= |dts|
    decreases |dts|
  {
    if |dts| == 0 then 0
    else
      var t := timer + dts[0];
      if t > MACRO_INTERVAL then 1 + MacroDecisions(0.0, dts[1..]) else MacroDecisions(t, dts[1..])
  }

  /** Macro decisions come at most once per five seconds of frame time. */
  lemma {:induction false} MacroRationed(timer: real, dts: seq<real>)
    requires timer >= 0.0 && NonNegative(dts)
    ensures MacroDecisions(timer, dts) as real * MACRO_INTERVAL <= timer + Sum(dts)
    decreases |dts|
  {
    if |dts| > 0 {
      var t := timer + dts[0];
      assert NonNegative(dts[1..]);
      if t > MACRO_INTERVAL {
        MacroRationed(0.0, dts[1..]);
        FrameStep(true, MacroDecisions(0.0, dts[1..]), MACRO_INTERVAL, timer, dts[0], Sum(dts[1..]));
      } else {
        MacroRationed(t, dts[1..]);
        FrameStep(false, MacroDecisions(t, dts[1..]), MACRO_INTERVAL, timer, dts[0], Sum(dts[1..]));
      }
    }
  }

  /** Micro passes come at most once per second of frame time. */
  lemma {:induction false} MicroRationed(timer: real, dts: seq<real>)
    requires timer >= 0.0 && NonNegative(dts)
    ensures Decisions(timer, dts, MICRO_INTERVAL) as real <= timer + Sum(dts)
  {
    DecisionsRationed(timer, dts, MICRO_INTERVAL);
  }

  // ---------------------------------------------------------------------
  // Prices, gathering and building.

  /** `GetCost` for buildings: a house, barracks or tower costs its price,
      every other type nothing. */
  function BuildingCost(cfg: Config, kind: BuildingType): (c: Cost)
    ensures kind == House ==> c == cfg.house
    ensures kind == Barracks ==> c == cfg.BarracksCost()
    ensures kind == Tower ==> c == cfg.tower
    ensures kind !in {House, Barracks, Tower} ==> c == Free
  {
    match kind
    case House => cfg.house
    case Barracks => cfg.BarracksCost()
    case Tower => cfg.tower
    case _ => Free
  }

  /** The resource `AssignSmartGatherTasks` sends workers to: Meat, then
      Wood, then Stone by first shortfall, and Wood when nothing is short. */
  function SmartType(p: SimPlayer, c: Cost): (t: ResourceType)
    ensures t == Meat <==> p.meat < c.meat
    ensures t == Stone <==> p.meat >= c.meat && p.wood >= c.wood && p.stone < c.stone
    ensures t == Wood <==> p.meat >= c.meat && (p.wood < c.wood || p.stone >= c.stone)
  {
    ShortfallOfThree(p, c, Meat, Wood, Stone);
    match FirstShortfall(p, c, [Meat, Wood, Stone])
    case Some(t) => t
    case None => Wood
  }

  /** `AssignSmartGatherTasks`: every idle worker of the player goes to the
      nearest node of `SmartType` with something left. With unique IDs each
      of them ends as `GatherOrder` leaves it for that type. */
  function AssignSmartGatherTasks(ws: World, pid: int, c: Cost): (r: World)
    requires ws.mapData.Valid()
    ensures r == ws.(units := r.units) && |r.units| == |ws.units|
    ensures forall q :: q !in Ids(Select.Filter(ws.units, IdleWorkerOf(pid))) ==> GetUnit(r, q) == GetUnit(ws, q)
    ensures GetPlayer(ws, pid).None? ==> r == ws
    ensures UniqueUnitIds(ws) && GetPlayer(ws, pid).Some? ==>
              forall w :: w in ws.units && w.player == pid && w.kind == Worker && w.state == Idle ==>
                GetUnit(r, w.id) == Some(GatherOrder(ws, w, SmartType(GetPlayer(ws, pid).value, c), None))
  {
    match GetPlayer(ws, pid)
    case None => ws
    case Some(p) =>
      var t := SmartType(p, c);
      GatherAllIdle(ws, pid, t);
      SendToGather(ws, Select.Filter(ws.units, IdleWorkerOf(pid)), 0, Always(t), None)
  }

  /** The spot test of `TryBuildStructure`: an even column, in bounds, and
      the node flagged walkable. */
  function EvenSpot(ws: World): Int2 -> bool
    requires ws.mapData.Valid()
  {
    (p: Int2) => p.x % 2 == 0 && NodeFlagWalkable(ws, p)
  }

  /** `TryBuildStructure`: true exactly when the price is stocked, a worker
      idles, the base exists and one of the thirty tries in the 17x17 square
      around the base is an even, flagged-walkable column; then the price
      is paid, the building is created on the first such try and the first
      idle worker is ordered to build it. Otherwise nothing changes. The
      random offsets are inputs. */
  function TryBuildStructure(cfg: Config, ws: World, pid: int, kind: BuildingType, offsets: seq<Int2>): (r: (bool, World))
    requires ws.mapData.Valid()
    requires |offsets| == PLACE_TRIES && OffsetsWithin(offsets, PLACE_RADIUS)
    ensures r.1.mapData.Valid()
    ensures !r.0 ==> r.1 == ws
    ensures r.0 <==> CanAfford(ws, pid, BuildingCost(cfg, kind)) && Select.Any(ws.units, IdleWorkerOf(pid))
                     && BaseOf(ws, pid).Some?
                     && exists i :: 0 <= i < |offsets| && EvenSpot(ws)(Add(BaseOf(ws, pid).value.pos, offsets[i]))
    ensures r.0 ==> GetPlayer(r.1, pid) == Some(Paid(GetPlayer(ws, pid).value, BuildingCost(cfg, kind)))
    ensures r.0 ==> BuiltOne(ws, r.1, pid, kind, BuildingCost(cfg, kind))
  {
    if !CanAfford(ws, pid, BuildingCost(cfg, kind)) || !Select.Any(ws.units, IdleWorkerOf(pid)) then (false, ws)
    else
      var w := IdleWorker(ws, pid).value;
      var (spot, ws1) := PlaceAround(ws, pid, w, kind, BaseOf(ws, pid), offsets, EvenSpot(ws), BuildingCost(cfg, kind));
      if spot.Some? then
        assert Erected(ws, ws1, pid, w, kind, spot.value, BuildingCost(cfg, kind));
        (true, ws1)
      else (false, ws1)
  }

  /** A placed structure stands on an even column within eight cells of
      the base. */
  lemma StructureNearBase(cfg: Config, ws: World, pid: int, kind: BuildingType, offsets: seq<Int2>)
    requires ws.mapData.Valid()
    requires |offsets| == PLACE_TRIES && OffsetsWithin(offsets, PLACE_RADIUS)
    requires CanAfford(ws, pid, BuildingCost(cfg, kind)) && Select.Any(ws.units, IdleWorkerOf(pid))
    requires PlaceAround(ws, pid, IdleWorker(ws, pid).value, kind, BaseOf(ws, pid), offsets, EvenSpot(ws), BuildingCost(cfg, kind)).0.Some?
    ensures var p := PlaceAround(ws, pid, IdleWorker(ws, pid).value, kind, BaseOf(ws, pid), offsets, EvenSpot(ws), BuildingCost(cfg, kind)).0.value;
            p.x % 2 == 0 && NodeFlagWalkable(ws, p) && Chebyshev(p, BaseOf(ws, pid).value.pos) <= PLACE_RADIUS
  {
    PlacedNearBase(ws, pid, IdleWorker(ws, pid).value, kind, BaseOf(ws, pid), offsets, EvenSpot(ws), BuildingCost(cfg, kind), PLACE_RADIUS);
  }

  /** The producer `TryTrainUnit` uses: the first idle base for a worker,
      the first finished idle barracks for a soldier. */
  function IdleProducer(pid: int, t: UnitType): SimBuilding -> bool
  {
    (b: SimBuilding) => b.player == pid && !b.isTraining
                        && (if t == Worker then b.kind == Base else b.kind == Barracks && b.isConstructed)
  }

  /** `TryTrainUnit`: without the price the idle workers gather for it;
      with it, the first idle producer starts training and the price is
      paid; with no idle producer nothing happens. */
  function TryTrainUnit(cfg: Config, ws: World, pid: int, t: UnitType): (r: World)
    requires ws.mapData.Valid()
    ensures !CanAfford(ws, pid, TrainCost(cfg, t)) ==> r == AssignSmartGatherTasks(ws, pid, TrainCost(cfg, t))
    ensures CanAfford(ws, pid, TrainCost(cfg, t)) && !Select.Any(ws.buildings, IdleProducer(pid, t)) ==> r == ws
    ensures CanAfford(ws, pid, TrainCost(cfg, t)) && Select.Any(ws.buildings, IdleProducer(pid, t)) ==>
              var b := Select.FirstWhere(ws.buildings, IdleProducer(pid, t)).value;
              GetPlayer(r, pid) == Some(Paid(GetPlayer(ws, pid).value, TrainCost(cfg, t)))
              && GetBuilding(r, b.id) == Some(b.(isTraining := true, unitInProduction := t, trainingTimer := 0.0))
    ensures r.mapData == ws.mapData
  {
    if !CanAfford(ws, pid, TrainCost(cfg, t)) then AssignSmartGatherTasks(ws, pid, TrainCost(cfg, t))
    else match Select.FirstWhere(ws.buildings, IdleProducer(pid, t))
      case None => ws
      case Some(b) =>
        var (b1, ws1) := StartTraining(b, ws, t, cfg);
        assert GetBuilding(ws1, b.id).Some? by {
          assert ws1.buildings == ws.buildings;
          var i :| 0 <= i < |ws.buildings| && ws.buildings[i] == b;
          assert BuildingKey(ws.buildings[i]) == b.id;
        }
        PutBuilding(ws1, b1)
  }

  // ---------------------------------------------------------------------
  // The opening.

  /** A step of the opening: reach a count of a unit or a building type. */
  datatype Goal = UnitGoal(unit: UnitType, count: int) | BuildingGoal(building: BuildingType, count: int)

  const BUILD_ORDER: seq<Goal> := [UnitGoal(Worker, 4), BuildingGoal(Barracks, 1), BuildingGoal(House, 1),
                                   UnitGoal(Soldier, 2), UnitGoal(Worker, 7), BuildingGoal(Tower, 1)]

  /** The count a goal is measured against: the player's units or
      buildings of its type, finished or not. */
  function GoalCount(ws: World, pid: int, g: Goal): nat
  {
    match g
    case UnitGoal(u, _) => Select.Count(ws.units, OwnUnitKind(pid, u))
    case BuildingGoal(b, _) => Select.Count(ws.buildings, OwnKind(pid, b))
  }

  /** Where the opening stands: the index of the current step, and whether
      it is over. */
  datatype Opening = Opening(step: nat, finished: bool)

  /** What one opening decision does. */
  datatype OpeningMove = Finish | NextStep | Pursue(goal: Goal)

  /** `ExecuteOpening`: past the last step the opening finishes; a reached
      goal moves to the next step (and nothing else happens that decision);
      otherwise the current goal is pursued. */
  function OpeningStep(ws: World, pid: int, o: Opening): (r: (OpeningMove, Opening))
    ensures o.step >= |BUILD_ORDER| ==> r == (Finish, o.(finished := true))
    ensures o.step < |BUILD_ORDER| && GoalCount(ws, pid, BUILD_ORDER[o.step]) >= BUILD_ORDER[o.step].count ==>
              r == (NextStep, o.(step := o.step + 1))
    ensures o.step < |BUILD_ORDER| && GoalCount(ws, pid, BUILD_ORDER[o.step]) < BUILD_ORDER[o.step].count ==>
              r == (Pursue(BUILD_ORDER[o.step]), o)
  {
    if o.step >= |BUILD_ORDER| then (Finish, o.(finished := true))
    else if GoalCount(ws, pid, BUILD_ORDER[o.step]) >= BUILD_ORDER[o.step].count then (NextStep, o.(step := o.step + 1))
    else (Pursue(BUILD_ORDER[o.step]), o)
  }

  /** The opening's invariant: it is marked over only after every step of
      the build order was passed. */
  predicate OpeningSound(o: Opening)
  {
    o.finished ==> o.step >= |BUILD_ORDER|
  }

  /** The opening over a run of decisions, each seeing its own world. */
  function OpeningRun(pid: int, o: Opening, worlds: seq<World>): (r: Opening)
    decreases |worlds|
  {
    if |worlds| == 0 || o.finished then o
    else OpeningRun(pid, OpeningStep(worlds[0], pid, o).1, worlds[1..])
  }

  /** Along any run the step never goes back, the invariant holds, and a
      run of decisions advances the step at most once per decision. */
  lemma {:induction false} OpeningMonotone(pid: int, o: Opening, worlds: seq<World>)
    requires OpeningSound(o)
    ensures OpeningSound(OpeningRun(pid, o, worlds))
    ensures o.step <= OpeningRun(pid, o, worlds).step <= o.step + |worlds|
    decreases |worlds|
  {
    if |worlds| > 0 && !o.finished {
      OpeningMonotone(pid, OpeningStep(worlds[0], pid, o).1, worlds[1..]);
    }
  }

  /** `ExecuteOpening`'s pursuit of a goal: a unit goal trains (or gathers
      for) the unit and then sends the idle workers gathering for its
      price; a building goal builds, gathering for its price when that
      fails. */
  function PursueGoal(cfg: Config, ws: World, pid: int, g: Goal, offsets: seq<Int2>): (r: World)
    requires ws.mapData.Valid()
    requires |offsets| == PLACE_TRIES && OffsetsWithin(offsets, PLACE_RADIUS)
    ensures r.mapData.Valid()
    ensures g.UnitGoal? ==> r.mapData == ws.mapData
    ensures g.BuildingGoal? ==>
              r == AssignSmartGatherTasks(ws, pid, BuildingCost(cfg, g.building))
              || BuiltOne(ws, r, pid, g.building, BuildingCost(cfg, g.building))
  {
    match g
    case UnitGoal(u, _) =>
      var ws1 := TryTrainUnit(cfg, ws, pid, u);
      AssignSmartGatherTasks(ws1, pid, TrainCost(cfg, u))
    case BuildingGoal(b, _) =>
      var t := TryBuildStructure(cfg, ws, pid, b, offsets);
      if t.0 then
        assert BuiltOne(ws, t.1, pid, b, BuildingCost(cfg, b));
        t.1
      else AssignSmartGatherTasks(ws, pid, BuildingCost(cfg, b))
  }

  // ---------------------------------------------------------------------
  // Enemies in range.

  function EnemyWithin(pid: int, at: Int2, rangeSq: int): SimUnit -> bool
  {
    (u: SimUnit) => u.player != pid && DistSq(at, u.pos) < rangeSq
  }

  function DistFrom(at: Int2): SimUnit -> int
  {
    (u: SimUnit) => DistSq(at, u.pos)
  }

  /** `FindNearestEnemyUnit` as written: the FIRST enemy unit in range, in
      enumeration order, whatever its distance. */
  function FirstEnemyWithin(ws: World, pid: int, at: Int2, rangeSq: int): (r: Option<SimUnit>)
    ensures r.Some? ==> r.value in ws.units && r.value.player != pid && DistSq(at, r.value.pos) < rangeSq
    ensures r.None? <==> !Select.Any(ws.units, EnemyWithin(pid, at, rangeSq))
    ensures r.Some? ==> exists i :: 0 <= i < |ws.units| && ws.units[i] == r.value
                          && forall j :: 0 <= j < i ==> !EnemyWithin(pid, at, rangeSq)(ws.units[j])
  {
    match Select.FirstIndex(ws.units, EnemyWithin(pid, at, rangeSq))
    case None => None
    case Some(i) => Some(ws.units[i])
  }

  /** The search the name promises: the nearest enemy unit in range (the
      first of equals). */
  function NearestEnemyWithin(ws: World, pid: int, at: Int2, rangeSq: int): (r: Option<SimUnit>)
    ensures r.Some? ==> r.value in ws.units && r.value.player != pid && DistSq(at, r.value.pos) < rangeSq
    ensures r.Some? ==> forall u :: u in ws.units && u.player != pid && DistSq(at, u.pos) < rangeSq ==>
                          DistSq(at, r.value.pos) <= DistSq(at, u.pos)
    ensures r.None? <==> !Select.Any(ws.units, EnemyWithin(pid, at, rangeSq))
  {
    match Select.NearestFirst(ws.units, EnemyWithin(pid, at, rangeSq), DistFrom(at))
    case None => None
    case Some(i) =>
      var r := ws.units[i];
      assert forall u :: u in ws.units && u.player != pid && DistSq(at, u.pos) < rangeSq ==>
               DistSq(at, r.pos) <= DistSq(at, u.pos) by {
        forall u | u in ws.units && u.player != pid && DistSq(at, u.pos) < rangeSq
          ensures DistSq(at, r.pos) <= DistSq(at, u.pos)
        {
          var j :| 0 <= j < |ws.units| && ws.units[j] == u;
          assert EnemyWithin(pid, at, rangeSq)(ws.units[j]);
        }
      }
      Some(r)
  }

  /** The two differ: with a far enemy enumerated before a near one, both
      in range, the search as written returns the far one. */
  lemma FirstIsNotNearest()
    ensures var far := NewUnit(1, 2, Soldier, Int2(3, 0));
            var near := NewUnit(2, 2, Soldier, Int2(1, 0));
            var ws := World(0, NewMap(0, 0), [far, near], [], [], [], 3);
            FirstEnemyWithin(ws, 1, Int2(0, 0), KITE_RANGE_SQ) == Some(far)
            && NearestEnemyWithin(ws, 1, Int2(0, 0), KITE_RANGE_SQ) == Some(near)
  {
    var far := NewUnit(1, 2, Soldier, Int2(3, 0));
    var near := NewUnit(2, 2, Soldier, Int2(1, 0));
    var ws := World(0, NewMap(0, 0), [far, near], [], [], [], 3);
    assert EnemyWithin(1, Int2(0, 0), KITE_RANGE_SQ)(far);
    assert EnemyWithin(1, Int2(0, 0), KITE_RANGE_SQ)(near);
    assert DistSq(Int2(0, 0), near.pos) < DistSq(Int2(0, 0), far.pos);
    var r := NearestEnemyWithin(ws, 1, Int2(0, 0), KITE_RANGE_SQ);
    assert r.Some? && DistSq(Int2(0, 0), r.value.pos) <= DistSq(Int2(0, 0), near.pos);
    assert r.value in [far, near];
  }

  // ---------------------------------------------------------------------
  // Combat micro.

  /** The wounded test: health under 30% of the maximum. */
  predicate Wounded(s: SimUnit)
  {
    10 * s.health < 3 * s.maxHealth
  }

  function InReach(pid: int, at: Int2, reach: real): SimUnit -> bool
  {
    (u: SimUnit) => u.player != pid && DistSq(at, u.pos) as real < reach * reach
  }

  function HealthOf(): SimUnit -> int
  {
    (u: SimUnit) => u.health
  }

  /** The focus-fire choice: the weakest enemy within attack range plus
      one (the first of equals, as a stable `OrderBy` gives). */
  function Weakest(ws: World, pid: int, s: SimUnit): (r: Option<SimUnit>)
    ensures r.Some? ==> r.value in ws.units && InReach(pid, s.pos, s.attackRange + 1.0)(r.value)
    ensures r.Some? ==> forall i :: 0 <= i < |ws.units| && InReach(pid, s.pos, s.attackRange + 1.0)(ws.units[i]) ==>
                          r.value.health <= ws.units[i].health
    ensures r.None? <==> !Select.Any(ws.units, InReach(pid, s.pos, s.attackRange + 1.0))
  {
    match Select.NearestFirst(ws.units, InReach(pid, s.pos, s.attackRange + 1.0), HealthOf())
    case None => None
    case Some(i) => Some(ws.units[i])
  }

  /** One soldier's micro: a wounded soldier with an enemy within four
      cells steps away from the first such enemy in enumeration order (what
      `FindNearestEnemyUnit` returns), to its own cell mirrored through
      itself; an attacking soldier switches to the weakest enemy in reach
      when that is not already its target. */
  function MicroOne(ws: World, pid: int, s: SimUnit): (r: SimUnit)
    requires ws.mapData.Valid()
    ensures Wounded(s) && FirstEnemyWithin(ws, pid, s.pos, KITE_RANGE_SQ).Some? ==>
              var threat := FirstEnemyWithin(ws, pid, s.pos, KITE_RANGE_SQ).value;
              r == OrderMove(ws, s, Add(s.pos, Sub(s.pos, threat.pos)))
    ensures !(Wounded(s) && FirstEnemyWithin(ws, pid, s.pos, KITE_RANGE_SQ).Some?) && s.state != Attacking ==> r == s
    ensures !(Wounded(s) && FirstEnemyWithin(ws, pid, s.pos, KITE_RANGE_SQ).Some?) && s.state == Attacking ==>
              (Weakest(ws, pid, s).Some? && Weakest(ws, pid, s).value.id != s.targetId ==> r.targetId == Weakest(ws, pid, s).value.id)
              && (Weakest(ws, pid, s).None? || Weakest(ws, pid, s).value.id == s.targetId ==> r == s)
    ensures r.id == s.id && r.pos == s.pos && r.player == s.player
  {
    var threat := FirstEnemyWithin(ws, pid, s.pos, KITE_RANGE_SQ);
    if Wounded(s) && threat.Some? then OrderMove(ws, s, Add(s.pos, Sub(s.pos, threat.value.pos)))
    else if s.state != Attacking then s
    else match Weakest(ws, pid, s)
      case Some(w) => if w.id != s.targetId then OrderAttackUnit(ws, s, w) else s
      case None => s
  }

  /** The micro pass: each listed soldier takes its `MicroOne` turn
      against the world as it stood when the pass began. Only the listed
      soldiers change; with distinct IDs each ends as its turn leaves it. */
  function MicroAll(ws: World, pid: int, soldiers: seq<SimUnit>): (r: World)
    requires ws.mapData.Valid()
    ensures r == ws.(units := r.units) && |r.units| == |ws.units|
    ensures forall q :: q !in Ids(soldiers) ==> GetUnit(r, q) == GetUnit(ws, q)
    ensures DistinctUnitIds(soldiers) ==>
              forall s :: s in soldiers && GetUnit(ws, s.id) == Some(s) ==> GetUnit(r, s.id) == Some(MicroOne(ws, pid, s))
  {
    OrderAll(ws, soldiers, (s: SimUnit) => MicroOne(ws, pid, s))
  }

  /** `PerformCombatMicro`: each soldier of the player takes its micro
      turn; nothing else changes. With unique IDs each soldier of the
      player ends as `MicroOne` leaves it. */
  function PerformCombatMicro(ws: World, pid: int): (r: World)
    requires ws.mapData.Valid()
    ensures r == ws.(units := r.units) && |r.units| == |ws.units|
    ensures forall q :: q !in Ids(Select.Filter(ws.units, OwnUnitKind(pid, Soldier))) ==> GetUnit(r, q) == GetUnit(ws, q)
    ensures UniqueUnitIds(ws) ==>
              forall s :: s in ws.units && s.player == pid && s.kind == Soldier ==> GetUnit(r, s.id) == Some(MicroOne(ws, pid, s))
  {
    FilterStored(ws, OwnUnitKind(pid, Soldier));
    assert forall s :: s in ws.units && s.player == pid && s.kind == Soldier ==> OwnUnitKind(pid, Soldier)(s);
    MicroAll(ws, pid, Select.Filter(ws.units, OwnUnitKind(pid, Soldier)))
  }

  // ---------------------------------------------------------------------
  // Harass, assault and defence.

  function EnemyEco(pid: int): SimBuilding -> bool
  {
    (b: SimBuilding) => b.player != pid && b.kind != Base && b.kind != Tower
  }

  /** `PerformHarass`'s target: the first enemy worker, else the first enemy
      building that is neither base nor tower, else the first enemy unit,
      else the first enemy base; none means the map centre. */
  function HarassTarget(ws: World, pid: int): (t: Target)
    ensures Select.Any(ws.units, EnemyUnitKind(pid, Worker)) ==> t.AtUnit? && t.u.kind == Worker
    ensures t.AtUnit? ==> t.u in ws.units && t.u.player != pid
    ensures t.AtBuilding? ==> t.b in ws.buildings && t.b.player != pid
    ensures !Select.Any(ws.units, EnemyUnitKind(pid, Worker)) && Select.Any(ws.buildings, EnemyEco(pid)) ==>
              t.AtBuilding? && t.b.kind != Base && t.b.kind != Tower
    ensures t.NoTarget? <==> !Select.Any(ws.units, EnemyUnit(pid)) && !Select.Any(ws.buildings, EnemyEco(pid))
                             && !Select.Any(ws.buildings, EnemyKind(pid, Base))
  {
    match Select.FirstWhere(ws.units, EnemyUnitKind(pid, Worker))
    case Some(w) => AtUnit(w)
    case None =>
      match Select.FirstWhere(ws.buildings, EnemyEco(pid))
      case Some(b) => AtBuilding(b)
      case None =>
        match Select.FirstWhere(ws.units, EnemyUnit(pid))
        case Some(u) => AtUnit(u)
        case None =>
          match Select.FirstWhere(ws.buildings, EnemyKind(pid, Base))
          case Some(b) => AtBuilding(b)
          case None => NoTarget
  }

  /** `FindBestTarget` of the assault: the first enemy base, else the first
      enemy unit, else the first enemy building. */
  function AssaultTarget(ws: World, pid: int): (t: Target)
    ensures Select.Any(ws.buildings, EnemyKind(pid, Base)) ==> t.AtBuilding? && t.b.kind == Base
    ensures t.AtBuilding? ==> t.b in ws.buildings && t.b.player != pid
    ensures t.AtUnit? ==> t.u in ws.units && t.u.player != pid && !Select.Any(ws.buildings, EnemyKind(pid, Base))
    ensures t.NoTarget? <==> !Select.Any(ws.units, EnemyUnit(pid)) && !Select.Any(ws.buildings, EnemyBuilding(pid))
  {
    match Select.FirstWhere(ws.buildings, EnemyKind(pid, Base))
    case Some(b) => AtBuilding(b)
    case None =>
      match Select.FirstWhere(ws.units, EnemyUnit(pid))
      case Some(u) => AtUnit(u)
      case None =>
        match Select.FirstWhere(ws.buildings, EnemyBuilding(pid))
        case Some(b) => AtBuilding(b)
        case None =>
          assert !Select.Any(ws.buildings, EnemyBuilding(pid));
          NoTarget
  }

  /** The order an idle soldier gets from `SendIdle`: attack the target,
      or walk to the map centre without one. */
  function IdleOrder(cfg: Config, ws: World, s: SimUnit, t: Target): (r: SimUnit)
    requires ws.mapData.Valid()
    ensures r == s.(path := r.path, targetId := r.targetId, state := r.state)
    ensures t.NoTarget? ==> r.path == PathFinding.FindPath(ws, s.pos, Centre(cfg))
    ensures t.NoTarget? && |r.path| > 0 ==> r.state == Moving && r.targetId == -1 && r.path[|r.path| - 1] == Centre(cfg)
    ensures t.NoTarget? && |r.path| == 0 ==> r == s.(path := [])
    ensures !t.NoTarget? ==> r == Attack(ws, s, t)
  {
    if t.NoTarget? then OrderMove(ws, s, Centre(cfg)) else Attack(ws, s, t)
  }

  /** Idle soldiers attack a target, or walk to the centre without one.
      Only they change, and with unique IDs each ends as `IdleOrder`
      leaves it. */
  function SendIdle(cfg: Config, ws: World, pid: int, t: Target): (r: World)
    requires ws.mapData.Valid()
    ensures r == ws.(units := r.units) && |r.units| == |ws.units|
    ensures forall q :: q !in Ids(Select.Filter(ws.units, OwnIdle(pid, Soldier))) ==> GetUnit(r, q) == GetUnit(ws, q)
    ensures UniqueUnitIds(ws) ==>
              forall s :: s in ws.units && s.player == pid && s.kind == Soldier && s.state == Idle ==>
                GetUnit(r, s.id) == Some(IdleOrder(cfg, ws, s, t))
  {
    var squad := Select.Filter(ws.units, OwnIdle(pid, Soldier));
    FilterStored(ws, OwnIdle(pid, Soldier));
    assert forall s :: s in ws.units && s.player == pid && s.kind == Soldier && s.state == Idle ==> OwnIdle(pid, Soldier)(s);
    if t.NoTarget? then MarchAll(ws, squad, Centre(cfg)) else AttackAll(ws, squad, t)
  }

  /** `PerformHarass` and `PerformTotalAssault`: both order only the idle
      soldiers, at their own targets; with unique IDs each idle soldier of
      the player ends as `IdleOrder` on that target leaves it. */
  function PerformHarass(cfg: Config, ws: World, pid: int): (r: World)
    requires ws.mapData.Valid()
    ensures r == ws.(units := r.units) && |r.units| == |ws.units|
    ensures forall q :: q !in Ids(Select.Filter(ws.units, OwnIdle(pid, Soldier))) ==> GetUnit(r, q) == GetUnit(ws, q)
    ensures UniqueUnitIds(ws) ==>
              forall s :: s in ws.units && s.player == pid && s.kind == Soldier && s.state == Idle ==>
                GetUnit(r, s.id) == Some(IdleOrder(cfg, ws, s, HarassTarget(ws, pid)))
  {
    SendIdle(cfg, ws, pid, HarassTarget(ws, pid))
  }

  function PerformTotalAssault(cfg: Config, ws: World, pid: int): (r: World)
    requires ws.mapData.Valid()
    ensures r == ws.(units := r.units) && |r.units| == |ws.units|
    ensures forall q :: q !in Ids(Select.Filter(ws.units, OwnIdle(pid, Soldier))) ==> GetUnit(r, q) == GetUnit(ws, q)
    ensures UniqueUnitIds(ws) ==>
              forall s :: s in ws.units && s.player == pid && s.kind == Soldier && s.state == Idle ==>
                GetUnit(r, s.id) == Some(IdleOrder(cfg, ws, s, AssaultTarget(ws, pid)))
  {
    SendIdle(cfg, ws, pid, AssaultTarget(ws, pid))
  }

  /** `IsUnderAttack`: an enemy unit within ten cells (squared distance
      under 100) of the base; never without a base. */
  predicate IsUnderAttack(ws: World, pid: int)
  {
    BaseOf(ws, pid).Some? && Select.Any(ws.units, EnemyWithin(pid, BaseOf(ws, pid).value.pos, UNDER_ATTACK_SQ))
  }

  function OwnUnit(pid: int): SimUnit -> bool
  {
    (u: SimUnit) => u.player == pid
  }

  /** One unit of the rally: a unit already after the enemy is left alone;
      any other is sent after it, to the enemy's own cell. */
  function RallyOne(ws: World, u: SimUnit, enemy: SimUnit): (r: SimUnit)
    requires ws.mapData.Valid()
    ensures r == u.(path := r.path, targetId := r.targetId, state := r.state)
    ensures u.targetId == enemy.id ==> r == u
    ensures u.targetId != enemy.id ==>
              r.targetId == enemy.id && r.path == PathFinding.FindPath(ws, u.pos, enemy.pos) &&
              r.state == TaskOnArrival(r.path, Attacking)
  {
    if u.targetId != enemy.id then OrderAttackUnit(ws, u, enemy) else u
  }

  /** The rally loop: every listed unit is handled as `RallyOne` says,
      against the world as it stood when the loop began. Only the listed
      units change; when all of them already target the enemy nothing
      changes; with distinct IDs each ends as `RallyOne` leaves it. */
  function Rally(ws: World, units: seq<SimUnit>, enemy: SimUnit): (r: World)
    requires ws.mapData.Valid()
    ensures r == ws.(units := r.units) && |r.units| == |ws.units|
    ensures forall q :: q !in Ids(units) ==> GetUnit(r, q) == GetUnit(ws, q)
    ensures (forall i :: 0 <= i < |units| ==> units[i].targetId == enemy.id) ==> r == ws
    ensures DistinctUnitIds(units) ==>
              forall u :: u in units && GetUnit(ws, u.id) == Some(u) ==> GetUnit(r, u.id) == Some(RallyOne(ws, u, enemy))
  {
    OrderAll(ws, units, (u: SimUnit) => RallyOne(ws, u, enemy))
  }

  /** `PerformEmergencyDefense`: every unit of the player, workers too, that
      does not already target it attacks the enemy `FindNearestEnemyUnit`
      returns for fifteen cells around the base, the first within range in
      enumeration order; with no base or no such enemy nothing happens. */
  function PerformEmergencyDefense(ws: World, pid: int): (r: World)
    requires ws.mapData.Valid()
    ensures r == ws.(units := r.units) && |r.units| == |ws.units|
    ensures forall q :: q !in Ids(Select.Filter(ws.units, OwnUnit(pid))) ==> GetUnit(r, q) == GetUnit(ws, q)
    ensures BaseOf(ws, pid).None? ==> r == ws
    ensures BaseOf(ws, pid).Some? && !Select.Any(ws.units, EnemyWithin(pid, BaseOf(ws, pid).value.pos, DEFENCE_RANGE_SQ)) ==> r == ws
    ensures BaseOf(ws, pid).Some? && FirstEnemyWithin(ws, pid, BaseOf(ws, pid).value.pos, DEFENCE_RANGE_SQ).Some? ==>
              r == Rally(ws, Select.Filter(ws.units, OwnUnit(pid)),
                         FirstEnemyWithin(ws, pid, BaseOf(ws, pid).value.pos, DEFENCE_RANGE_SQ).value)
    ensures UniqueUnitIds(ws) && BaseOf(ws, pid).Some? &&
            FirstEnemyWithin(ws, pid, BaseOf(ws, pid).value.pos, DEFENCE_RANGE_SQ).Some? ==>
              forall u :: u in ws.units && u.player == pid ==>
                GetUnit(r, u.id) == Some(RallyOne(ws, u, FirstEnemyWithin(ws, pid, BaseOf(ws, pid).value.pos, DEFENCE_RANGE_SQ).value))
  {
    FilterStored(ws, OwnUnit(pid));
    assert forall u :: u in ws.units && u.player == pid ==> OwnUnit(pid)(u);
    match BaseOf(ws, pid)
    case None => ws
    case Some(b) =>
      match FirstEnemyWithin(ws, pid, b.pos, DEFENCE_RANGE_SQ)
      case None => ws
      case Some(enemy) => Rally(ws, Select.Filter(ws.units, OwnUnit(pid)), enemy)
  }

  /** An emergency defence within ten cells always finds an enemy within
      fifteen. */
  lemma DefenceFindsAttacker(ws: World, pid: int)
    requires IsUnderAttack(ws, pid)
    ensures FirstEnemyWithin(ws, pid, BaseOf(ws, pid).value.pos, DEFENCE_RANGE_SQ).Some?
  {
    var at := BaseOf(ws, pid).value.pos;
    var i :| 0 <= i < |ws.units| && EnemyWithin(pid, at, UNDER_ATTACK_SQ)(ws.units[i]);
    assert EnemyWithin(pid, at, DEFENCE_RANGE_SQ)(ws.units[i]);
  }

  // ---------------------------------------------------------------------
  // The mid-game.

  /** The army decision of the mid-game. */
  datatype ArmyMode = Assault | Harass | Muster

  function ArmyModeOf(soldiers: int): (m: ArmyMode)
    ensures m == Assault <==> soldiers >= ASSAULT_SOLDIERS
    ensures m == Harass <==> HARASS_SOLDIERS <= soldiers < ASSAULT_SOLDIERS
    ensures m == Muster <==> soldiers < HARASS_SOLDIERS
  {
    if soldiers >= ASSAULT_SOLDIERS then Assault else if soldiers >= HARASS_SOLDIERS then Harass else Muster
  }

  /** Three placement attempts' worth of random offsets. */
  predicate Tries(offsets: seq<Int2>)
  {
    |offsets| == PLACE_TRIES && OffsetsWithin(offsets, PLACE_RADIUS)
  }

  /** `ExecuteMidGameStrategy`: at the population cap only a house is tried
      (gathering for it when that fails); otherwise a worker under fifteen,
      a barracks under two, a soldier, the army decision by soldier count,
      and a tower when more than 600 wood is left after all that. */
  function MidGame(cfg: Config, ws: World, pid: int, me: SimPlayer, o1: seq<Int2>, o2: seq<Int2>): (r: World)
    requires ws.mapData.Valid()
    requires Tries(o1) && Tries(o2)
    ensures r.mapData.Valid()
    ensures me.curPop >= me.maxPop ==>
              r == AssignSmartGatherTasks(ws, pid, cfg.house) || BuiltOne(ws, r, pid, House, cfg.house)
    ensures me.curPop >= me.maxPop ==>
              (GetPlayer(r, pid) == GetPlayer(ws, pid)
               || (CanAfford(ws, pid, cfg.house) && GetPlayer(r, pid) == Some(Paid(GetPlayer(ws, pid).value, cfg.house))))
  {
    if me.curPop >= me.maxPop then
      var (ok, ws1) := TryBuildStructure(cfg, ws, pid, House, o1);
      if ok then ws1 else AssignSmartGatherTasks(ws, pid, cfg.house)
    else
      var ws1 := if Select.Count(ws.units, OwnUnitKind(pid, Worker)) < WORKER_TARGET
                 then TryTrainUnit(cfg, ws, pid, Worker) else ws;
      var ws2 := if Select.Count(ws1.buildings, OwnKind(pid, Barracks)) < BARRACKS_TARGET
                 then TryBuildStructure(cfg, ws1, pid, Barracks, o1).1 else ws1;
      var ws3 := TryTrainUnit(cfg, ws2, pid, Soldier);
      var ws4 := match ArmyModeOf(Select.Count(ws3.units, OwnUnitKind(pid, Soldier)))
                 case Assault => PerformTotalAssault(cfg, ws3, pid)
                 case Harass => PerformHarass(cfg, ws3, pid)
                 case Muster => AssignSmartGatherTasks(ws3, pid, cfg.SoldierCost());
      match GetPlayer(ws4, pid)
      case Some(p) => if p.wood > SPARE_WOOD then TryBuildStructure(cfg, ws4, pid, Tower, o2).1 else ws4
      case None => ws4
  }
  // ---------------------------------------------------------------------
  // One macro decision.

  /** The macro decision: an attack near the base is answered first and
      nothing else happens; otherwise the opening runs until it is over,
      then the mid-game. Without the player's record nothing happens. */
  function MacroDecision(cfg: Config, ws: World, pid: int, o: Opening, o1: seq<Int2>, o2: seq<Int2>): (r: (World, Opening))
    requires ws.mapData.Valid()
    requires Tries(o1) && Tries(o2)
    ensures IsUnderAttack(ws, pid) ==> r.1 == o && r.0 == ws.(units := r.0.units)
    ensures IsUnderAttack(ws, pid) ==>
              forall q :: q !in Ids(Select.Filter(ws.units, OwnUnit(pid))) ==> GetUnit(r.0, q) == GetUnit(ws, q)
    ensures GetPlayer(ws, pid).Some? && IsUnderAttack(ws, pid) ==>
              FirstEnemyWithin(ws, pid, BaseOf(ws, pid).value.pos, DEFENCE_RANGE_SQ).Some? &&
              r.0 == PerformEmergencyDefense(ws, pid)
    ensures GetPlayer(ws, pid).Some? && IsUnderAttack(ws, pid) && UniqueUnitIds(ws) ==>
              forall u :: u in ws.units && u.player == pid ==>
                GetUnit(r.0, u.id) == Some(RallyOne(ws, u, FirstEnemyWithin(ws, pid, BaseOf(ws, pid).value.pos, DEFENCE_RANGE_SQ).value))
    ensures OpeningSound(o) ==> OpeningSound(r.1)
    ensures o.step <= r.1.step <= o.step + 1
    ensures o.finished ==> r.1 == o
    ensures !o.finished && r.1.finished ==> r.0 == ws && o.step >= |BUILD_ORDER|
    ensures r.0.mapData.Valid()
  {
    if GetPlayer(ws, pid).None? then (ws, o)
    else if IsUnderAttack(ws, pid) then
      DefenceFindsAttacker(ws, pid);
      (PerformEmergencyDefense(ws, pid), o)
    else if !o.finished then
      match OpeningStep(ws, pid, o)
      case (Pursue(g), o') => (PursueGoal(cfg, ws, pid, g, o1), o')
      case (_, o') => (ws, o')
    else (MidGame(cfg, ws, pid, GetPlayer(ws, pid).value, o1, o2), o)
  }
}
