/** The specialised commander (`SpecializedMacroAI`): its throttle, its
    strategic metrics, the decoding of its fourteen genes into targets,
    the priority order of its three task blocks, the balanced choice of
    economy buildings, the gather choice of its default worker manager and
    its build-spot search and build order. The scripted static behaviours
    are not modelled. */
module Specialized {
  import opened Wrappers
  import opened Types
  import opened World
  import opened Config
  import opened SimMath
  import opened Resources
  import opened Grid
  import opened Gsf
  import opened Pace
  import opened Spots
  import opened Crew
  import Select

  // ---------------------------------------------------------------------
  // Throttle.

  datatype Behaviour = Wait | StaticBehaviour | ParametricBehaviour

  /** `Update`: nothing until a quarter second has accumulated; then the
      clock restarts and the static behaviour runs without genes, the
      parametric one with them. */
  function Update(timer: real, dt: real, genes: Option<seq<real>>): (r: (Behaviour, real))
    ensures r.1 == Throttle(timer, dt, 0.25).1
    ensures r.0 == Wait <==> timer + dt < 0.25
    ensures r.0 == StaticBehaviour <==> timer + dt >= 0.25 && genes.None?
    ensures r.0 == ParametricBehaviour <==> timer + dt >= 0.25 && genes.Some?
  {
    var (act, t) := Throttle(timer, dt, 0.25);
    if !act then (Wait, t)
    else if genes.None? then (StaticBehaviour, t)
    else (ParametricBehaviour, t)
  }

  // ---------------------------------------------------------------------
  // Strategic metrics.

  function EnemyUnitSoldier(me: int): SimUnit -> bool
  {
    (u: SimUnit) => u.player != me && u.kind == Soldier
  }

  /** `UpdateStrategicMetrics`: ten per soldier on either side, fifty per
      finished tower plus a tenth of the first base's health. */
  function StrategicMetrics(ws: World, me: int): (m: Metrics)
    ensures m.myAttack == 10.0 * Select.Count(ws.units, MySoldier(me)) as real
    ensures m.enemyAttack == 10.0 * Select.Count(ws.units, EnemySoldier(me)) as real
    ensures m.gsf == (m.myAttack + m.myDefence) - (m.enemyAttack + m.enemyDefence)
  {
    var mine := 10.0 * Select.Count(ws.units, MySoldier(me)) as real;
    var eap := 10.0 * Select.Count(ws.units, EnemySoldier(me)) as real;
    var mdp := 50.0 * Select.Count(ws.buildings, ConstructedTowerOf(me, true)) as real
               + BaseHealth(ws.buildings, BaseOf(me, true)) as real * 0.1;
    var edp := 50.0 * Select.Count(ws.buildings, ConstructedTowerOf(me, false)) as real
               + BaseHealth(ws.buildings, BaseOf(me, false)) as real * 0.1;
    Metrics(mine, eap, mdp, edp, (mine + mdp) - (eap + edp))
  }

  /** The commander's metrics and the analyzer's agree on own attack and
      on both defences; it rates each enemy soldier 10 where the analyzer
      rates it at least 20, so its factor is never below the analyzer's
      before the analyzer's bonus and adjustments. */
  lemma MetricsAgainstAnalyzer(cfg: Config, ws: World, me: int, inactivity: real, minDefSteps: int, minTowers: int,
                               matSoldier: int, matRes: int, dist: (Int2, Int2) -> real)
    ensures var s := StrategicMetrics(ws, me);
            var a := CalculateGSF(cfg, ws, me, inactivity, minDefSteps, minTowers, matSoldier, matRes, dist);
            && s.myAttack == a.myAttack && s.myDefence == a.myDefence && s.enemyDefence == a.enemyDefence
            && 2.0 * s.enemyAttack <= a.enemyAttack
            && s.gsf >= (a.myAttack + a.myDefence) - (a.enemyAttack + a.enemyDefence)
  {
  }

  // ---------------------------------------------------------------------
  // Gene decoding.

  datatype Plan = Plan(targetWorker: int, targetSoldier: int, attackThreshold: int, defenseRatio: real,
                       targetBarracks: int, ecoBias: real, targetFarm: int, targetWood: int, targetStone: int,
                       houseBuffer: int, towerPosBias: real, prioEco: real, prioDef: real, prioMil: real)

  const GENE_COUNT: nat := 14

  /** The parametric behaviour's reading of the genes. */
  function DecodeGenes(g: seq<real>): (p: Plan)
    requires |g| >= GENE_COUNT
    ensures 5 <= p.targetWorker <= 80 && 0 <= p.targetSoldier <= 100 && 1 <= p.attackThreshold <= 60
    ensures 0 <= p.targetBarracks <= 8 && 1 <= p.houseBuffer <= 10
    ensures 0.0 <= p.defenseRatio <= 1.0 && 0.0 <= p.ecoBias <= 1.0 && 0.0 <= p.towerPosBias <= 1.0
    ensures p.prioEco == g[11] && p.prioDef == g[12] && p.prioMil == g[13]
  {
    Plan(ClampInt(RoundToInt(g[0] * 1.5), 5, 80),
         ClampInt(RoundToInt(g[1] * 2.0), 0, 100),
         ClampInt(RoundToInt(g[2]), 1, 60),
         Clamp01(g[3] / 20.0),
         ClampInt(RoundToInt(g[4] / 5.0), 0, 8),
         Clamp01(g[5] / 40.0),
         RoundToInt(g[6]), RoundToInt(g[7]), RoundToInt(g[8]),
         ClampInt(RoundToInt(g[9] / 4.0), 1, 10),
         Clamp01(g[10] / 40.0),
         g[11], g[12], g[13])
  }

  /** Inside the clamp ranges a gene reads as its scaled, rounded value,
      and a larger gene never reads as a smaller target. */
  lemma DecodeFaithful(g: seq<real>, h: seq<real>)
    requires |g| >= GENE_COUNT && |h| >= GENE_COUNT
    requires forall i :: 0 <= i < 11 ==> g[i] <= h[i]
    ensures 5 <= RoundToInt(g[0] * 1.5) <= 80 ==> DecodeGenes(g).targetWorker == RoundToInt(g[0] * 1.5)
    ensures 0.0 <= g[3] <= 20.0 ==> DecodeGenes(g).defenseRatio == g[3] / 20.0
    ensures DecodeGenes(g).targetWorker <= DecodeGenes(h).targetWorker
    ensures DecodeGenes(g).targetSoldier <= DecodeGenes(h).targetSoldier
    ensures DecodeGenes(g).attackThreshold <= DecodeGenes(h).attackThreshold
    ensures DecodeGenes(g).targetBarracks <= DecodeGenes(h).targetBarracks
    ensures DecodeGenes(g).houseBuffer <= DecodeGenes(h).houseBuffer
  {
    RoundMonotone(g[0] * 1.5, h[0] * 1.5, 0);
    RoundMonotone(g[1] * 2.0, h[1] * 2.0, 0);
    RoundMonotone(g[2], h[2], 0);
    RoundMonotone(g[4] / 5.0, h[4] / 5.0, 0);
    RoundMonotone(g[9] / 4.0, h[9] / 4.0, 0);
    ClampIdempotentMonotone(RoundToInt(g[0] * 1.5), RoundToInt(h[0] * 1.5), 5, 80);
    ClampIdempotentMonotone(RoundToInt(g[1] * 2.0), RoundToInt(h[1] * 2.0), 0, 100);
    ClampIdempotentMonotone(RoundToInt(g[2]), RoundToInt(h[2]), 1, 60);
    ClampIdempotentMonotone(RoundToInt(g[4] / 5.0), RoundToInt(h[4] / 5.0), 0, 8);
    ClampIdempotentMonotone(RoundToInt(g[9] / 4.0), RoundToInt(h[9] / 4.0), 1, 10);
  }

  // ---------------------------------------------------------------------
  // Task priorities.

  /** Task blocks: 0 economy, 1 military, 2 defence, listed in that order. */
  function Score(prioEco: real, prioMil: real, prioDef: real): nat -> real
  {
    (i: nat) => if i == 0 then prioEco else if i == 1 then prioMil else prioDef
  }

  /** `a` runs before `b` under a stable descending sort: a higher score,
      or an equal score and an earlier place in the list. */
  predicate Before(score: nat -> real, a: nat, b: nat)
  {
    score(a) > score(b) || (score(a) == score(b) && a < b)
  }

  predicate InOrder(score: nat -> real, s: seq<nat>)
  {
    forall k :: 0 <= k < |s| - 1 ==> Before(score, s[k], s[k + 1])
  }

  /** Insertion into a list kept in stable descending order. */
  function Insert(score: nat -> real, x: nat, s: seq<nat>): (r: seq<nat>)
    requires InOrder(score, s) && x !in s
    ensures InOrder(score, r) && multiset(r) == multiset(s) + multiset{x} && |r| == |s| + 1
    ensures |r| > 0 && (r[0] == x || (|s| > 0 && r[0] == s[0]))
  {
    if |s| == 0 then [x]
    else if Before(score, x, s[0]) then [x] + s
    else
      var t := Insert(score, x, s[1..]);
      assert s == [s[0]] + s[1..];
      [s[0]] + t
  }

  /** `OrderByDescending(score)` of the list (economy, military, defence):
      a permutation of the three blocks in which every block comes before
      the next by score, ties keeping the list order. */
  function TaskOrder(prioEco: real, prioMil: real, prioDef: real): (r: seq<nat>)
    ensures |r| == 3 && multiset(r) == multiset{0, 1, 2}
    ensures InOrder(Score(prioEco, prioMil, prioDef), r)
  {
    var score := Score(prioEco, prioMil, prioDef);
    var r1 := Insert(score, 1, [0]);
    assert 2 !in r1 by {
      assert multiset(r1) == multiset{0, 1};
      assert 2 !in multiset(r1);
    }
    Insert(score, 2, r1)
  }

  /** Equal priorities run the blocks in list order, and a strictly highest
      priority runs its block first. */
  lemma TaskOrderTies(e: real, m: real, d: real)
    ensures e == m == d ==> TaskOrder(e, m, d) == [0, 1, 2]
    ensures d > e && d > m ==> TaskOrder(e, m, d)[0] == 2
    ensures e >= m && e >= d ==> TaskOrder(e, m, d)[0] == 0
  {
    var r := TaskOrder(e, m, d);
    assert r[0] in multiset(r) && r[1] in multiset(r) && r[2] in multiset(r);
    assert forall i :: 0 <= i < 3 ==> r[i] in multiset{0, 1, 2};
  }

  /** The loop over the sorted blocks: each block is invoked in turn and
      the loop stops after the first that asks to block. `blocks(i)` is
      block `i`'s answer when its turn comes. */
  function RunTasks(order: seq<nat>, blocks: nat -> bool): (ran: seq<nat>)
    ensures |ran| <= |order| && ran == order[..|ran|]
    ensures forall k :: 0 <= k < |ran| - 1 ==> !blocks(ran[k])
    ensures |ran| < |order| ==> |ran| > 0 && blocks(ran[|ran| - 1])
    ensures |order| > 0 ==> |ran| > 0
  {
    if |order| == 0 then []
    else if blocks(order[0]) then [order[0]]
    else
      var rest := RunTasks(order[1..], blocks);
      [order[0]] + rest
  }

  // ---------------------------------------------------------------------
  // Economy buildings.

  /** `TryBuildEcoStructuresBalanced`'s choice: among the types below
      target, the one with fewest buildings, ties going Farm, WoodCutter,
      StonePit; none when every type has reached its target. */
  function EcoChoice(farm: int, wood: int, stone: int, tFarm: int, tWood: int, tStone: int): (r: Option<BuildingType>)
    ensures r.None? <==> farm >= tFarm && wood >= tWood && stone >= tStone
    ensures r == Some(Farm) ==> farm < tFarm && (wood < tWood ==> farm <= wood) && (stone < tStone ==> farm <= stone)
    ensures r == Some(WoodCutter) ==> wood < tWood && (farm < tFarm ==> wood < farm) && (stone < tStone ==> wood <= stone)
    ensures r == Some(StonePit) ==> stone < tStone && (farm < tFarm ==> stone < farm) && (wood < tWood ==> stone < wood)
    ensures r.Some? ==> r.value in {Farm, WoodCutter, StonePit}
  {
    var deficits := (if farm < tFarm then [(Farm, farm)] else [])
                    + (if wood < tWood then [(WoodCutter, wood)] else [])
                    + (if stone < tStone then [(StonePit, stone)] else []);
    var nf := if farm < tFarm then 1 else 0;
    var nw := nf + if wood < tWood then 1 else 0;
    assert |deficits| == nw + if stone < tStone then 1 else 0;
    assert farm < tFarm ==> deficits[0] == (Farm, farm);
    assert wood < tWood ==> deficits[nf] == (WoodCutter, wood);
    assert stone < tStone ==> deficits[nw] == (StonePit, stone);
    match Select.NearestFirst(deficits, AnyEntry, EntryCount)
    case None => None
    case Some(i) => Some(deficits[i].0)
  }

  function AnyEntry(e: (BuildingType, int)): bool { true }

  function EntryCount(e: (BuildingType, int)): int { e.1 }

  // ---------------------------------------------------------------------
  // Default gathering.

  /** `ManageWorkersDefault`'s type: meat below 60 first; otherwise the
      least stocked of Wood, Meat, Stone, ties in that order. */
  function DefaultGatherType(p: SimPlayer): (t: ResourceType)
    ensures p.meat < 60 ==> t == Meat
    ensures p.meat >= 60 ==> t in {Wood, Meat, Stone}
                             && Stock(p, t) <= p.wood && Stock(p, t) <= p.meat && Stock(p, t) <= p.stone
    ensures p.meat >= 60 && t == Meat ==> p.wood > p.meat
    ensures p.meat >= 60 && t == Stone ==> p.wood > p.stone && p.meat > p.stone
  {
    if p.meat < 60 then Meat
    else if p.wood <= p.meat && p.wood <= p.stone then Wood
    else if p.meat <= p.wood && p.meat <= p.stone then Meat
    else Stone
  }

  // ---------------------------------------------------------------------
  // Build spots and build orders.

  /** `IsPosValid`: two cells clear of the map edge and walkable. */
  predicate IsPosValid(cfg: Config, ws: World, p: Int2)
    requires ws.mapData.Valid()
  {
    !(p.x <= 1 || p.x >= cfg.mapWidth - 1 || p.y <= 1 || p.y >= cfg.mapHeight - 1) && IsWalkable(ws, p)
  }

  /** `IsSafeFromEnemies`: no cell to avoid within squared distance 100. */
  predicate IsSafe(p: Int2, avoid: seq<Int2>)
  {
    forall i :: 0 <= i < |avoid| ==> DistSq(p, avoid[i]) >= 100
  }

  /** `IsTooCloseToBuildings`: some building within squared distance 2.5. */
  predicate IsTooClose(ws: World, p: Int2)
  {
    exists i :: 0 <= i < |ws.buildings| && (DistSq(p, ws.buildings[i].pos) as real) < 2.5
  }

  /** A first-stage candidate. */
  predicate Ideal(cfg: Config, ws: World, avoid: seq<Int2>, p: Int2)
    requires ws.mapData.Valid()
  {
    IsPosValid(cfg, ws, p) && IsSafe(p, avoid) && !IsTooClose(ws, p)
  }

  /** The first stage: the first ring from `r` to `hi` holding an ideal
      cell, and the cell of its candidate list the draw `pick` indexes. */
  function IdealSpot(cfg: Config, ws: World, c: Int2, r: nat, hi: int, avoid: seq<Int2>, gate: bool, pick: nat): (s: Option<Int2>)
    requires ws.mapData.Valid()
    ensures s.Some? ==> s.value in Rings(c, r, hi, gate) && Ideal(cfg, ws, avoid, s.value)
    decreases hi - r
  {
    if r > hi then None
    else
      var candidates := Select.Filter(Ring(c, r, gate), (p: Int2) => Ideal(cfg, ws, avoid, p));
      if |candidates| > 0 then
        var p := candidates[pick % |candidates|];
        assert p in candidates;
        Some(p)
      else IdealSpot(cfg, ws, c, r + 1, hi, avoid, gate, pick)
  }

  /** `FindBuildSpot`: an ideal cell on rings `lo` to `hi` if there is one,
      else the first valid cell on rings `lo` to `hi + 5`; none only when
      no cell on those rings is valid. Gate cells are never used. */
  function FindBuildSpot(cfg: Config, ws: World, c: Int2, lo: nat, hi: int, avoid: seq<Int2>, gate: bool, pick: nat): (s: Option<Int2>)
    requires ws.mapData.Valid()
    ensures s.None? <==> forall p :: p in Rings(c, lo, hi + 5, gate) ==> !IsPosValid(cfg, ws, p)
    ensures s.Some? ==> IsPosValid(cfg, ws, s.value)
    ensures s.Some? ==> lo <= Chebyshev(s.value, c) <= hi + 5
    ensures s.Some? && gate ==> !InGate(s.value, c, Chebyshev(s.value, c))
  {
    match IdealSpot(cfg, ws, c, lo, hi, avoid, gate, pick)
    case Some(p) => Some(p)
    case None => FirstAccepted(Rings(c, lo, hi + 5, gate), (p: Int2) => IsPosValid(cfg, ws, p))
  }

  function OwnedBuilding(pid: int): SimBuilding -> bool
  {
    (b: SimBuilding) => b.player == pid
  }

  function EnemyTower(pid: int): SimBuilding -> bool
  {
    (b: SimBuilding) => b.player != pid && b.kind == Tower
  }

  function PositionOf(b: SimBuilding): Int2 { b.pos }

  /** The worker of a build order: the only unit of a one-unit list, else
      the available worker. */
  function BuildWorker(units: seq<SimUnit>): (w: Option<SimUnit>)
    ensures |units| == 1 ==> w == Some(units[0])
    ensures |units| != 1 ==> w == GetAvailableWorker(units)
  {
    if |units| == 0 then None
    else if |units| == 1 then Some(units[0])
    else GetAvailableWorker(units)
  }

  /** The search radii of a build order: a strict radius and four more;
      6 to 14 for towers; otherwise from 4 plus 2 per five own buildings,
      ten rings wide. */
  function Radii(ws: World, pid: int, kind: BuildingType, strictRadius: int): (r: (nat, int))
    ensures strictRadius > 0 ==> r == (strictRadius, strictRadius + 4)
    ensures strictRadius <= 0 && kind == Tower ==> r == (6, 14)
    ensures strictRadius <= 0 && kind != Tower ==>
              r.0 == 4 + (Select.Count(ws.buildings, OwnedBuilding(pid)) / 5) * 2 && r.1 == r.0 + 10
  {
    if strictRadius > 0 then (strictRadius, strictRadius + 4)
    else if kind == Tower then (6, 14)
    else
      var n := Select.Count(ws.buildings, OwnedBuilding(pid));
      var lo := 4 + (n / 5) * 2;
      (lo, lo + 10)
  }

  /** The cells a barracks keeps away from: the enemy towers. */
  function AvoidList(ws: World, pid: int, kind: BuildingType): (a: seq<Int2>)
    ensures kind != Barracks ==> a == []
    ensures kind == Barracks ==> forall p :: p in a <==> exists b :: b in ws.buildings && EnemyTower(pid)(b) && b.pos == p
  {
    if kind != Barracks then []
    else
      var towers := Select.Filter(ws.buildings, EnemyTower(pid));
      var a := seq(|towers|, i requires 0 <= i < |towers| => towers[i].pos);
      forall p ensures p in a <==> exists b :: b in ws.buildings && EnemyTower(pid)(b) && b.pos == p {
        if p in a {
          var i :| 0 <= i < |a| && a[i] == p;
          assert towers[i] in towers;
        }
        if exists b :: b in ws.buildings && EnemyTower(pid)(b) && b.pos == p {
          var b :| b in ws.buildings && EnemyTower(pid)(b) && b.pos == p;
          assert b in towers;
          var i :| 0 <= i < |towers| && towers[i] == b;
          assert a[i] == p;
        }
      }
      a
  }

  /** `TryBuildBuilding`: with the price affordable, a worker and a spot,
      the price is paid and an unfinished building of the type placed on
      a valid cell within the searched rings; otherwise nothing changes. */
  function TryBuildBuilding(cfg: Config, ws: World, pid: int, kind: BuildingType, units: seq<SimUnit>, center: Int2,
                            cost: Cost, strictRadius: int, gate: bool, pick: nat): (r: (bool, World))
    requires ws.mapData.Valid()
    ensures !r.0 ==> r.1 == ws
    ensures r.0 <==> CanAfford(ws, pid, cost) && BuildWorker(units).Some?
                     && FindBuildSpot(cfg, ws, center, Radii(ws, pid, kind, strictRadius).0, Radii(ws, pid, kind, strictRadius).1,
                                      AvoidList(ws, pid, kind), gate, pick).Some?
    ensures r.0 ==> GetPlayer(r.1, pid) == Some(Paid(GetPlayer(ws, pid).value, cost))
    ensures r.0 ==> |r.1.buildings| == |ws.buildings| + 1 && r.1.buildings[..|ws.buildings|] == ws.buildings
    ensures r.0 ==> var b := r.1.buildings[|ws.buildings|];
                    b.kind == kind && b.player == pid && !b.isConstructed && IsPosValid(cfg, ws, b.pos)
  {
    if !CanAfford(ws, pid, cost) then (false, ws)
    else match BuildWorker(units)
      case None => (false, ws)
      case Some(worker) =>
        var (lo, hi) := Radii(ws, pid, kind, strictRadius);
        match FindBuildSpot(cfg, ws, center, lo, hi, AvoidList(ws, pid, kind), gate, pick)
        case None => (false, ws)
        case Some(pos) => (true, BuildAt(ws, pid, worker, kind, pos, cost))
  }

  function OwnKind(pid: int, kind: BuildingType): SimBuilding -> bool
  {
    (b: SimBuilding) => b.player == pid && b.kind == kind
  }

  /** The price of an economy building. */
  function EcoCost(cfg: Config, kind: BuildingType): Cost
  {
    match kind
    case Farm => cfg.farm
    case WoodCutter => cfg.woodCutter
    case _ => cfg.stonePit
  }

  /** `TryBuildEcoStructuresBalanced`: no attempt when every economy type
      has reached its target; otherwise a build order for the balanced
      choice at its own price, around the base. */
  function EcoBuild(cfg: Config, ws: World, pid: int, tFarm: int, tWood: int, tStone: int,
                    units: seq<SimUnit>, basePos: Int2, pick: nat): (r: (bool, World))
    requires ws.mapData.Valid()
    ensures !r.0 ==> r.1 == ws
    ensures var choice := EcoChoice(Select.Count(ws.buildings, OwnKind(pid, Farm)),
                                    Select.Count(ws.buildings, OwnKind(pid, WoodCutter)),
                                    Select.Count(ws.buildings, OwnKind(pid, StonePit)), tFarm, tWood, tStone);
            r.0 ==> choice.Some? && GetPlayer(ws, pid).Some? && GetPlayer(r.1, pid) == Some(Paid(GetPlayer(ws, pid).value, EcoCost(cfg, choice.value)))
                    && |r.1.buildings| == |ws.buildings| + 1 && r.1.buildings[|ws.buildings|].kind == choice.value
  {
    var choice := EcoChoice(Select.Count(ws.buildings, OwnKind(pid, Farm)),
                            Select.Count(ws.buildings, OwnKind(pid, WoodCutter)),
                            Select.Count(ws.buildings, OwnKind(pid, StonePit)), tFarm, tWood, tStone);
    match choice
    case None => (false, ws)
    case Some(kind) => TryBuildBuilding(cfg, ws, pid, kind, units, basePos, EcoCost(cfg, kind), -1, false, pick)
  }

  /** The defence block's tower centre: halfway to the enemy base (each
      coordinate sum halved toward zero) when the bias is above one half
      and an enemy base exists, else the own base position. */
  function TowerCentre(basePos: Int2, enemyBase: Option<SimBuilding>, towerPosBias: real): (p: Int2)
    ensures towerPosBias <= 0.5 || enemyBase.None? ==> p == basePos
    ensures towerPosBias > 0.5 && enemyBase.Some? && basePos.x + enemyBase.value.pos.x >= 0 ==>
              p.x == (basePos.x + enemyBase.value.pos.x) / 2
  {
    if towerPosBias > 0.5 && enemyBase.Some? then
      Int2(Quot(basePos.x + enemyBase.value.pos.x, 2), Quot(basePos.y + enemyBase.value.pos.y, 2))
    else basePos
  }

  /** The defence block's tower quota: one plus a share of the soldiers,
      seven when the defence priority is above 30. */
  function NeededTowers(soldiers: nat, defenseRatio: real, prioDef: real): (n: int)
    requires 0.0 <= defenseRatio <= 1.0
    ensures prioDef > 30.0 ==> n == 7
    ensures prioDef <= 30.0 ==> 1 <= n <= 1 + soldiers
  {
    if prioDef > 30.0 then 7
    else
      MulNonNegBelow(soldiers, defenseRatio);
      1 + FloorToInt(soldiers as real * defenseRatio)
  }

  lemma MulNonNegBelow(n: nat, f: real)
    requires 0.0 <= f <= 1.0
    ensures 0.0 <= n as real * f <= n as real
  {
    assert n as real * (1.0 - f) >= 0.0;
  }
}
