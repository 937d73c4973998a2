/** The global situation factor (`SimGameStateAnalyzer.CalculateGSF`): own
    attack and defence power against the enemy's, plus an inactivity
    bonus, an early-game tower penalty and a maturity bonus. The distance
    used for the enemy threat is not defined in the simulation's maths
    helpers; it is a parameter. */
module Gsf {
  import opened Wrappers
  import opened Types
  import opened World
  import opened Config
  import Select

  datatype Metrics = Metrics(myAttack: real, enemyAttack: real, myDefence: real, enemyDefence: real, gsf: real)

  function MySoldier(me: int): SimUnit -> bool
  {
    (u: SimUnit) => u.player == me && u.kind == Soldier
  }

  function EnemySoldier(me: int): SimUnit -> bool
  {
    (u: SimUnit) => u.player != me && u.kind == Soldier
  }

  function MyTower(me: int): SimBuilding -> bool
  {
    (b: SimBuilding) => b.player == me && b.kind == Tower
  }

  function ConstructedTowerOf(me: int, mine: bool): SimBuilding -> bool
  {
    (b: SimBuilding) => (b.player == me) == mine && b.kind == Tower && b.isConstructed
  }

  function BaseOf(me: int, mine: bool): SimBuilding -> bool
  {
    (b: SimBuilding) => (b.player == me) == mine && b.kind == Base
  }

  /** The threat of one enemy soldier at distance `d` from my base: 20,
      times ten within 15, times five within 30. */
  function Threat(d: real): (t: real)
    ensures t == 200.0 || t == 100.0 || t == 20.0
    ensures t == 200.0 <==> d < 15.0
    ensures t == 20.0 <==> d >= 30.0
  {
    var baseScore := 20.0;
    if d < 15.0 then baseScore * 10.0
    else if d < 30.0 then baseScore * 5.0
    else baseScore
  }

  /** Nearer soldiers never threaten less. */
  lemma ThreatMonotone(d: real, e: real)
    requires d <= e
    ensures Threat(d) >= Threat(e)
  {
  }

  /** The enemy attack power: the threats of the enemy soldiers summed over
      the roster. */
  function EnemyThreat(units: seq<SimUnit>, me: int, basePos: Int2, dist: (Int2, Int2) -> real): (t: real)
    ensures 20.0 * Select.Count(units, EnemySoldier(me)) as real <= t <= 200.0 * Select.Count(units, EnemySoldier(me)) as real
    ensures Select.Count(units, EnemySoldier(me)) == 0 ==> t == 0.0
  {
    if |units| == 0 then 0.0
    else
      var rest := EnemyThreat(units[1..], me, basePos, dist);
      var u := units[0];
      if u.player != me && u.kind == Soldier then Threat(dist(u.pos, basePos)) + rest else rest
  }

  /** Every enemy soldier within 15 of the base is worth the full 200. */
  lemma {:induction false} CloseThreatIsMaximal(units: seq<SimUnit>, me: int, basePos: Int2, dist: (Int2, Int2) -> real)
    requires forall i :: 0 <= i < |units| ==> dist(units[i].pos, basePos) < 15.0
    ensures EnemyThreat(units, me, basePos, dist) == 200.0 * Select.Count(units, EnemySoldier(me)) as real
  {
    if |units| > 0 {
      assert forall i :: 0 <= i < |units[1..]| ==> units[1..][i] == units[i + 1];
      CloseThreatIsMaximal(units[1..], me, basePos, dist);
    }
  }

  /** The inactivity bonus: half a point per unit of inactivity beyond 60,
      at most 150, and nothing up to 60. */
  function InactivityBonus(inactivity: real): (b: real)
    ensures 0.0 <= b <= 150.0
    ensures inactivity <= 60.0 ==> b == 0.0
    ensures inactivity > 60.0 && b < 150.0 ==> b == (inactivity - 60.0) * 0.5
  {
    if inactivity > 60.0 then
      var bonus := (inactivity - 60.0) * 0.5;
      if bonus > 150.0 then 150.0 else bonus
    else 0.0
  }

  /** The health of the first base the filter finds, 0 without one. */
  function BaseHealth(bs: seq<SimBuilding>, p: SimBuilding -> bool): (h: int)
    ensures Select.FirstWhere(bs, p).None? ==> h == 0
    ensures Select.FirstWhere(bs, p).Some? ==> h == Select.FirstWhere(bs, p).value.health
  {
    match Select.FirstWhere(bs, p)
    case None => 0
    case Some(b) => b.health
  }

  /** The player's total stock; 0 for a missing player. */
  function TotalResources(ws: World, me: int): (n: int)
    ensures GetPlayer(ws, me).None? ==> n == 0
  {
    match GetPlayer(ws, me)
    case None => 0
    case Some(p) => p.wood + p.stone + p.meat
  }

  /** `CalculateGSF`. My base position is that of my first Base, or the map
      centre without one. */
  function CalculateGSF(cfg: Config, ws: World, me: int, inactivity: real, minDefSteps: int, minTowers: int,
                        matSoldier: int, matRes: int, dist: (Int2, Int2) -> real): (m: Metrics)
    ensures m.myAttack == 10.0 * Select.Count(ws.units, MySoldier(me)) as real
    ensures m.enemyAttack == EnemyThreat(ws.units, me, BasePosition(cfg, ws, me), dist)
    ensures m.myDefence == 50.0 * Select.Count(ws.buildings, ConstructedTowerOf(me, true)) as real
                           + BaseHealth(ws.buildings, BaseOf(me, true)) as real * 0.1
    ensures m.enemyDefence == 50.0 * Select.Count(ws.buildings, ConstructedTowerOf(me, false)) as real
                              + BaseHealth(ws.buildings, BaseOf(me, false)) as real * 0.1
    ensures m.gsf == (m.myAttack + m.myDefence) - (m.enemyAttack + m.enemyDefence) + InactivityBonus(inactivity)
                     - (if EarlyPenalty(ws, me, minDefSteps, minTowers) then 1000.0 else 0.0)
                     + (if Mature(ws, me, matSoldier, matRes) then 1000.0 else 0.0)
  {
    var mapPower := 10.0 * Select.Count(ws.units, MySoldier(me)) as real;
    var eap := EnemyThreat(ws.units, me, BasePosition(cfg, ws, me), dist);
    var mdp := 50.0 * Select.Count(ws.buildings, ConstructedTowerOf(me, true)) as real
               + BaseHealth(ws.buildings, BaseOf(me, true)) as real * 0.1;
    var edp := 50.0 * Select.Count(ws.buildings, ConstructedTowerOf(me, false)) as real
               + BaseHealth(ws.buildings, BaseOf(me, false)) as real * 0.1;
    var g0 := (mapPower + mdp) - (eap + edp) + InactivityBonus(inactivity);
    var g1 := if EarlyPenalty(ws, me, minDefSteps, minTowers) then g0 - 1000.0 else g0;
    var g2 := if Mature(ws, me, matSoldier, matRes) then g1 + 1000.0 else g1;
    Metrics(mapPower, eap, mdp, edp, g2)
  }

  function BasePosition(cfg: Config, ws: World, me: int): (p: Int2)
    ensures Select.FirstWhere(ws.buildings, BaseOf(me, true)).None? ==> p == Int2(cfg.mapWidth / 2, cfg.mapHeight / 2)
  {
    match Select.FirstWhere(ws.buildings, BaseOf(me, true))
    case None => Int2(cfg.mapWidth / 2, cfg.mapHeight / 2)
    case Some(b) => b.pos
  }

  /** The early-game constraint: before `minDefSteps` ticks with fewer than
      `minTowers` towers, built or not. */
  predicate EarlyPenalty(ws: World, me: int, minDefSteps: int, minTowers: int)
  {
    ws.tick < minDefSteps && Select.Count(ws.buildings, MyTower(me)) < minTowers
  }

  /** The maturity trigger: enough soldiers or enough stock. */
  predicate Mature(ws: World, me: int, matSoldier: int, matRes: int)
  {
    Select.Count(ws.units, MySoldier(me)) >= matSoldier || TotalResources(ws, me) >= matRes
  }

  /** More inactivity never lowers the factor. */
  lemma GsfMonotoneInInactivity(cfg: Config, ws: World, me: int, t1: real, t2: real, minDefSteps: int, minTowers: int,
                                matSoldier: int, matRes: int, dist: (Int2, Int2) -> real)
    requires t1 <= t2
    ensures CalculateGSF(cfg, ws, me, t1, minDefSteps, minTowers, matSoldier, matRes, dist).gsf
            <= CalculateGSF(cfg, ws, me, t2, minDefSteps, minTowers, matSoldier, matRes, dist).gsf
  {
    assert InactivityBonus(t1) <= InactivityBonus(t2);
  }
}
