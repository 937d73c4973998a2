/** The PSO training manager's match and fitness logic: which stance the
    scripted opponent takes, how enemy losses are counted during a match,
    when a match ends, and the fitness each training goal assigns to the
    match's statistics.

    A match is a loop of simulation ticks. The simulation update and both
    AIs' moves between two ticks are modelled in their own modules; here
    `worldAt(t)` is the world as it stands at the end of tick `t`'s
    updates, and `timeUp(t)` is the real-time safety timer's verdict at
    the start of tick `t`. `BASE_MAX_HEALTH` is not defined in the
    configuration file, so it is the parameter `baseMax`. */
module PsoManager {
  import opened Types
  import opened World
  import opened Census
  import Select

  /** The training goals of the specialised AI. */
  datatype Goal = Economic | Defensive | Aggressive | General

  // ---------------------------------------------------------------------
  // The opponent.

  /** `GetEnemyStrategy`: a defender trains against an attacker and an
      attacker against a defender; the other goals meet their own kind. */
  function EnemyStrategy(goal: Goal): (e: Goal)
    ensures goal == Defensive <==> e == Aggressive
    ensures goal == Aggressive <==> e == Defensive
    ensures goal == Economic || goal == General ==> e == goal
  {
    match goal
    case Defensive => Aggressive
    case Aggressive => Defensive
    case Economic => Economic
    case General => General
  }

  /** The opponent's opponent is the goal itself. */
  lemma EnemyStrategyInvolution(goal: Goal)
    ensures EnemyStrategy(EnemyStrategy(goal)) == goal
  {
  }

  // ---------------------------------------------------------------------
  // Enemy losses.

  /** The IDs the manager remembered at the previous tick, and the losses
      counted so far. */
  datatype Losses = Losses(knownUnits: set<int>, knownBuildings: set<int>, killed: nat, destroyed: nat)

  function NoLosses(): (l: Losses)
    ensures l.killed == 0 && l.destroyed == 0 && l.knownUnits == {} && l.knownBuildings == {}
  {
    Losses({}, {}, 0, 0)
  }

  /** The IDs of player 2's units, whatever their state. */
  function EnemyUnitIds(ws: World): set<int>
  {
    set u | u in ws.units && u.player == 2 :: u.id
  }

  /** The IDs of player 2's buildings other than its Base. */
  function EnemyBuildingIds(ws: World): set<int>
  {
    set b | b in ws.buildings && b.player == 2 && b.kind != Base :: b.id
  }

  /** One tick of loss counting: every remembered enemy unit (building)
      whose ID is no longer present counts as killed (destroyed), and the
      remembered IDs are replaced by the present ones. */
  function TrackLosses(ws: World, l: Losses): (l': Losses)
    ensures l'.knownUnits == EnemyUnitIds(ws) && l'.knownBuildings == EnemyBuildingIds(ws)
    ensures l'.killed == l.killed + |l.knownUnits - EnemyUnitIds(ws)|
    ensures l'.destroyed == l.destroyed + |l.knownBuildings - EnemyBuildingIds(ws)|
    ensures l'.killed >= l.killed && l'.destroyed >= l.destroyed
    ensures l'.killed == l.killed <==> l.knownUnits <= EnemyUnitIds(ws)
    ensures l'.destroyed == l.destroyed <==> l.knownBuildings <= EnemyBuildingIds(ws)
    ensures l'.killed <= l.killed + |l.knownUnits|
  {
    var units := EnemyUnitIds(ws);
    var buildings := EnemyBuildingIds(ws);
    EmptyDifference(l.knownUnits, units);
    EmptyDifference(l.knownBuildings, buildings);
    Losses(units, buildings, l.killed + |l.knownUnits - units|, l.destroyed + |l.knownBuildings - buildings|)
  }

  lemma EmptyDifference(a: set<int>, b: set<int>)
    ensures a <= b <==> a - b == {}
  {
    if a - b == {} {
      forall x | x in a
        ensures x in b
      {
        assert x !in a - b;
      }
    }
  }

  /** Losing the Base never counts as a destroyed building: a world that
      differs only in player 2's Base records gives the same count. */
  lemma BaseNotCountedAsDestroyed(ws: World, ws': World, l: Losses)
    requires forall b :: b in ws'.buildings && !IsBaseOf(b, 2) ==> b in ws.buildings
    requires forall b :: b in ws.buildings && !IsBaseOf(b, 2) ==> b in ws'.buildings
    ensures TrackLosses(ws', l).destroyed == TrackLosses(ws, l).destroyed
  {
    assert EnemyBuildingIds(ws') == EnemyBuildingIds(ws);
  }

  // ---------------------------------------------------------------------
  // The match loop.

  datatype Outcome = Outcome(ticks: nat, win: bool, gameOver: bool, losses: Losses)

  /** The loop of `SimulateGame` from tick `tick` on. A tick whose safety
      timer has run out ends the match where it stands. Otherwise the
      losses are counted and, except for the Economic goal, a missing
      enemy Base wins and, failing that, a missing own Base loses; both
      stop the loop before the tick counter moves. */
  function Play(goal: Goal, worldAt: nat -> World, timeUp: nat -> bool, maxTicks: nat, tick: nat, l: Losses): (o: Outcome)
    requires tick <= maxTicks
    ensures tick <= o.ticks <= maxTicks
    ensures o.losses.killed >= l.killed && o.losses.destroyed >= l.destroyed
    ensures o.win ==> o.gameOver
    ensures !o.gameOver ==> o.ticks == maxTicks || timeUp(o.ticks)
    ensures o.gameOver ==> goal != Economic && o.ticks < maxTicks
    ensures o.win ==> !HasBase(worldAt(o.ticks), 2)
    ensures o.gameOver && !o.win ==> HasBase(worldAt(o.ticks), 2) && !HasBase(worldAt(o.ticks), 1)
    decreases maxTicks - tick
  {
    if tick == maxTicks || timeUp(tick) then Outcome(tick, false, false, l)
    else
      var ws := worldAt(tick);
      var l' := TrackLosses(ws, l);
      if goal != Economic && !HasBase(ws, 2) then Outcome(tick, true, true, l')
      else if goal != Economic && !HasBase(ws, 1) then Outcome(tick, false, true, l')
      else Play(goal, worldAt, timeUp, maxTicks, tick + 1, l')
  }

  /** A whole match from tick 0 with nothing remembered. */
  function SimulateMatch(goal: Goal, worldAt: nat -> World, timeUp: nat -> bool, maxTicks: int): (o: Outcome)
    ensures maxTicks <= 0 ==> o == Outcome(0, false, false, NoLosses())
    ensures maxTicks > 0 ==> o.ticks <= maxTicks
  {
    if maxTicks <= 0 then Outcome(0, false, false, NoLosses())
    else Play(goal, worldAt, timeUp, maxTicks, 0, NoLosses())
  }

  /** In Economic mode a match never ends early on a fallen base: it runs
      to the tick cap or until the safety timer stops it, and never
      counts as a win. */
  lemma EconomicNeverEndsEarly(worldAt: nat -> World, timeUp: nat -> bool, maxTicks: int)
    requires maxTicks > 0
    ensures var o := SimulateMatch(Economic, worldAt, timeUp, maxTicks);
            !o.win && !o.gameOver && (o.ticks == maxTicks || timeUp(o.ticks))
  {
  }

  /** The enemy Base is checked first, so a tick that sees both bases gone
      is a win. */
  lemma BothBasesGoneIsWin(goal: Goal, worldAt: nat -> World, timeUp: nat -> bool, maxTicks: nat, tick: nat, l: Losses)
    requires tick < maxTicks && !timeUp(tick) && goal != Economic
    requires !HasBase(worldAt(tick), 1) && !HasBase(worldAt(tick), 2)
    ensures Play(goal, worldAt, timeUp, maxTicks, tick, l).win
  {
  }

  // ---------------------------------------------------------------------
  // Statistics and fitness.

  datatype Stats = Stats(
    isWin: bool, matchDuration: real, killed: int, destroyed: int,
    wood: int, meat: int, stone: int, soldiers: int, workers: int,
    towers: int, barracks: int, farms: int, cutters: int, pits: int)

  const TICK_DT: real := 0.25

  function OwnCount(ws: World, kind: UnitType): nat
  {
    Select.Count(ws.units, (u: SimUnit) => u.player == 1 && u.kind == kind)
  }

  function OwnBuildings(ws: World, kind: BuildingType): nat
  {
    Select.Count(ws.buildings, (b: SimBuilding) => b.player == 1 && b.kind == kind)
  }

  function OwnTowers(ws: World): nat
  {
    Select.Count(ws.buildings, (b: SimBuilding) => b.player == 1 && b.kind == Tower && b.isConstructed)
  }

  /** The statistics `SimulateGame` collects from the final world: the
      outcome, a duration of 0.25 s per tick, the counted losses, player
      1's stocks (0 without player 1), its units by type whatever their
      state, its constructed towers and its other buildings by type. */
  function CollectStats(ws: World, o: Outcome): (s: Stats)
    ensures s.isWin == o.win && s.matchDuration == TICK_DT * o.ticks as real
    ensures s.killed == o.losses.killed && s.destroyed == o.losses.destroyed
    ensures s.soldiers == 0 <==> !Select.Any(ws.units, (u: SimUnit) => u.player == 1 && u.kind == Soldier)
    ensures GetPlayer(ws, 1).None? ==> s.wood == 0 && s.meat == 0 && s.stone == 0
    ensures 0 <= s.soldiers && 0 <= s.workers && 0 <= s.towers
  {
    var p := GetPlayer(ws, 1);
    Stats(o.win, TICK_DT * o.ticks as real, o.losses.killed, o.losses.destroyed,
          if p.Some? then p.value.wood else 0, if p.Some? then p.value.meat else 0,
          if p.Some? then p.value.stone else 0,
          OwnCount(ws, Soldier), OwnCount(ws, Worker), OwnTowers(ws),
          OwnBuildings(ws, Barracks), OwnBuildings(ws, Farm), OwnBuildings(ws, WoodCutter), OwnBuildings(ws, StonePit))
  }

  function Min3(a: int, b: int, c: int): (m: int)
    ensures m <= a && m <= b && m <= c && (m == a || m == b || m == c)
  {
    if a <= b && a <= c then a else if b <= c then b else c
  }

  function Max3(a: int, b: int, c: int): (m: int)
    ensures m >= a && m >= b && m >= c && (m == a || m == b || m == c)
  {
    if a >= b && a >= c then a else if b >= c then b else c
  }

  function Total(s: Stats): int
  {
    s.wood + s.meat + s.stone
  }

  /** Economic fitness: 1000 per production building, 150 per worker, and
      the stock total minus twice the spread between the largest and the
      smallest stock. */
  function EconomicFitness(s: Stats): (f: real)
    ensures f <= (1000 * (s.farms + s.cutters + s.pits) + 150 * s.workers + Total(s)) as real
    ensures f == (1000 * (s.farms + s.cutters + s.pits) + 150 * s.workers + Total(s)) as real
            <==> s.wood == s.meat == s.stone
  {
    var spread := Max3(s.wood, s.meat, s.stone) - Min3(s.wood, s.meat, s.stone);
    ((s.farms + s.cutters + s.pits) * 1000 + s.workers * 150) as real + Total(s) as real - 2.0 * spread as real
  }

  /** The Defensive score before penalties: 2000 per tower, 10000 per
      kill, 5000 per point of own base health, and 150000 for a living
      base that lasted 95% of the match time. */
  function DefensiveRaw(s: Stats, myBase: real, maxTicks: int): (f: real)
    ensures myBase > 0.0 && s.matchDuration >= maxTicks as real * TICK_DT * 0.95 ==>
              f == (2000 * s.towers + 10000 * s.killed) as real + 5000.0 * myBase + 150000.0
    ensures !(myBase > 0.0 && s.matchDuration >= maxTicks as real * TICK_DT * 0.95) ==>
              f == (2000 * s.towers + 10000 * s.killed) as real + 5000.0 * myBase
  {
    var survival := if myBase > 0.0 && s.matchDuration >= maxTicks as real * TICK_DT * 0.95 then 150000.0 else 0.0;
    (s.towers * 2000) as real + (s.killed * 10000) as real + myBase * 5000.0 + survival
  }

  /** Defensive fitness: a player with no tower and no soldier loses
      50000; otherwise a base below a fifth of its maximum health halves
      the score. */
  function DefensiveFitness(s: Stats, myBase: real, maxTicks: int, baseMax: real): (f: real)
    requires baseMax > 0.0
    ensures s.towers == 0 && s.soldiers == 0 ==> f == DefensiveRaw(s, myBase, maxTicks) - 50000.0
    ensures !(s.towers == 0 && s.soldiers == 0) && myBase / baseMax < 0.2 ==> f == DefensiveRaw(s, myBase, maxTicks) * 0.5
    ensures !(s.towers == 0 && s.soldiers == 0) && myBase / baseMax >= 0.2 ==> f == DefensiveRaw(s, myBase, maxTicks)
  {
    var raw := DefensiveRaw(s, myBase, maxTicks);
    if s.towers == 0 && s.soldiers == 0 then raw - 50000.0
    else if myBase / baseMax < 0.2 then raw * 0.5
    else raw
  }

  /** A defender with some defence whose healthy base survived the match
      scores at least the survival bonus. */
  lemma SurvivingDefenderScoresHigh(s: Stats, myBase: real, maxTicks: int, baseMax: real)
    requires baseMax > 0.0 && s.towers >= 0 && s.killed >= 0
    requires s.towers > 0 || s.soldiers != 0
    requires myBase > 0.0 && myBase / baseMax >= 0.2
    requires s.matchDuration >= maxTicks as real * TICK_DT * 0.95
    ensures DefensiveFitness(s, myBase, maxTicks, baseMax) >= 150000.0
  {
  }

  /** Aggressive fitness: 300 per kill, 600 per destroyed building, 100
      per soldier, 5 per point of damage to the enemy base, and for a win
      10000 plus 20 per tick saved; a loss with no soldier scores 0. */
  function AggressiveFitness(s: Stats, enemyBase: real, maxTicks: int, baseMax: real): (f: real)
    ensures !s.isWin && s.soldiers == 0 ==> f == 0.0
    ensures (s.isWin && s.killed >= 0 && s.destroyed >= 0 && s.soldiers >= 0 && enemyBase <= baseMax
             && s.matchDuration <= maxTicks as real * TICK_DT) ==> f >= 10000.0
  {
    var score := (s.killed * 300 + s.destroyed * 600 + s.soldiers * 100) as real + (baseMax - enemyBase) * 5.0;
    if s.isWin then score + 10000.0 + (maxTicks as real - s.matchDuration / TICK_DT) * 20.0
    else if s.soldiers == 0 then 0.0
    else score
  }

  /** The General score's win bonus: 10000, plus 10 per second left of the
      match time. */
  function WinBonus(s: Stats, maxTicks: int): (b: real)
    ensures !s.isWin ==> b == 0.0
    ensures s.isWin ==> b >= 10000.0
  {
    var maxTime := maxTicks as real * TICK_DT;
    if !s.isWin then 0.0
    else if s.matchDuration < maxTime then 10000.0 + (maxTime - s.matchDuration) * 10.0
    else 10000.0
  }

  /** The General score's penalties: 2000 with no soldier, 1000 with
      fewer than five workers. */
  function GeneralPenalty(s: Stats): (p: real)
    ensures 0.0 <= p <= 3000.0
    ensures p >= 2000.0 <==> s.soldiers == 0
    ensures (p == 1000.0 || p == 3000.0) <==> s.workers < 5
  {
    (if s.soldiers == 0 then 2000.0 else 0.0) + (if s.workers < 5 then 1000.0 else 0.0)
  }

  /** General fitness: the win bonus, 200 per kill, 400 per destroyed
      building, a fifth of the stock total, 50 per worker and 60 per
      soldier, less the penalties. */
  function GeneralFitness(s: Stats, maxTicks: int): (f: real)
    ensures f + GeneralPenalty(s) - WinBonus(s, maxTicks)
            == (s.killed * 200 + s.destroyed * 400) as real + Total(s) as real * 0.2 + (s.workers * 50 + s.soldiers * 60) as real
  {
    WinBonus(s, maxTicks) + (s.killed * 200) as real + (s.destroyed * 400) as real
      + Total(s) as real * 0.2 + (s.workers * 50) as real + (s.soldiers * 60) as real - GeneralPenalty(s)
  }

  /** With everything else equal, winning is worth at least 10000 in the
      General score. */
  lemma GeneralWinWorthTenThousand(s: Stats, maxTicks: int)
    ensures GeneralFitness(s.(isWin := true), maxTicks) >= GeneralFitness(s.(isWin := false), maxTicks) + 10000.0
  {
    assert GeneralPenalty(s.(isWin := true)) == GeneralPenalty(s.(isWin := false));
  }

  /** `CalculateSpecializedFitness`: the score of the training goal. */
  function Fitness(s: Stats, goal: Goal, enemyBase: real, myBase: real, maxTicks: int, baseMax: real): (f: real)
    requires baseMax > 0.0
    ensures goal == Economic ==> f == EconomicFitness(s)
    ensures goal == Defensive ==> f == DefensiveFitness(s, myBase, maxTicks, baseMax)
    ensures goal == Aggressive ==> f == AggressiveFitness(s, enemyBase, maxTicks, baseMax)
    ensures goal == General ==> f == GeneralFitness(s, maxTicks)
  {
    match goal
    case Economic => EconomicFitness(s)
    case Defensive => DefensiveFitness(s, myBase, maxTicks, baseMax)
    case Aggressive => AggressiveFitness(s, enemyBase, maxTicks, baseMax)
    case General => GeneralFitness(s, maxTicks)
  }

  /** `SimulateGame`'s score: the statistics of the final world and the
      outcome, with each side's base health read as the last Base of that
      player in enumeration order (0 without one). */
  function MatchFitness(ws: World, o: Outcome, goal: Goal, maxTicks: int, baseMax: real): (f: real)
    requires baseMax > 0.0
    ensures f == Fitness(CollectStats(ws, o), goal, LastBaseHealth(ws.buildings, 2) as real,
                         LastBaseHealth(ws.buildings, 1) as real, maxTicks, baseMax)
  {
    Fitness(CollectStats(ws, o), goal, LastBaseHealth(ws.buildings, 2) as real,
            LastBaseHealth(ws.buildings, 1) as real, maxTicks, baseMax)
  }

  /** An aggressive trainee that lost and has no soldier left scores
      nothing, however much damage it dealt. */
  lemma AggressiveLossWithoutArmyScoresZero(ws: World, o: Outcome, maxTicks: int, baseMax: real)
    requires baseMax > 0.0 && !o.win
    requires forall i :: 0 <= i < |ws.units| ==> !(ws.units[i].player == 1 && ws.units[i].kind == Soldier)
    ensures MatchFitness(ws, o, Aggressive, maxTicks, baseMax) == 0.0
  {
    var s := CollectStats(ws, o);
    assert !Select.Any(ws.units, (u: SimUnit) => u.player == 1 && u.kind == Soldier);
  }
}
