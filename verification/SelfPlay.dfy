/** The self-play training runner: two learning agents, A as player 1 and
    B as player 2, on one map.

    Each step the runner asks both agents for a decision every fourth
    step, pays each agent shaping rewards for its own growth and its
    opponent's losses, charges it for idle workers, checks whether a base
    has fallen, and ends a game that reaches the step cap with a penalty
    for both. The simulation updates between two bookkeeping points are
    modelled in their own modules; a step here takes the world as it
    stands after them. Each seat keeps the running total of the rewards
    paid to its agent and the number of `EndEpisode` calls it received. */
module SelfPlay {
  import opened Wrappers
  import opened Types
  import opened World
  import opened Census
  import Select

  // ---------------------------------------------------------------------
  // Decision cadence.

  const DECISION_INTERVAL: int := 4

  /** One tick of the decision counter: it counts up, and when it reaches
      the interval it is cleared and both agents are asked to decide. */
  function DecisionTick(counter: int): (r: (int, bool))
    ensures r.1 <==> counter + 1 >= DECISION_INTERVAL
    ensures r.1 ==> r.0 == 0
    ensures !r.1 ==> r.0 == counter + 1
  {
    if counter + 1 >= DECISION_INTERVAL then (0, true) else (counter + 1, false)
  }

  /** The counter after `n` steps from a reset. */
  function CounterAfter(n: nat): int
  {
    if n == 0 then 0 else DecisionTick(CounterAfter(n - 1)).0
  }

  /** From a reset, the counter after `n` steps is `n mod 4`, and step `n`
      (counting from 1) requests decisions exactly when `n` is a multiple
      of 4. */
  lemma {:induction false} DecisionsEveryFourthStep(n: nat)
    ensures CounterAfter(n) == n % DECISION_INTERVAL
    ensures n >= 1 ==> (DecisionTick(CounterAfter(n - 1)).1 <==> n % DECISION_INTERVAL == 0)
  {
    if n >= 1 {
      DecisionsEveryFourthStep(n - 1);
    }
  }

  // ---------------------------------------------------------------------
  // Seats.

  /** What the runner remembers for one agent: its own soldiers and
      workers and the opponent's tally as last seen. The stock fields are
      set at reset and never read again. */
  datatype Progress = Progress(
    soldiers: int, workers: int, wood: int, meat: int, stone: int, enemy: Tally)

  datatype Seat = Seat(present: bool, progress: Progress, reward: real, episodes: nat)

  datatype Match = Match(step: int, maxSteps: int, ended: bool, counter: int, a: Seat, b: Seat)

  const WORKER_REWARD: real := 0.5
  const SOLDIER_REWARD: real := 1.0
  const UNIT_KILL_REWARD: real := 0.5
  const BUILDING_KILL_REWARD: real := 2.0
  const BASE_DAMAGE_REWARD: real := 0.1
  const IDLE_PENALTY: real := -0.0001
  const WIN_BASE_REWARD: real := 200.0
  const SPEED_BONUS: real := 500.0
  const LOSS_REWARD: real := -20.0
  const DRAW_REWARD: real := -1.0
  const TIMEOUT_REWARD: real := -100.0

  /** `ResetProgress`: one worker, no soldiers, 500 of each stock, and an
      opponent of one unit, one building and a 1000-point base. */
  function FreshProgress(): (p: Progress)
    ensures p.enemy == Tally(1, 1, 1000) && p.workers == 1 && p.soldiers == 0
  {
    Progress(0, 1, 500, 500, 500, Tally(1, 1, 1000))
  }

  /** The runner part of `ResetSimulation`: step 0, not ended, both seats'
      progress reset. The decision counter is not cleared. */
  function Reset(m: Match): (m': Match)
    ensures m'.step == 0 && !m'.ended && m'.counter == m.counter
    ensures m'.a == m.a.(progress := FreshProgress()) && m'.b == m.b.(progress := FreshProgress())
  {
    m.(step := 0, ended := false, a := m.a.(progress := FreshProgress()), b := m.b.(progress := FreshProgress()))
  }

  function Pay(s: Seat, x: real): (s': Seat)
    ensures s.present ==> s' == s.(reward := s.reward + x)
    ensures !s.present ==> s' == s
  {
    if s.present then s.(reward := s.reward + x) else s
  }

  function EndEpisode(s: Seat): (s': Seat)
    ensures s.present ==> s' == s.(episodes := s.episodes + 1)
    ensures !s.present ==> s' == s
  {
    if s.present then s.(episodes := s.episodes + 1) else s
  }

  // ---------------------------------------------------------------------
  // Shaping rewards.

  function LiveWorkers(ws: World, pid: int): nat
  {
    Select.Count(ws.units, LiveKindOf(pid, Worker))
  }

  function LiveSoldiers(ws: World, pid: int): nat
  {
    Select.Count(ws.units, LiveKindOf(pid, Soldier))
  }

  /** `CalculateRewards(me, agent, progress, enemy)`: with an agent and a
      known player, 0.5 once if the own live workers rose, 1.0 once if the
      own live soldiers rose, and the opponent's losses (0.5 per unit, 2.0
      per building, 0.1 per base hit point); then the progress is
      overwritten with the current counts. Otherwise nothing changes. */
  function CalculateRewards(ws: World, me: int, enemy: int, s: Seat): (s': Seat)
    ensures !s.present || GetPlayer(ws, me).None? ==> s' == s
    ensures s'.reward >= s.reward && s'.episodes == s.episodes && s'.present == s.present
    ensures s.present && GetPlayer(ws, me).Some? ==>
              s'.progress == s.progress.(workers := LiveWorkers(ws, me), soldiers := LiveSoldiers(ws, me),
                                         enemy := EnemyTally(ws, enemy))
    ensures s.present && GetPlayer(ws, me).Some? ==>
              var t := EnemyTally(ws, enemy);
              (s'.reward > s.reward <==>
                 LiveWorkers(ws, me) > s.progress.workers || LiveSoldiers(ws, me) > s.progress.soldiers
                 || t.units < s.progress.enemy.units || t.buildings < s.progress.enemy.buildings
                 || t.baseHealth < s.progress.enemy.baseHealth)
  {
    if !s.present || GetPlayer(ws, me).None? then s
    else
      var workers := LiveWorkers(ws, me);
      var soldiers := LiveSoldiers(ws, me);
      var t := EnemyTally(ws, enemy);
      var pay := Bonus(s.progress.workers, workers, WORKER_REWARD)
                 + Bonus(s.progress.soldiers, soldiers, SOLDIER_REWARD)
                 + CombatPayment(s.progress.enemy, t, UNIT_KILL_REWARD, BUILDING_KILL_REWARD, BASE_DAMAGE_REWARD);
      s.(reward := s.reward + pay,
         progress := s.progress.(workers := workers, soldiers := soldiers, enemy := t))
  }

  /** A growth bonus is flat: ten new workers pay what one pays. */
  lemma GrowthBonusIsFlat(ws: World, me: int, enemy: int, s: Seat)
    requires s.present && GetPlayer(ws, me).Some?
    requires LiveWorkers(ws, me) > s.progress.workers
    requires LiveSoldiers(ws, me) <= s.progress.soldiers
    requires EnemyTally(ws, enemy) == s.progress.enemy
    ensures CalculateRewards(ws, me, enemy, s).reward == s.reward + WORKER_REWARD
  {
  }

  function IdleWorkers(ws: World, pid: int): nat
  {
    Select.Count(ws.units, (u: SimUnit) => u.player == pid && u.kind == Worker && u.state == Idle)
  }

  /** `ApplyIdlePenalty`: -0.0001 per idle worker of the player, nothing
      when there is none or no agent. */
  function IdlePenalty(ws: World, pid: int, s: Seat): (s': Seat)
    ensures s'.reward <= s.reward
    ensures s'.reward == s.reward <==> !s.present || IdleWorkers(ws, pid) == 0
    ensures s.present ==> s'.reward == s.reward + IDLE_PENALTY * IdleWorkers(ws, pid) as real
    ensures s' == s.(reward := s'.reward)
  {
    var idle := IdleWorkers(ws, pid);
    if idle > 0 then Pay(s, IDLE_PENALTY * idle as real) else s
  }

  // ---------------------------------------------------------------------
  // End of game.

  /** `EndGame`: the first call marks the game ended and ends both
      agents' episodes; later calls change nothing. */
  function EndGame(m: Match): (m': Match)
    ensures m'.ended
    ensures m.ended ==> m' == m
    ensures !m.ended ==> m' == m.(ended := true, a := EndEpisode(m.a), b := EndEpisode(m.b))
  {
    if m.ended then m else m.(ended := true, a := EndEpisode(m.a), b := EndEpisode(m.b))
  }

  lemma EndGameIdempotent(m: Match)
    ensures EndGame(EndGame(m)) == EndGame(m)
  {
  }

  /** The winner's reward `200 + 500 * (MaxSteps - step) / MaxSteps`. */
  function WinReward(step: int, maxSteps: int): (w: real)
    requires maxSteps > 0
    ensures 0 <= step <= maxSteps ==> 200.0 <= w <= 700.0
    ensures step == maxSteps ==> w == WIN_BASE_REWARD
  {
    WIN_BASE_REWARD + SPEED_BONUS * ((maxSteps - step) as real / maxSteps as real)
  }

  /** A faster win pays at least as much. */
  lemma FasterWinPaysMore(s: int, t: int, maxSteps: int)
    requires maxSteps > 0 && s <= t
    ensures WinReward(s, maxSteps) >= WinReward(t, maxSteps)
  {
    var m := maxSteps as real;
    assert (maxSteps - s) as real / m >= (maxSteps - t) as real / m;
  }

  /** One side's base is gone and the other's stands: the winner is paid,
      the loser charged, each told to end its episode, and the game ended. */
  function Decide(m: Match, winner: Seat, loser: Seat, aWins: bool): (m': Match)
    requires !m.ended && m.maxSteps > 0
  {
    var w := EndEpisode(Pay(winner, WinReward(m.step, m.maxSteps)));
    var l := EndEpisode(Pay(loser, LOSS_REWARD));
    EndGame(if aWins then m.(a := w, b := l) else m.(a := l, b := w))
  }

  /** `CheckGameResult`, with `FirstOrDefault` base lookups. Both bases
      gone: -1 each. One base gone: the other side wins. In every decided
      case the result branch ends each agent's episode and `EndGame` then
      ends it again, so each present agent receives two `EndEpisode`
      calls. */
  function CheckGameResult(ws: World, m: Match): (m': Match)
    requires m.maxSteps > 0
    ensures m.ended ==> m' == m
    ensures HasBase(ws, 1) && HasBase(ws, 2) ==> m' == m
    ensures m'.ended <==> m.ended || !HasBase(ws, 1) || !HasBase(ws, 2)
    ensures m'.step == m.step && m'.maxSteps == m.maxSteps && m'.counter == m.counter
    ensures m'.a.progress == m.a.progress && m'.b.progress == m.b.progress
    ensures !m.ended && !HasBase(ws, 1) && !HasBase(ws, 2) ==>
              m'.a == EndEpisode(EndEpisode(Pay(m.a, DRAW_REWARD))) && m'.b == EndEpisode(EndEpisode(Pay(m.b, DRAW_REWARD)))
    ensures !m.ended && !HasBase(ws, 1) && HasBase(ws, 2) ==>
              m'.a == EndEpisode(EndEpisode(Pay(m.a, LOSS_REWARD)))
              && m'.b == EndEpisode(EndEpisode(Pay(m.b, WinReward(m.step, m.maxSteps))))
    ensures !m.ended && HasBase(ws, 1) && !HasBase(ws, 2) ==>
              m'.a == EndEpisode(EndEpisode(Pay(m.a, WinReward(m.step, m.maxSteps))))
              && m'.b == EndEpisode(EndEpisode(Pay(m.b, LOSS_REWARD)))
  {
    if m.ended then m
    else if !HasBase(ws, 1) && !HasBase(ws, 2) then
      EndGame(m.(a := EndEpisode(Pay(m.a, DRAW_REWARD)), b := EndEpisode(Pay(m.b, DRAW_REWARD))))
    else if !HasBase(ws, 1) then Decide(m, m.b, m.a, false)
    else if !HasBase(ws, 2) then Decide(m, m.a, m.b, true)
    else m
  }

  /** A decisive result within the step budget pays the winner between
      200 and 700 and charges the loser 20. */
  lemma DecisiveRewards(ws: World, m: Match)
    requires m.maxSteps > 0 && !m.ended && 0 <= m.step <= m.maxSteps
    requires m.a.present && m.b.present
    requires HasBase(ws, 1) && !HasBase(ws, 2)
    ensures var m' := CheckGameResult(ws, m);
            m.a.reward + 200.0 <= m'.a.reward <= m.a.reward + 700.0 && m'.b.reward == m.b.reward - 20.0
  {
  }

  // ---------------------------------------------------------------------
  // One simulation step.

  /** The bookkeeping of `SimulationStep` on the world `ws` as it stands
      after the building and unit updates: the decision tick, both agents'
      rewards and idle penalties, the result check, the step count, and at
      the cap a -100 penalty for each agent before the game is ended. The
      second component says whether decisions were requested. */
  function SimulationStep(ws: World, m: Match): (r: (Match, bool))
    requires m.maxSteps > 0
    ensures r.1 <==> m.counter + 1 >= DECISION_INTERVAL
    ensures r.0.step == m.step + 1
    ensures r.0.step >= r.0.maxSteps ==> r.0.ended
    ensures r.0.maxSteps == m.maxSteps && r.0.a.present == m.a.present && r.0.b.present == m.b.present
    ensures m.ended ==> r.0.ended && r.0.a.episodes == m.a.episodes && r.0.b.episodes == m.b.episodes
  {
    var (counter, decide) := DecisionTick(m.counter);
    var a1 := CalculateRewards(ws, 1, 2, m.a);
    var b1 := CalculateRewards(ws, 2, 1, m.b);
    var m1 := m.(counter := counter, a := IdlePenalty(ws, 1, a1), b := IdlePenalty(ws, 2, b1));
    var m2 := CheckGameResult(ws, m1);
    var m3 := m2.(step := m2.step + 1);
    var m4 := if m3.step >= m3.maxSteps && !m3.ended
              then EndGame(m3.(a := Pay(m3.a, TIMEOUT_REWARD), b := Pay(m3.b, TIMEOUT_REWARD)))
              else m3;
    (m4, decide)
  }

  /** A stalemate that reaches the cap costs each agent 100 beyond its
      shaping rewards and ends each episode once. */
  lemma StalemateCostsBoth(ws: World, m: Match)
    requires m.maxSteps > 0 && !m.ended && m.step + 1 == m.maxSteps
    requires m.a.present && m.b.present
    requires HasBase(ws, 1) && HasBase(ws, 2)
    ensures var r := SimulationStep(ws, m).0;
            var a1 := IdlePenalty(ws, 1, CalculateRewards(ws, 1, 2, m.a));
            r.a.reward == a1.reward - 100.0 && r.a.episodes == m.a.episodes + 1 && r.ended
  {
  }
}
