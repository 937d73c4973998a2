/** The action masks, observations and demonstration replay of the three
    learning agents: `ActionSelectionAgent` (which action the selected
    source takes), `UnitSelectionAgent` (which map cell is the source) and
    the single-brain `RTSAgent`. A mask is the list of enabled flags, index
    by index, as the agent leaves it. */
module Masks {
  import opened Wrappers
  import opened Types
  import opened World
  import opened Config
  import opened Resources
  import opened Buildings
  import Translator
  import Select

  /** Whether a stock covers a price, all three resources at once. */
  predicate Affords(p: SimPlayer, c: Cost)
  {
    p.wood >= c.wood && p.stone >= c.stone && p.meat >= c.meat
  }

  // ---------------------------------------------------------------------
  // The action-selection agent.

  const ACT_WAIT: int := 0
  const ACT_BUILD_HOUSE: int := 1
  const ACT_BUILD_BARRACKS: int := 2
  const ACT_TRAIN_WORKER: int := 3
  const ACT_TRAIN_SOLDIER: int := 4
  const ACT_BUILD_WOODCUTTER: int := 5
  const ACT_BUILD_STONEPIT: int := 6
  const ACT_BUILD_FARM: int := 7
  const ACT_BUILD_TOWER: int := 8
  const ACT_BUILD_WALL: int := 9
  const ACT_ATTACK_ENEMY: int := 10
  const ACT_MOVE_TO: int := 11
  const ACT_GATHER_RES: int := 12
  const ACTIONS: nat := 13

  /** The building each build action of this agent stands for. */
  function BuildKindOf(code: int): (k: BuildingType)
    ensures k != NoBuilding <==> code in {1, 2, 5, 6, 7, 8, 9}
  {
    match code
    case 1 => House
    case 2 => Barracks
    case 5 => WoodCutter
    case 6 => StonePit
    case 7 => Farm
    case 8 => Tower
    case 9 => Wall
    case _ => NoBuilding
  }

  /** The full price of a building, as the action-selection agent reads
      the configuration. */
  function FullPrice(cfg: Config, kind: BuildingType): Cost
  {
    match kind
    case House => cfg.house
    case Barracks => cfg.BarracksCost()
    case WoodCutter => cfg.woodCutter
    case StonePit => cfg.stonePit
    case Farm => cfg.farm
    case Tower => cfg.tower
    case Wall => cfg.wall
    case _ => Free
  }

  /** What the map lookups report about the selected source: no source at
      all (-1), or the unit type and building type found at its index. */
  datatype Source = NoSource | At(unit: Option<UnitType>, building: BuildingType)

  function Off(n: nat): (s: seq<bool>)
    ensures |s| == n && forall i :: 0 <= i < n ==> !s[i]
  {
    seq(n, _ => false)
  }

  /** `WriteDiscreteActionMask` of the action-selection agent: nothing is
      written without the player's record; otherwise every branch writes all
      thirteen flags once. */
  function ActionMask(cfg: Config, me: Option<SimPlayer>, src: Source): (r: Option<seq<bool>>)
    ensures r.None? <==> me.None?
    ensures r.Some? ==> |r.value| == ACTIONS && r.value[ACT_WAIT]
    ensures r.Some? && src.NoSource? ==> forall i :: 1 <= i < ACTIONS ==> !r.value[i]
    ensures r.Some? && src.At? && src.unit == Some(Worker) ==>
              !r.value[ACT_TRAIN_WORKER] && !r.value[ACT_TRAIN_SOLDIER] && !r.value[ACT_ATTACK_ENEMY]
              && r.value[ACT_MOVE_TO] && r.value[ACT_GATHER_RES]
              && forall i :: 1 <= i < ACTIONS && BuildKindOf(i) != NoBuilding ==>
                   (r.value[i] <==> Affords(me.value, FullPrice(cfg, BuildKindOf(i))))
    ensures r.Some? && src.At? && src.unit == Some(Soldier) ==>
              forall i :: 1 <= i < ACTIONS ==> (r.value[i] <==> i == ACT_ATTACK_ENEMY || i == ACT_MOVE_TO)
    ensures r.Some? ==> forall i :: 1 <= i < ACTIONS && BuildKindOf(i) != NoBuilding && r.value[i] ==>
              src.At? && src.unit == Some(Worker) && Affords(me.value, FullPrice(cfg, BuildKindOf(i)))
    ensures r.Some? && r.value[ACT_TRAIN_WORKER] ==>
              src.At? && src.unit.None? && src.building == Base && Affords(me.value, cfg.WorkerCost())
    ensures r.Some? && r.value[ACT_TRAIN_SOLDIER] ==>
              src.At? && src.unit.None? && src.building == Barracks && Affords(me.value, cfg.SoldierCost())
    ensures r.Some? && src.At? && src.unit.None? && src.building != NoBuilding ==>
              (r.value[ACT_TRAIN_WORKER] <==> src.building == Base && Affords(me.value, cfg.WorkerCost()))
              && (r.value[ACT_TRAIN_SOLDIER] <==> src.building == Barracks && Affords(me.value, cfg.SoldierCost()))
  {
    match me
    case None => None
    case Some(p) =>
      var A := (k: BuildingType) => Affords(p, FullPrice(cfg, k));
      match src
      case NoSource => Some([true] + Off(12))
      case At(unit, building) =>
        match unit
        case Some(Worker) =>
          Some([true, A(House), A(Barracks), false, false, A(WoodCutter), A(StonePit), A(Farm), A(Tower), A(Wall),
                false, true, true])
        case Some(Soldier) =>
          Some([true] + Off(9) + [true, true, false])
        case None =>
          if building != NoBuilding then
            var trainW := building == Base && Affords(p, cfg.WorkerCost());
            var trainS := building == Barracks && Affords(p, cfg.SoldierCost());
            Some([true, false, false, trainW, trainS] + Off(8))
          else Some([true] + Off(12))
  }

  // ---------------------------------------------------------------------
  // Demonstration replay, shared by both selection agents.

  /** A registered demonstration: whether one is pending, and its value. */
  datatype Demo = Demo(pending: bool, value: int)

  function Register(d: Demo, v: int): (r: Demo)
    ensures r.pending && r.value == v
  {
    Demo(true, v)
  }

  /** `Heuristic`: a pending demonstration is emitted and cleared, else 0. */
  function Heuristic(d: Demo): (r: (int, Demo))
    ensures d.pending ==> r.0 == d.value && !r.1.pending
    ensures !d.pending ==> r == (0, d)
  {
    if d.pending then (d.value, d.(pending := false)) else (0, d)
  }

  /** What `n` consecutive heuristic calls emit. */
  function Emitted(d: Demo, n: nat): (out: seq<int>)
    ensures |out| == n
    decreases n
  {
    if n == 0 then [] else [Heuristic(d).0] + Emitted(Heuristic(d).1, n - 1)
  }

  /** Without a pending demonstration every call emits 0. */
  lemma {:induction false} IdleEmitsZeros(d: Demo, n: nat)
    requires !d.pending
    ensures forall i :: 0 <= i < n ==> Emitted(d, n)[i] == 0
    decreases n
  {
    if n > 0 {
      IdleEmitsZeros(Heuristic(d).1, n - 1);
    }
  }

  /** A registered demonstration is emitted exactly once, by the first
      call, and every later call emits 0. */
  lemma ReplayedOnce(d: Demo, v: int, n: nat)
    requires n >= 1
    ensures Emitted(Register(d, v), n)[0] == v
    ensures forall i :: 1 <= i < n ==> Emitted(Register(d, v), n)[i] == 0
  {
    var d1 := Heuristic(Register(d, v)).1;
    IdleEmitsZeros(d1, n - 1);
    assert Emitted(Register(d, v), n) == [v] + Emitted(d1, n - 1);
  }

  // ---------------------------------------------------------------------
  // The unit-selection agent.

  /** What the map lookups report about one cell: whether the agent owns
      something there, the state of the unit there if there is one, and the
      building type otherwise. */
  datatype CellView = CellView(owned: bool, unitState: Option<TaskType>, building: BuildingType)

  /** A cell may be chosen as source when the agent owns it and it holds a
      unit that is neither building nor moving, or, without a unit, a base
      or a barracks. */
  predicate Selectable(c: CellView)
  {
    c.owned && (if c.unitState.Some? then c.unitState.value != Building && c.unitState.value != Moving
                else c.building == Base || c.building == Barracks)
  }

  /** `WriteDiscreteActionMask` of the unit-selection agent: each cell's
      flag is its selectability, and when nothing is selectable index 0 is
      forced on (written even on an empty map). */
  function SelectionMask(cells: seq<CellView>): (r: seq<bool>)
    ensures |r| == if |cells| == 0 then 1 else |cells|
    ensures true in r
    ensures forall i :: 1 <= i < |cells| ==> (r[i] <==> Selectable(cells[i]))
    ensures |cells| > 0 && Selectable(cells[0]) ==> r[0]
    ensures (exists i :: 0 <= i < |cells| && Selectable(cells[i])) ==> forall i :: 0 <= i < |cells| ==> (r[i] <==> Selectable(cells[i]))
  {
    var written := seq(|cells|, i requires 0 <= i < |cells| => Selectable(cells[i]));
    if exists i :: 0 <= i < |cells| && Selectable(cells[i]) then
      var i :| 0 <= i < |cells| && Selectable(cells[i]);
      assert written[i];
      written
    else if |cells| == 0 then [true]
    else
      var r := written[0 := true];
      assert r[0];
      r
  }

  /** The observation vector of the unit-selection agent: the three stocks
      over 1000, the population over 50, then the agent's live workers and
      soldiers over 30; six zeros without the player's record. */
  function LiveOf(pid: int, t: UnitType): SimUnit -> bool
  {
    (u: SimUnit) => u.player == pid && u.state != Dead && u.kind == t
  }

  function SelectionObservation(ws: World, pid: int): (r: seq<real>)
    ensures |r| == 6
    ensures GetPlayer(ws, pid).None? ==> forall i :: 0 <= i < 6 ==> r[i] == 0.0
    ensures r[4] >= 0.0 && r[5] >= 0.0
    ensures GetPlayer(ws, pid).Some? ==> r[4] * 30.0 == Select.Count(ws.units, LiveOf(pid, Worker)) as real
  {
    match GetPlayer(ws, pid)
    case None => [0.0, 0.0, 0.0, 0.0, 0.0, 0.0]
    case Some(me) =>
      [me.wood as real / 1000.0, me.stone as real / 1000.0, me.meat as real / 1000.0, me.curPop as real / 50.0,
       Select.Count(ws.units, LiveOf(pid, Worker)) as real / 30.0,
       Select.Count(ws.units, LiveOf(pid, Soldier)) as real / 30.0]
  }

  // ---------------------------------------------------------------------
  // The single-brain agent.

  /** The indices of the single-brain agent's labels: 4 to 9 build a house,
      barracks, tower, farm, wood cutter and stone pit; 10 and 11 train a
      worker and a soldier. */
  function AgentBuildKind(code: int): (k: BuildingType)
    ensures k != NoBuilding <==> 4 <= code <= 9
  {
    match code
    case 4 => House
    case 5 => Barracks
    case 6 => Tower
    case 7 => Farm
    case 8 => WoodCutter
    case 9 => StonePit
    case _ => NoBuilding
  }

  /** The worker test: the worker's meat and wood (stone is not read) and
      room under the population cap; the soldier test likewise. */
  predicate CanTrain(cfg: Config, p: SimPlayer, t: UnitType)
  {
    var c := TrainCost(cfg, t);
    p.meat >= c.meat && p.wood >= c.wood && p.curPop < p.maxPop
  }

  /** `WriteDiscreteActionMask` of the single-brain agent, as the set of
      indices it disables (the rest keep their enabled default); nothing at
      all without player 1. */
  function AgentMask(cfg: Config, ws: World): (r: Option<set<int>>)
    ensures r.None? <==> GetPlayer(ws, 1).None?
    ensures r.Some? ==> forall i :: i in r.value ==> 4 <= i <= 11
    ensures r.Some? ==> (10 in r.value <==> !CanTrain(cfg, GetPlayer(ws, 1).value, Worker))
    ensures r.Some? ==> (11 in r.value <==> !CanTrain(cfg, GetPlayer(ws, 1).value, Soldier))
    ensures r.Some? ==> forall i :: 4 <= i <= 9 ==>
              (i in r.value <==> !Affords(GetPlayer(ws, 1).value, FullPrice(cfg, AgentBuildKind(i))))
  {
    match GetPlayer(ws, 1)
    case None => None
    case Some(p) =>
      var builds := set i | 4 <= i <= 9 && !Affords(p, FullPrice(cfg, AgentBuildKind(i)));
      var trains := (if CanTrain(cfg, p, Worker) then {} else {10}) + (if CanTrain(cfg, p, Soldier) then {} else {11});
      Some(builds + trains)
  }

  /** The reward `OnActionReceived` adds for a command: a failed command
      other than waiting costs 0.005, a successful one earns 0.001, and
      waiting earns nothing. */
  function CommandReward(command: int, ok: bool): (r: real)
    ensures command == 0 ==> r == 0.0
    ensures command != 0 ==> (r > 0.0 <==> ok)
    ensures r in {0.0, 0.001, -0.005}
  {
    if !ok && command != 0 then -0.005 else if command != 0 then 0.001 else 0.0
  }

  /** One decision of the single-brain agent: the translator runs the
      command and the reward follows its report. */
  function AgentAct(cfg: Config, ws: World, command: int, x: int, y: int): (r: (real, World))
    requires ws.mapData.Valid()
    ensures command == 0 ==> r.0 == 0.0
    ensures command != 0 && !ws.mapData.InBounds(Int2(x, y)) ==> r == (-0.005, ws)
    ensures (command < 0 || command > 9) ==> r.1 == ws && (command != 0 ==> r.0 == -0.005)
    ensures command != 0 ==> (r.0 == 0.001 <==> Translator.ExecuteAction(cfg, ws, command, x, y).ok)
    ensures r.1 == Translator.ExecuteAction(cfg, ws, command, x, y).world
  {
    var out := Translator.ExecuteAction(cfg, ws, command, x, y);
    (CommandReward(command, out.ok), out.world)
  }

  /** The two code tables disagree: the mask enables 10 (train a worker)
      whenever a worker is affordable under the cap, yet the translator
      knows no code 10, so the command always fails and is penalised; and
      code 4, gated on the house price, trains a soldier. */
  lemma AgentCodesMisfire(cfg: Config, ws: World, x: int, y: int)
    requires ws.mapData.Valid()
    requires GetPlayer(ws, 1).Some? && CanTrain(cfg, GetPlayer(ws, 1).value, Worker)
    ensures AgentMask(cfg, ws).Some? && 10 !in AgentMask(cfg, ws).value
    ensures !Translator.ExecuteAction(cfg, ws, 10, x, y).ok
    ensures AgentAct(cfg, ws, 10, x, y).0 == -0.005
    ensures AgentBuildKind(4) == House && Translator.CommandOf(4) == Translator.Train(Soldier)
  {
  }

  /** A mask over the translator's own codes: a code is disabled when the
      translator does not know it, when the building it orders is not
      affordable at the translator's price, or when the unit it trains is
      not affordable under the cap. */
  function TranslatorMask(cfg: Config, ws: World): (r: Option<set<int>>)
    ensures r.None? <==> GetPlayer(ws, 1).None?
    ensures r.Some? ==> forall c :: 0 <= c <= 11 && c !in r.value ==> !Translator.CommandOf(c).Unknown?
    ensures r.Some? ==> forall c :: 0 <= c <= 11 && c !in r.value && Translator.CommandOf(c).Build? ==>
              CanAfford(ws, 1, Translator.BuildPrice(cfg, Translator.CommandOf(c).kind))
    ensures r.Some? ==> forall c :: 0 <= c <= 11 && c !in r.value && Translator.CommandOf(c).Train? ==>
              CanTrain(cfg, GetPlayer(ws, 1).value, Translator.CommandOf(c).unit)
    ensures r.Some? ==> forall c :: 0 <= c <= 11 && c in r.value ==> c != 0
  {
    match GetPlayer(ws, 1)
    case None => None
    case Some(p) =>
      Some(set c | 0 <= c <= 11 && Disabled(cfg, ws, p, Translator.CommandOf(c)))
  }

  predicate Disabled(cfg: Config, ws: World, p: SimPlayer, cmd: Translator.Command)
  {
    match cmd
    case Unknown => true
    case Build(kind) => !CanAfford(ws, 1, Translator.BuildPrice(cfg, kind))
    case Train(t) => !CanTrain(cfg, p, t)
    case _ => false
  }

  /** Under the translator's table the misfire is gone: codes 10 and 11
      are always masked, and an enabled building code is one the
      translator can pay for. */
  lemma TranslatorMaskConsistent(cfg: Config, ws: World)
    requires GetPlayer(ws, 1).Some?
    ensures 10 in TranslatorMask(cfg, ws).value && 11 in TranslatorMask(cfg, ws).value
    ensures 0 !in TranslatorMask(cfg, ws).value
  {
    assert Disabled(cfg, ws, GetPlayer(ws, 1).value, Translator.CommandOf(10));
    assert Disabled(cfg, ws, GetPlayer(ws, 1).value, Translator.CommandOf(11));
  }
}
