/** The worker-rush bot (`WorkerRushAI`): no army buildings at all; the
    base trains workers whenever it can, and the workers, ordered by ID,
    split into an attack half and a meat-gathering half. */
module WorkerRush {
  import opened Wrappers
  import opened Types
  import opened World
  import opened Config
  import opened Resources
  import opened Grid
  import opened Units
  import opened Pace
  import opened Crew
  import opened Bots
  import Select

  const INTERVAL: real := 0.5

  /** Decisions come at most twice per second of frame time. */
  lemma {:induction false} TwicePerSecond(timer: real, dts: seq<real>)
    requires timer >= 0.0 && NonNegative(dts)
    ensures Decisions(timer, dts, INTERVAL) as real <= 2.0 * (timer + Sum(dts))
  {
    DecisionsRationed(timer, dts, INTERVAL);
  }

  /** `TryTrainReinforcements`: a worker is ordered when the base exists,
      idles, and the price is stocked. */
  predicate TrainsWorker(ws: World, pid: int, cfg: Config)
  {
    BaseOf(ws, pid).Some? && !BaseOf(ws, pid).value.isTraining && CanAfford(ws, pid, cfg.WorkerCost())
  }

  // ---------------------------------------------------------------------
  // Ordering the workers.

  predicate SortedById(s: seq<SimUnit>)
  {
    forall i, j :: 0 <= i < j < |s| ==> s[i].id <= s[j].id
  }

  /** A head no larger than any entry of a sorted list keeps it sorted. */
  lemma ConsSorted(h: SimUnit, rest: seq<SimUnit>)
    requires SortedById(rest)
    requires forall k :: 0 <= k < |rest| ==> h.id <= rest[k].id
    ensures SortedById([h] + rest)
  {
    var r := [h] + rest;
    forall i, j | 0 <= i < j < |r| ensures r[i].id <= r[j].id {
      assert r[j] == rest[j - 1];
      if i > 0 {
        assert r[i] == rest[i - 1];
      }
    }
  }

  /** One insertion step: `x` goes before the first entry whose ID is not
      smaller. */
  function InsertById(x: SimUnit, s: seq<SimUnit>): (r: seq<SimUnit>)
    requires SortedById(s)
    ensures SortedById(r)
    ensures multiset(r) == multiset(s) + multiset{x}
    ensures |r| == |s| + 1
    ensures forall k :: 0 <= k < |r| ==> r[k] == x || r[k] in s
    decreases |s|
  {
    if |s| == 0 || x.id <= s[0].id then
      ConsSorted(x, s);
      [x] + s
    else
      var rest := InsertById(x, s[1..]);
      assert s == [s[0]] + s[1..];
      assert forall k :: 0 <= k < |rest| ==> s[0].id <= rest[k].id by {
        forall k | 0 <= k < |rest| ensures s[0].id <= rest[k].id {
          if rest[k] != x {
            var m :| 0 <= m < |s[1..]| && s[1..][m] == rest[k];
            assert s[m + 1] == rest[k];
          }
        }
      }
      ConsSorted(s[0], rest);
      [s[0]] + rest
  }

  /** `OrderBy(u => u.ID)`: the same workers, ascending by ID. */
  function SortById(s: seq<SimUnit>): (r: seq<SimUnit>)
    ensures SortedById(r)
    ensures multiset(r) == multiset(s)
    ensures |r| == |s|
    decreases |s|
  {
    if |s| == 0 then []
    else
      assert s == [s[0]] + s[1..];
      InsertById(s[0], SortById(s[1..]))
  }

  // ---------------------------------------------------------------------
  // The split.

  /** The attack squad: half the workers, rounded down, but at least one. */
  function SquadSize(n: nat): (k: nat)
    ensures n > 0 ==> 1 <= k <= n
    ensures n >= 2 ==> k <= n - k <= k + 1
    ensures n == 1 ==> k == 1
  {
    var half := n / 2;
    if n > 0 && half == 0 then 1 else half
  }

  /** The attackers are the lowest IDs: every attacker's ID is at most
      every gatherer's. */
  lemma AttackersHaveLowestIds(workers: seq<SimUnit>, i: nat, j: nat)
    requires SortedById(workers)
    requires i < SquadSize(|workers|) <= j < |workers|
    ensures workers[i].id <= workers[j].id
  {
  }

  /** `FindBestTarget`: the first enemy base, else the first enemy worker,
      else the first enemy unit. */
  function FindBestTarget(ws: World, pid: int): (t: Target)
    ensures Select.Any(ws.buildings, EnemyKind(pid, Base)) ==> t.AtBuilding? && t.b.kind == Base
    ensures t.AtBuilding? ==> t.b in ws.buildings && t.b.player != pid && t.b.kind == Base
    ensures t.AtUnit? ==> !Select.Any(ws.buildings, EnemyKind(pid, Base)) && t.u in ws.units && t.u.player != pid
    ensures t.AtUnit? && Select.Any(ws.units, EnemyUnitKind(pid, Worker)) ==> t.u.kind == Worker
    ensures t.NoTarget? <==> !Select.Any(ws.buildings, EnemyKind(pid, Base)) && !Select.Any(ws.units, EnemyUnit(pid))
  {
    match Select.FirstWhere(ws.buildings, EnemyKind(pid, Base))
    case Some(b) => AtBuilding(b)
    case None =>
      match Select.FirstWhere(ws.units, EnemyUnitKind(pid, Worker))
      case Some(u) => AtUnit(u)
      case None =>
        match Select.FirstWhere(ws.units, EnemyUnit(pid))
        case Some(u) => AtUnit(u)
        case None => NoTarget
  }

  /** The order for the worker at position `i` of the sorted list. An
      attacker with a target is (re)ordered only when it is neither
      attacking nor moving, or has no target ID; with no target an idle
      attacker walks to the centre. A gatherer is ordered only when idle,
      to the nearest meat node with meat left. */
  function Duty(cfg: Config, ws: World, w: SimUnit, i: nat, squad: nat, t: Target): (r: SimUnit)
    requires ws.mapData.Valid()
    ensures i < squad && !t.NoTarget? && (w.state == Attacking || w.state == Moving) && w.targetId != -1 ==> r == w
    ensures i < squad && t.AtUnit? && !((w.state == Attacking || w.state == Moving) && w.targetId != -1) ==>
              r.targetId == t.u.id
    ensures i < squad && t.NoTarget? && w.state != Idle ==> r == w
    ensures i >= squad && w.state != Idle ==> r == w
    ensures i >= squad && FindNearestResource(ws, w.pos, Meat, true).None? ==> r == w
    ensures i >= squad && r != w ==> r.targetId == FindNearestResource(ws, w.pos, Meat, true).value.id
                                     && r.state in {Moving, Gathering}
    ensures r.id == w.id && r.pos == w.pos && r.player == w.player
  {
    if i < squad then
      match t
      case NoTarget => if w.state == Idle then OrderMove(ws, w, Centre(cfg)) else w
      case _ =>
        if !(w.state == Attacking || w.state == Moving) || w.targetId == -1 then Attack(ws, w, t) else w
    else if w.state != Idle then w
    else match FindNearestResource(ws, w.pos, Meat, true)
      case None => w
      case Some(meat) => TryAssignGatherTask(ws, w, meat).1
  }

  /** The loop over the sorted workers from position `i` on: the worker at
      position `j` takes the duty for `j`, against the world as it stood
      when the loop began. Only those workers change; with distinct IDs
      each ends as its `Duty` leaves it. */
  function SplitFrom(cfg: Config, ws: World, workers: seq<SimUnit>, i: nat, squad: nat, t: Target): (r: World)
    requires ws.mapData.Valid()
    requires i <= |workers|
    ensures r == ws.(units := r.units) && |r.units| == |ws.units|
    ensures forall q :: q !in Ids(workers[i..]) ==> GetUnit(r, q) == GetUnit(ws, q)
    ensures DistinctUnitIds(workers[i..]) ==>
              forall j :: i <= j < |workers| && GetUnit(ws, workers[j].id) == Some(workers[j]) ==>
                GetUnit(r, workers[j].id) == Some(Duty(cfg, ws, workers[j], j, squad, t))
  {
    var f := (k: nat, w: SimUnit) => Duty(cfg, ws, w, k, squad, t);
    assert KeepsIds(workers[i..], i, f);
    var r := OrderEach(ws, workers[i..], i, f);
    assert forall j :: i <= j < |workers| ==> workers[i..][j - i] == workers[j] && i + (j - i) == j;
    r
  }

  function OwnWorkers(ws: World, pid: int): seq<SimUnit>
  {
    SortById(Select.Filter(ws.units, WorkerOf(pid)))
  }

  /** The sorted workers are the player's workers, by record and by ID. */
  lemma OwnWorkersSame(ws: World, pid: int)
    ensures forall w :: w in OwnWorkers(ws, pid) <==> w in Select.Filter(ws.units, WorkerOf(pid))
    ensures forall q :: q in Ids(OwnWorkers(ws, pid)) <==> q in Ids(Select.Filter(ws.units, WorkerOf(pid)))
    ensures |OwnWorkers(ws, pid)| == |Select.Filter(ws.units, WorkerOf(pid))|
  {
    var workers := OwnWorkers(ws, pid);
    var all := Select.Filter(ws.units, WorkerOf(pid));
    forall w ensures w in workers <==> w in all {
      assert w in workers <==> w in multiset(workers);
    }
    forall q ensures q in Ids(workers) <==> q in Ids(all) {
      if q in Ids(workers) {
        var k :| 0 <= k < |workers| && workers[k].id == q;
        assert workers[k] in all;
      }
      if q in Ids(all) {
        var k :| 0 <= k < |all| && all[k].id == q;
        assert all[k] in workers;
      }
    }
  }

  /** With unique IDs the sorted workers have distinct IDs, and each is a
      worker of the player stored under its ID. */
  lemma OwnWorkersStored(ws: World, pid: int)
    ensures UniqueUnitIds(ws) ==> DistinctUnitIds(OwnWorkers(ws, pid))
    ensures UniqueUnitIds(ws) ==>
              forall j :: 0 <= j < |OwnWorkers(ws, pid)| ==>
                var w := OwnWorkers(ws, pid)[j];
                w in ws.units && w.player == pid && w.kind == Worker && GetUnit(ws, w.id) == Some(w)
  {
    var workers := OwnWorkers(ws, pid);
    var all := Select.Filter(ws.units, WorkerOf(pid));
    if UniqueUnitIds(ws) {
      FilterStored(ws, WorkerOf(pid));
      OwnWorkersSame(ws, pid);
      PermutedDistinct(all, workers);
      forall j | 0 <= j < |workers|
        ensures workers[j] in ws.units && workers[j].player == pid && workers[j].kind == Worker
        ensures GetUnit(ws, workers[j].id) == Some(workers[j])
      {
        assert workers[j] in all;
      }
    }
  }

  /** `ManageArmySplit`: the player's workers, ascending by ID, take their
      duties with the squad size of their count; nothing else changes, and
      nothing at all without workers. With unique IDs the worker at
      position `j` of the sorted list ends as its `Duty` for `j` leaves
      it. */
  function ManageArmySplit(cfg: Config, ws: World, pid: int): (r: World)
    requires ws.mapData.Valid()
    ensures r == ws.(units := r.units) && |r.units| == |ws.units|
    ensures forall q :: q !in Ids(Select.Filter(ws.units, WorkerOf(pid))) ==> GetUnit(r, q) == GetUnit(ws, q)
    ensures !Select.Any(ws.units, WorkerOf(pid)) ==> r == ws
    ensures UniqueUnitIds(ws) ==>
              var workers := OwnWorkers(ws, pid);
              forall j :: 0 <= j < |workers| ==>
                workers[j] in ws.units && workers[j].player == pid && workers[j].kind == Worker &&
                GetUnit(r, workers[j].id) == Some(Duty(cfg, ws, workers[j], j, SquadSize(|workers|), FindBestTarget(ws, pid)))
  {
    var workers := OwnWorkers(ws, pid);
    OwnWorkersSame(ws, pid);
    OwnWorkersStored(ws, pid);
    if |workers| == 0 then
      assert !Select.Any(ws.units, WorkerOf(pid));
      ws
    else
      assert workers[0..] == workers;
      SplitFrom(cfg, ws, workers, 0, SquadSize(|workers|), FindBestTarget(ws, pid))
  }
}
