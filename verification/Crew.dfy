/** Worker and resource picks shared by the scripted players: the worker a
    build order takes, the nearest resource node of a type, and the loop
    that hands an order to each unit of a list.

    An order loop reads the world as it stood when the loop began. An
    order changes only the ordered unit's task, target and path; it reads
    the map, the nodes, the buildings, the enemy's units and the ordered
    unit itself, none of which an earlier order of the loop changed. */
module Crew {
  import opened Wrappers
  import opened Types
  import opened World
  import opened Grid
  import Select

  function IsWorkerIn(s: TaskType): SimUnit -> bool
  {
    (u: SimUnit) => u.kind == Worker && u.state == s
  }

  /** The player's workers. */
  function WorkerOf(pid: int): SimUnit -> bool
  {
    (u: SimUnit) => u.player == pid && u.kind == Worker
  }

  /** The player's idle workers (what `GetIdleWorker` and the gather loops
      select). */
  function IdleWorkerOf(pid: int): SimUnit -> bool
  {
    (u: SimUnit) => u.player == pid && u.kind == Worker && u.state == Idle
  }

  /** `GetAvailableWorker`: the first idle worker, else the first gathering
      one. */
  function GetAvailableWorker(units: seq<SimUnit>): (r: Option<SimUnit>)
    ensures r.None? <==> !Select.Any(units, IsWorkerIn(Idle)) && !Select.Any(units, IsWorkerIn(Gathering))
    ensures r.Some? ==> r.value in units && r.value.kind == Worker && (r.value.state == Idle || r.value.state == Gathering)
    ensures Select.Any(units, IsWorkerIn(Idle)) ==> r.Some? && r.value.state == Idle
  {
    match Select.FirstWhere(units, IsWorkerIn(Idle))
    case Some(w) => Some(w)
    case None => Select.FirstWhere(units, IsWorkerIn(Gathering))
  }

  /** The nodes a search accepts: of type `t` (any type for `NoResource`),
      and, when `alive` is set, with something left. */
  function Matches(t: ResourceType, alive: bool): SimResource -> bool
  {
    (r: SimResource) => (t == NoResource || r.kind == t) && (!alive || r.amount > 0)
  }

  function DistFrom(pos: Int2): SimResource -> int
  {
    (r: SimResource) => DistSq(pos, r.pos)
  }

  /** `FindNearestResource`: the first node of least squared distance among
      those accepted, or none. */
  function FindNearestResource(ws: World, pos: Int2, t: ResourceType, alive: bool): (r: Option<SimResource>)
    ensures r.None? <==> !Select.Any(ws.resources, Matches(t, alive))
    ensures r.Some? ==> r.value in ws.resources && Matches(t, alive)(r.value)
    ensures r.Some? ==> forall x :: x in ws.resources && Matches(t, alive)(x) ==> DistSq(pos, r.value.pos) <= DistSq(pos, x.pos)
  {
    match Select.NearestFirst(ws.resources, Matches(t, alive), DistFrom(pos))
    case None => None
    case Some(i) => Some(ws.resources[i])
  }

  /** A gather target: the nearest node of the wanted type, else the
      nearest node of any type. */
  function GatherTarget(ws: World, pos: Int2, t: ResourceType, alive: bool): (r: Option<SimResource>)
    ensures r.None? <==> !Select.Any(ws.resources, Matches(NoResource, alive))
    ensures r.Some? ==> r.value in ws.resources && (!alive || r.value.amount > 0)
    ensures Select.Any(ws.resources, Matches(t, alive)) ==> r.Some? && (t == NoResource || r.value.kind == t)
  {
    var first := FindNearestResource(ws, pos, t, alive);
    if first.Some? then first
    else
      var any := FindNearestResource(ws, pos, NoResource, alive);
      assert any.None? ==> !Select.Any(ws.resources, Matches(NoResource, alive));
      any
  }

  /** Every node of the wanted type is also a node of "any type", so the
      fallback can only fail when the map holds no node at all. */
  lemma TypedImpliesAny(ws: World, t: ResourceType, alive: bool)
    requires Select.Any(ws.resources, Matches(t, alive))
    ensures Select.Any(ws.resources, Matches(NoResource, alive))
  {
    var i :| 0 <= i < |ws.resources| && Matches(t, alive)(ws.resources[i]);
    assert Matches(NoResource, alive)(ws.resources[i]);
  }

  /** The ids of a list of units. */
  function Ids(us: seq<SimUnit>): set<int>
  {
    set i | 0 <= i < |us| :: us[i].id
  }

  /** The ids of a list are its head's and its tail's. */
  lemma IdsCons(us: seq<SimUnit>)
    requires |us| > 0
    ensures Ids(us) == {us[0].id} + Ids(us[1..])
  {
    forall q ensures q in Ids(us) <==> q == us[0].id || q in Ids(us[1..]) {
      if q in Ids(us) && q != us[0].id {
        var i :| 0 <= i < |us| && us[i].id == q;
        assert us[1..][i - 1] == us[i];
      }
      if q in Ids(us[1..]) {
        var i :| 0 <= i < |us[1..]| && us[1..][i].id == q;
        assert us[i + 1] == us[1..][i];
      }
    }
  }

  // ---------------------------------------------------------------------
  // Order loops.

  /** An order never changes the ordered unit's ID. */
  predicate KeepsIds(squad: seq<SimUnit>, k: nat, f: (nat, SimUnit) -> SimUnit)
  {
    forall i :: 0 <= i < |squad| ==> f(k + i, squad[i]).id == squad[i].id
  }

  /** One step of an order loop: the unit `s` is written back as its order
      left it, `u`, unless the order left it as it was. */
  function WriteBack(ws: World, s: SimUnit, u: SimUnit): (r: World)
    requires u.id == s.id
    ensures r == ws.(units := r.units) && |r.units| == |ws.units|
    ensures forall q :: q != s.id ==> GetUnit(r, q) == GetUnit(ws, q)
    ensures GetUnit(ws, s.id) == Some(s) ==> GetUnit(r, s.id) == Some(u)
    ensures u == s ==> r == ws
  {
    if u == s then ws else PutUnit(ws, u)
  }

  /** What an order loop over `squad`, counting from `k`, promises of the
      world `r` it leaves behind `ws`: nothing but units changes, units
      outside the list keep their records, orders that change nobody leave
      `ws` as it was, and with distinct IDs every listed unit stored as
      listed ends exactly as its order leaves it. */
  ghost predicate Ordered(ws: World, r: World, squad: seq<SimUnit>, k: nat, f: (nat, SimUnit) -> SimUnit)
  {
    && r == ws.(units := r.units) && |r.units| == |ws.units|
    && (forall q :: q !in Ids(squad) ==> GetUnit(r, q) == GetUnit(ws, q))
    && ((forall i :: 0 <= i < |squad| ==> f(k + i, squad[i]) == squad[i]) ==> r == ws)
    && (DistinctUnitIds(squad) ==>
          forall i :: 0 <= i < |squad| && GetUnit(ws, squad[i].id) == Some(squad[i]) ==>
            GetUnit(r, squad[i].id) == Some(f(k + i, squad[i])))
  }

  /** The `foreach` of the order loops: the unit at position `k + i` of the
      loop, `squad[i]`, is written back as `f(k + i, squad[i])` leaves it;
      a unit the order leaves as it is is not written. Nothing but units
      changes, and units outside the list keep their records. With distinct
      IDs every listed unit stored as listed ends exactly as its order
      leaves it. */
  function OrderEach(ws: World, squad: seq<SimUnit>, k: nat, f: (nat, SimUnit) -> SimUnit): (r: World)
    requires KeepsIds(squad, k, f)
    ensures Ordered(ws, r, squad, k, f)
    ensures r == ws.(units := r.units) && |r.units| == |ws.units|
    ensures forall q :: q !in Ids(squad) ==> GetUnit(r, q) == GetUnit(ws, q)
    ensures (forall i :: 0 <= i < |squad| ==> f(k + i, squad[i]) == squad[i]) ==> r == ws
    ensures DistinctUnitIds(squad) ==>
              forall i :: 0 <= i < |squad| && GetUnit(ws, squad[i].id) == Some(squad[i]) ==>
                GetUnit(r, squad[i].id) == Some(f(k + i, squad[i]))
    decreases |squad|
  {
    if |squad| == 0 then ws
    else
      assert f(k + 0, squad[0]).id == squad[0].id;
      var ws1 := WriteBack(ws, squad[0], f(k, squad[0]));
      ShiftedSquad(squad, k, f);
      var r := OrderEach(ws1, squad[1..], k + 1, f);
      OrderStep(ws, ws1, r, squad, k, f);
      r
  }

  /** The rest of a loop is the loop from the next position on. */
  lemma ShiftedSquad(squad: seq<SimUnit>, k: nat, f: (nat, SimUnit) -> SimUnit)
    requires |squad| > 0 && KeepsIds(squad, k, f)
    ensures KeepsIds(squad[1..], k + 1, f)
    ensures (forall i :: 0 <= i < |squad| ==> f(k + i, squad[i]) == squad[i]) ==>
              (forall i :: 0 <= i < |squad[1..]| ==> f(k + 1 + i, squad[1..][i]) == squad[1..][i])
    ensures DistinctUnitIds(squad) ==> DistinctUnitIds(squad[1..]) && squad[0].id !in Ids(squad[1..])
  {
    assert forall i :: 0 <= i < |squad[1..]| ==> squad[1..][i] == squad[i + 1] && k + 1 + i == k + (i + 1);
    IdsCons(squad);
  }

  /** The induction step of `OrderEach`: what the first write and the rest
      of the loop each promise adds up to what the whole loop promises. */
  lemma OrderStep(ws: World, ws1: World, r: World, squad: seq<SimUnit>, k: nat, f: (nat, SimUnit) -> SimUnit)
    requires |squad| > 0 && KeepsIds(squad, k, f)
    requires ws1 == ws.(units := ws1.units) && |ws1.units| == |ws.units|
    requires forall q :: q != squad[0].id ==> GetUnit(ws1, q) == GetUnit(ws, q)
    requires GetUnit(ws, squad[0].id) == Some(squad[0]) ==> GetUnit(ws1, squad[0].id) == Some(f(k, squad[0]))
    requires f(k, squad[0]) == squad[0] ==> ws1 == ws
    requires Ordered(ws1, r, squad[1..], k + 1, f)
    ensures Ordered(ws, r, squad, k, f)
  {
    IdsCons(squad);
    ShiftedSquad(squad, k, f);
    if forall i :: 0 <= i < |squad| ==> f(k + i, squad[i]) == squad[i] {
      assert f(k + 0, squad[0]) == squad[0];
    }
    forall q | q !in Ids(squad) ensures GetUnit(r, q) == GetUnit(ws, q) {
      assert q != squad[0].id && q !in Ids(squad[1..]);
    }
    if DistinctUnitIds(squad) {
      forall i | 0 <= i < |squad| && GetUnit(ws, squad[i].id) == Some(squad[i])
        ensures GetUnit(r, squad[i].id) == Some(f(k + i, squad[i]))
      {
        if i == 0 {
          assert GetUnit(r, squad[0].id) == GetUnit(ws1, squad[0].id);
          assert f(k + 0, squad[0]) == f(k, squad[0]);
        } else {
          assert squad[1..][i - 1] == squad[i] && k + 1 + (i - 1) == k + i;
          assert squad[i].id != squad[0].id;
        }
      }
    }
  }

  /** An order loop whose order does not depend on the position: each
      listed unit stored as listed ends as `g` leaves it. */
  function OrderAll(ws: World, squad: seq<SimUnit>, g: SimUnit -> SimUnit): (r: World)
    requires forall i :: 0 <= i < |squad| ==> g(squad[i]).id == squad[i].id
    ensures r == ws.(units := r.units) && |r.units| == |ws.units|
    ensures forall q :: q !in Ids(squad) ==> GetUnit(r, q) == GetUnit(ws, q)
    ensures (forall i :: 0 <= i < |squad| ==> g(squad[i]) == squad[i]) ==> r == ws
    ensures DistinctUnitIds(squad) ==>
              forall s :: s in squad && GetUnit(ws, s.id) == Some(s) ==> GetUnit(r, s.id) == Some(g(s))
  {
    var f := (i: nat, s: SimUnit) => g(s);
    assert KeepsIds(squad, 0, f);
    var r := OrderEach(ws, squad, 0, f);
    assert DistinctUnitIds(squad) ==>
             forall s :: s in squad && GetUnit(ws, s.id) == Some(s) ==> GetUnit(r, s.id) == Some(g(s)) by {
      if DistinctUnitIds(squad) {
        forall s | s in squad && GetUnit(ws, s.id) == Some(s) ensures GetUnit(r, s.id) == Some(g(s)) {
          var i :| 0 <= i < |squad| && squad[i] == s;
          assert f(0 + i, squad[i]) == g(s);
        }
      }
    }
    r
  }

  /** Filtering keeps IDs distinct. */
  lemma {:induction false} FilterDistinct(us: seq<SimUnit>, p: SimUnit -> bool)
    requires DistinctUnitIds(us)
    ensures DistinctUnitIds(Select.Filter(us, p))
  {
    if |us| > 0 {
      assert DistinctUnitIds(us[1..]) by {
        forall i, j | 0 <= i < j < |us[1..]| ensures us[1..][i].id != us[1..][j].id {
          assert us[1..][i] == us[i + 1] && us[1..][j] == us[j + 1];
        }
      }
      FilterDistinct(us[1..], p);
      var rest := Select.Filter(us[1..], p);
      forall x | x in rest ensures x.id != us[0].id {
        var k :| 0 <= k < |us[1..]| && us[1..][k] == x;
        assert us[k + 1] == x;
      }
      if p(us[0]) {
        var f := [us[0]] + rest;
        forall i, j | 0 <= i < j < |f| ensures f[i].id != f[j].id {
          if i == 0 {
            assert f[j] == rest[j - 1] && rest[j - 1] in rest;
          } else {
            assert f[i] == rest[i - 1] && f[j] == rest[j - 1];
          }
        }
      }
    }
  }

  /** The units a filter selects from a world with unique IDs have
      distinct IDs, and each is the record stored under its ID: what an
      order loop over them needs. */
  lemma FilterStored(ws: World, p: SimUnit -> bool)
    ensures UniqueUnitIds(ws) ==> DistinctUnitIds(Select.Filter(ws.units, p))
    ensures UniqueUnitIds(ws) ==>
              forall u :: u in Select.Filter(ws.units, p) <==> u in ws.units && p(u) && GetUnit(ws, u.id) == Some(u)
  {
    if UniqueUnitIds(ws) {
      FilterDistinct(ws.units, p);
      forall u | u in ws.units ensures GetUnit(ws, u.id) == Some(u) {
        SameIdSameUnit(ws, GetUnit(ws, u.id).value, u);
      }
    }
  }

  /** A unit listed twice is counted twice. */
  lemma TwiceListed(s: seq<SimUnit>, i: nat, j: nat)
    requires i < j < |s| && s[i] == s[j]
    ensures multiset(s)[s[i]] >= 2
  {
    assert s == s[..j] + s[j..];
    assert s[i] in s[..j] && s[j] in s[j..];
  }

  /** With distinct IDs no unit is counted twice. */
  lemma {:induction false} ListedOnce(s: seq<SimUnit>, x: SimUnit)
    requires DistinctUnitIds(s)
    ensures multiset(s)[x] <= 1
  {
    if |s| > 0 {
      assert s == [s[0]] + s[1..];
      assert DistinctUnitIds(s[1..]) by {
        forall i, j | 0 <= i < j < |s[1..]| ensures s[1..][i].id != s[1..][j].id {
          assert s[1..][i] == s[i + 1] && s[1..][j] == s[j + 1];
        }
      }
      ListedOnce(s[1..], x);
      if s[0] == x {
        assert x !in s[1..] by {
          forall k | 0 <= k < |s[1..]| ensures s[1..][k] != x {
            assert s[1..][k] == s[k + 1];
          }
        }
      }
    }
  }

  /** A reordering of a list with distinct IDs has distinct IDs. */
  lemma PermutedDistinct(s: seq<SimUnit>, r: seq<SimUnit>)
    requires multiset(r) == multiset(s) && DistinctUnitIds(s)
    ensures DistinctUnitIds(r)
  {
    forall i, j | 0 <= i < j < |r| ensures r[i].id != r[j].id {
      if r[i] == r[j] {
        TwiceListed(r, i, j);
        ListedOnce(s, r[i]);
      } else {
        assert r[i] in multiset(s) && r[j] in multiset(s);
        var a :| 0 <= a < |s| && s[a] == r[i];
        var b :| 0 <= b < |s| && s[b] == r[j];
        assert a != b;
      }
    }
  }
}
