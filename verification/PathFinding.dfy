/** The bounded A* search over eight-neighbour moves (`FindPath`) and the
    path reconstruction that follows the came-from links back to the start.

    Every step costs 1 and the heuristic is the Manhattan distance to the
    goal. The search state is the open list (in insertion order, ties in
    f-score broken by the earlier entry), the came-from links and the g- and
    f-scores. The world does not change during a search. */
module PathFinding {
  import opened Wrappers
  import opened Types
  import opened World
  import opened Grid
  import Select

  const SafetyLoop: nat := 3000
  const IntMax: int := 0x7FFF_FFFF

  datatype SearchState = SearchState(
    open: seq<Int2>, came: map<Int2, Int2>, g: map<Int2, int>, f: map<Int2, int>)

  /** The search invariant: g-scores are non-negative, the start has score 0
      and no link, every other scored cell has a link to a scored adjacent
      parent of strictly smaller score, linked cells passed the walkability
      test (or are the goal), and everything open is scored. */
  ghost predicate Inv(ws: World, start: Int2, end: Int2, st: SearchState)
  {
    && ws.mapData.Valid()
    && start in st.g && st.g[start] == 0 && start !in st.came
    && (forall k :: k in st.g ==> st.g[k] >= 0)
    && (forall k :: k in st.g ==> k == start || k in st.came)
    && (forall k :: k in st.came ==> k in st.g && st.came[k] in st.g && st.g[st.came[k]] < st.g[k])
    && (forall k :: k in st.came ==> Adjacent(st.came[k], k))
    && (forall k :: k in st.came ==> IsWalkable(ws, k) || k == end)
    && (forall k :: k in st.came ==> ws.mapData.InBounds(k))
    && (forall k :: k in st.came ==> k in st.f && st.f[k] == st.g[k] + Manhattan(k, end))
    && (forall x :: x in st.open ==> x in st.g && x in st.f)
  }

  /** A path the search may return: it is non-empty, ends at the goal,
      avoids the start, moves by king's moves from the start, stays in
      bounds, and every cell before the goal is walkable. */
  ghost predicate PathShape(ws: World, start: Int2, end: Int2, p: seq<Int2>)
    requires ws.mapData.Valid()
  {
    && |p| > 0
    && p[|p| - 1] == end
    && start !in p
    && Adjacent(start, p[0])
    && (forall i :: 0 <= i < |p| - 1 ==> Adjacent(p[i], p[i + 1]))
    && (forall i :: 0 <= i < |p| ==> ws.mapData.InBounds(p[i]))
    && (forall i :: 0 <= i < |p| - 1 ==> IsWalkable(ws, p[i]))
  }

  // ---------------------------------------------------------------------
  // Path reconstruction.

  /** The came-from chain from `cur` back to the start: `cur` first. */
  function Trace(ws: World, start: Int2, end: Int2, st: SearchState, cur: Int2): (t: seq<Int2>)
    requires Inv(ws, start, end, st) && cur in st.g
    ensures |t| >= 1 && t[0] == cur && t[|t| - 1] == start
    ensures forall i :: 0 <= i < |t| - 1 ==> t[i] in st.came && st.came[t[i]] == t[i + 1]
    ensures forall i :: 0 <= i < |t| ==> t[i] in st.g
    ensures forall i, j :: 0 <= i < j < |t| ==> st.g[t[j]] < st.g[t[i]]
    decreases st.g[cur]
  {
    if cur !in st.came then [cur]
    else
      var rest := Trace(ws, start, end, st, st.came[cur]);
      [cur] + rest
  }

  function Reverse<T>(s: seq<T>): (r: seq<T>)
    ensures |r| == |s|
    ensures forall i :: 0 <= i < |s| ==> r[i] == s[|s| - 1 - i]
  {
    if |s| == 0 then [] else Reverse(s[1..]) + [s[0]]
  }

  /** `ReconstructPath`: the chain reversed (start first), without the start. */
  function ReconstructPath(ws: World, start: Int2, end: Int2, st: SearchState, cur: Int2): (p: seq<Int2>)
    requires Inv(ws, start, end, st) && cur in st.g
    ensures cur != start ==> |p| >= 1 && p[|p| - 1] == cur
    ensures forall i :: 0 <= i < |p| ==> p[i] in st.came
  {
    var total := Reverse(Trace(ws, start, end, st, cur));
    if |total| > 0 then total[1..] else total
  }

  /** Reversing a came-from chain and dropping its first cell (the start)
      gives a forward chain: each cell's link is its predecessor, and the
      scores rise along it. */
  lemma ChainReversed(t: seq<Int2>, came: map<Int2, Int2>, g: map<Int2, int>)
    requires |t| >= 2
    requires forall i :: 0 <= i < |t| - 1 ==> t[i] in came && came[t[i]] == t[i + 1]
    requires forall i :: 0 <= i < |t| ==> t[i] in g
    requires forall i, j :: 0 <= i < j < |t| ==> g[t[j]] < g[t[i]]
    ensures var p := Reverse(t)[1..];
            && |p| == |t| - 1 && p[|p| - 1] == t[0] && t[|t| - 1] !in p
            && (forall i :: 0 <= i < |p| ==> p[i] in came && p[i] in g)
            && came[p[0]] == t[|t| - 1]
            && (forall i :: 0 <= i < |p| - 1 ==> came[p[i + 1]] == p[i])
            && (forall i :: 0 <= i < |p| - 1 ==> g[p[i]] < g[t[0]])
  {
    var n := |t|;
    var p := Reverse(t)[1..];
    assert forall i :: 0 <= i < |p| ==> p[i] == t[n - 2 - i];
  }

  /** The reconstructed path to the goal has the shape of a path. */
  lemma ReconstructShape(ws: World, start: Int2, end: Int2, st: SearchState)
    requires Inv(ws, start, end, st) && end in st.g && end != start
    ensures PathShape(ws, start, end, ReconstructPath(ws, start, end, st, end))
  {
    var t := Trace(ws, start, end, st, end);
    ChainReversed(t, st.came, st.g);
    var p := ReconstructPath(ws, start, end, st, end);
    assert p == Reverse(t)[1..];
    forall i | 0 <= i < |p| - 1
      ensures IsWalkable(ws, p[i])
    {
      assert p[i] != end;
    }
  }

  // ---------------------------------------------------------------------
  // One expansion.

  /** `List.Remove`: drop the first occurrence. */
  function RemoveFirst(s: seq<Int2>, x: Int2): (r: seq<Int2>)
    ensures forall y :: y in r ==> y in s
    ensures x in s ==> |r| == |s| - 1
    ensures x !in s ==> r == s
  {
    if |s| == 0 then []
    else if s[0] == x then s[1..]
    else [s[0]] + RemoveFirst(s[1..], x)
  }

  function FScore(f: map<Int2, int>, x: Int2): int
  {
    if x in f then f[x] else IntMax
  }

  /** The open cell with the least f-score; the earliest one among equals. */
  function SelectCurrent(st: SearchState): (r: Int2)
    requires |st.open| > 0
    ensures r in st.open
    ensures forall x :: x in st.open ==> FScore(st.f, r) <= FScore(st.f, x)
  {
    var i := Select.NearestFirst(st.open, (x: Int2) => true, (x: Int2) => FScore(st.f, x)).value;
    st.open[i]
  }

  /** Relax one neighbour `nb` of `cur` (the body of the neighbour loop):
      scores only fall, the open list only grows, the current cell keeps its
      score, and an admissible neighbour ends with a score of at most one
      more than the current cell's, entering the open list if it was new. */
  function RelaxOne(ws: World, end: Int2, cur: Int2, nb: Int2, st: SearchState): (r: SearchState)
    requires ws.mapData.Valid() && cur in st.g
    ensures cur in r.g && r.g[cur] == st.g[cur]
    ensures forall k :: k in st.g ==> k in r.g && r.g[k] <= st.g[k]
    ensures forall x :: x in st.open ==> x in r.open
    ensures IsWalkable(ws, nb) || nb == end ==> nb in r.g && r.g[nb] <= st.g[cur] + 1
    ensures (IsWalkable(ws, nb) || nb == end) && nb !in st.g ==> nb in r.open
    ensures forall x :: x in r.open ==> x in st.open || x == nb
    ensures !IsWalkable(ws, nb) && nb != end ==> r == st
  {
    if !IsWalkable(ws, nb) && nb != end then st
    else
      var tentative := st.g[cur] + 1;
      if nb !in st.g || tentative < st.g[nb] then
        SearchState(
          if nb in st.open then st.open else st.open + [nb],
          st.came[nb := cur],
          st.g[nb := tentative],
          st.f[nb := tentative + Manhattan(nb, end)])
      else st
  }

  /** Relaxing keeps every link pointing to a strictly smaller score. */
  lemma RelaxOneKeepsOrder(ws: World, start: Int2, end: Int2, cur: Int2, nb: Int2, st: SearchState)
    requires Inv(ws, start, end, st) && cur in st.g
    ensures var r := RelaxOne(ws, end, cur, nb, st);
            forall k :: k in r.came ==> k in r.g && r.came[k] in r.g && r.g[r.came[k]] < r.g[k]
  {
    var r := RelaxOne(ws, end, cur, nb, st);
    var t := st.g[cur] + 1;
    if (IsWalkable(ws, nb) || nb == end) && (nb !in st.g || t < st.g[nb]) {
      forall k | k in r.came
        ensures k in r.g && r.came[k] in r.g && r.g[r.came[k]] < r.g[k]
      {
        if k != nb && st.came[k] == nb {
          assert r.g[nb] == t < st.g[nb];
        }
      }
    }
  }

  /** Relaxing keeps the start scored 0 and unlinked, scores non-negative,
      every scored cell other than the start linked, and the open cells
      scored. */
  lemma RelaxOneKeepsScores(ws: World, start: Int2, end: Int2, cur: Int2, nb: Int2, st: SearchState)
    requires Inv(ws, start, end, st) && cur in st.g && Adjacent(cur, nb)
    ensures var r := RelaxOne(ws, end, cur, nb, st);
            && start in r.g && r.g[start] == 0 && start !in r.came
            && (forall k :: k in r.g ==> r.g[k] >= 0)
            && (forall k :: k in r.g ==> k == start || k in r.came)
            && (forall x :: x in r.open ==> x in r.g && x in r.f)
  {
    var t := st.g[cur] + 1;
    if (IsWalkable(ws, nb) || nb == end) && (nb !in st.g || t < st.g[nb]) {
      assert nb != start;
    }
  }

  /** Relaxing keeps every link a king's move onto an admissible in-bounds
      cell whose f-score is its g-score plus the heuristic. */
  lemma RelaxOneKeepsLinks(ws: World, start: Int2, end: Int2, cur: Int2, nb: Int2, st: SearchState)
    requires Inv(ws, start, end, st) && cur in st.g && Adjacent(cur, nb)
    requires ws.mapData.InBounds(end)
    ensures var r := RelaxOne(ws, end, cur, nb, st);
            && (forall k :: k in r.came ==> Adjacent(r.came[k], k))
            && (forall k :: k in r.came ==> IsWalkable(ws, k) || k == end)
            && (forall k :: k in r.came ==> ws.mapData.InBounds(k))
            && (forall k :: k in r.came ==> k in r.f && r.f[k] == r.g[k] + Manhattan(k, end))
  {
  }

  lemma RelaxOnePreserves(ws: World, start: Int2, end: Int2, cur: Int2, nb: Int2, st: SearchState)
    requires Inv(ws, start, end, st) && cur in st.g && Adjacent(cur, nb)
    requires ws.mapData.InBounds(end)
    ensures Inv(ws, start, end, RelaxOne(ws, end, cur, nb, st))
  {
    RelaxOneKeepsOrder(ws, start, end, cur, nb, st);
    RelaxOneKeepsScores(ws, start, end, cur, nb, st);
    RelaxOneKeepsLinks(ws, start, end, cur, nb, st);
  }

  /** The whole neighbour loop: the facts of `RelaxOne` for every neighbour. */
  function RelaxAll(ws: World, end: Int2, cur: Int2, nbs: seq<Int2>, st: SearchState): (r: SearchState)
    requires ws.mapData.Valid() && cur in st.g
    ensures cur in r.g && r.g[cur] == st.g[cur]
    ensures forall k :: k in st.g ==> k in r.g && r.g[k] <= st.g[k]
    ensures forall x :: x in st.open ==> x in r.open
    ensures forall nb :: nb in nbs && (IsWalkable(ws, nb) || nb == end) ==>
              nb in r.g && r.g[nb] <= st.g[cur] + 1
    ensures forall nb :: nb in nbs && (IsWalkable(ws, nb) || nb == end) && nb !in st.g ==>
              nb in r.open
    ensures forall x :: x in r.open ==> x in st.open || x in nbs
    decreases |nbs|
  {
    if |nbs| == 0 then st
    else
      var st1 := RelaxOne(ws, end, cur, nbs[0], st);
      var r := RelaxAll(ws, end, cur, nbs[1..], st1);
      assert forall nb :: nb in nbs ==> nb == nbs[0] || nb in nbs[1..];
      r
  }

  lemma {:induction false} RelaxAllPreserves(ws: World, start: Int2, end: Int2, cur: Int2, nbs: seq<Int2>, st: SearchState)
    requires Inv(ws, start, end, st) && cur in st.g
    requires ws.mapData.InBounds(end)
    requires forall i :: 0 <= i < |nbs| ==> Adjacent(cur, nbs[i])
    ensures Inv(ws, start, end, RelaxAll(ws, end, cur, nbs, st))
    decreases |nbs|
  {
    if |nbs| > 0 {
      RelaxOnePreserves(ws, start, end, cur, nbs[0], st);
      RelaxAllPreserves(ws, start, end, cur, nbs[1..], RelaxOne(ws, end, cur, nbs[0], st));
    }
  }

  // ---------------------------------------------------------------------
  // The main loop.

  /** The `while` loop with `fuel` iterations of the safety counter left. */
  function Search(ws: World, start: Int2, end: Int2, st: SearchState, fuel: nat): (p: seq<Int2>)
    requires Inv(ws, start, end, st) && ws.mapData.InBounds(end) && start != end
    ensures p == [] || PathShape(ws, start, end, p)
    decreases fuel
  {
    if |st.open| == 0 || fuel == 0 then []
    else
      var cur := SelectCurrent(st);
      if cur == end then
        ReconstructShape(ws, start, end, st);
        ReconstructPath(ws, start, end, st, cur)
      else
        var st1 := st.(open := RemoveFirst(st.open, cur));
        assert Inv(ws, start, end, st1);
        var st2 := RelaxAll(ws, end, cur, Neighbors(cur), st1);
        RelaxAllPreserves(ws, start, end, cur, Neighbors(cur), st1);
        Search(ws, start, end, st2, fuel - 1)
  }

  function InitialState(start: Int2, end: Int2): SearchState
  {
    SearchState([start], map[], map[start := 0], map[start := Manhattan(start, end)])
  }

  /** `FindPath`: empty when an end point is off the map or the two
      coincide; otherwise a search of at most 3000 iterations whose result,
      if non-empty, is a king's-move path from next to the start up to the
      goal through walkable cells. */
  function FindPath(ws: World, start: Int2, end: Int2): (p: seq<Int2>)
    requires ws.mapData.Valid()
    ensures !ws.mapData.InBounds(start) || !ws.mapData.InBounds(end) || start == end ==> p == []
    ensures p == [] || PathShape(ws, start, end, p)
  {
    if !ws.mapData.InBounds(start) || !ws.mapData.InBounds(end) then []
    else if start == end then []
    else Search(ws, start, end, InitialState(start, end), SafetyLoop)
  }

  /** The state after the first iteration, which expands the start. */
  function FirstExpansion(ws: World, start: Int2, end: Int2): (st: SearchState)
    requires ws.mapData.Valid()
  {
    RelaxAll(ws, end, start, Neighbors(start), InitialState(start, end).(open := []))
  }

  /** The initial state satisfies the invariant. */
  lemma InitialInv(ws: World, start: Int2, end: Int2)
    requires ws.mapData.Valid()
    ensures Inv(ws, start, end, InitialState(start, end))
  {
  }

  lemma FirstIteration(ws: World, start: Int2, end: Int2)
    requires ws.mapData.Valid() && ws.mapData.InBounds(start) && ws.mapData.InBounds(end) && start != end
    ensures Inv(ws, start, end, FirstExpansion(ws, start, end))
    ensures FindPath(ws, start, end) == Search(ws, start, end, FirstExpansion(ws, start, end), SafetyLoop - 1)
    ensures forall x :: x in FirstExpansion(ws, start, end).open ==> x in Neighbors(start)
  {
    var st0 := InitialState(start, end);
    InitialInv(ws, start, end);
    assert SelectCurrent(st0) == start;
    assert RemoveFirst(st0.open, start) == [];
    assert Inv(ws, start, end, st0.(open := []));
    RelaxAllPreserves(ws, start, end, start, Neighbors(start), st0.(open := []));
  }

  /** Under the invariant, only the start has score 0. */
  lemma OnlyStartScoresZero(ws: World, start: Int2, end: Int2, st: SearchState, k: Int2)
    requires Inv(ws, start, end, st) && k in st.g && k != start
    ensures k in st.came && st.g[k] >= 1
    ensures k in st.f && st.f[k] == st.g[k] + Manhattan(k, end)
  {
    assert st.g[st.came[k]] >= 0;
  }

  /** After the first iteration an adjacent goal is open, scored 1 and
      linked to the start. */
  lemma AdjacentGoalOpened(ws: World, start: Int2, end: Int2)
    requires ws.mapData.Valid() && ws.mapData.InBounds(start) && ws.mapData.InBounds(end)
    requires Adjacent(start, end)
    ensures var st := FirstExpansion(ws, start, end);
            && end in st.open && end in st.came && st.came[end] == start
            && end in st.f && st.f[end] == 1
  {
    FirstIteration(ws, start, end);
    var st := FirstExpansion(ws, start, end);
    assert end in Neighbors(start);
    OnlyStartScoresZero(ws, start, end, st, end);
    var parent := st.came[end];
    assert parent == start by {
      if parent != start { OnlyStartScoresZero(ws, start, end, st, parent); }
    }
    assert Manhattan(end, end) == 0;
  }

  /** After the first iteration every other open cell scores more than 1. */
  lemma OthersScoreMore(ws: World, start: Int2, end: Int2)
    requires ws.mapData.Valid() && ws.mapData.InBounds(start) && ws.mapData.InBounds(end)
    requires start != end
    ensures var st := FirstExpansion(ws, start, end);
            forall x :: x in st.open && x != end ==> FScore(st.f, x) > 1
  {
    FirstIteration(ws, start, end);
    var st := FirstExpansion(ws, start, end);
    forall x | x in st.open && x != end
      ensures FScore(st.f, x) > 1
    {
      assert x != start;
      OnlyStartScoresZero(ws, start, end, st, x);
      ManhattanMetric(x, end, end);
    }
  }

  /** An adjacent goal is the cell the second iteration selects. */
  lemma AdjacentGoalSelected(ws: World, start: Int2, end: Int2)
    requires ws.mapData.Valid() && ws.mapData.InBounds(start) && ws.mapData.InBounds(end)
    requires Adjacent(start, end)
    ensures |FirstExpansion(ws, start, end).open| > 0
    ensures SelectCurrent(FirstExpansion(ws, start, end)) == end
  {
    AdjacentGoalOpened(ws, start, end);
    OthersScoreMore(ws, start, end);
  }

  /** A goal one king's move from the start is found in the second
      iteration, and the path is that single step. */
  lemma AdjacentGoal(ws: World, start: Int2, end: Int2)
    requires ws.mapData.Valid() && ws.mapData.InBounds(start) && ws.mapData.InBounds(end)
    requires Adjacent(start, end)
    ensures FindPath(ws, start, end) == [end]
  {
    FirstIteration(ws, start, end);
    AdjacentGoalSelected(ws, start, end);
    AdjacentGoalOpened(ws, start, end);
    var st := FirstExpansion(ws, start, end);
    assert FindPath(ws, start, end) == ReconstructPath(ws, start, end, st, end);
    OneLinkTrace(ws, start, end, st);
  }

  /** A cell linked straight to the start traces back in one step. */
  lemma OneLinkTrace(ws: World, start: Int2, end: Int2, st: SearchState)
    requires Inv(ws, start, end, st) && end in st.came && st.came[end] == start
    ensures ReconstructPath(ws, start, end, st, end) == [end]
  {
    assert Trace(ws, start, end, st, start) == [start];
    assert Trace(ws, start, end, st, end) == [end, start];
    ReversePair(end, start);
  }

  lemma ReversePair<T>(a: T, b: T)
    ensures Reverse([a, b]) == [b, a]
  {
    assert [a, b][1..] == [b];
    assert Reverse([b]) == [b] by { assert [b][1..] == []; }
  }
}
