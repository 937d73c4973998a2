/** The demonstration-analysis script for the three-headed agent
    (`analyze.py`): it names action codes and lists, for the aligned
    prefix of the source, action and target recordings, every step whose
    action is not WAIT.

    Loading a recording goes through an external library and may fail;
    a recording is modelled as an optional sequence of action codes, and
    printing as the returned rows. */
module DemoAnalysis {
  import opened Wrappers

  /** A readable action name; numbered variants keep the code. */
  datatype ActionName =
    | Wait | Attack | Move | Gather | TrainWorker | TrainSoldier
    | Build(code: int) | Unknown(code: int)

  /** `get_action_name`: tests 0, 10, 11, 12, 3, 4 and then the range
      1..9, in that order, so 3 and 4 are caught before the BUILD range. */
  function NameOf(code: int): (n: ActionName)
    ensures n == Wait <==> code == 0
    ensures n == Attack <==> code == 10
    ensures n == Move <==> code == 11
    ensures n == Gather <==> code == 12
    ensures n == TrainWorker <==> code == 3
    ensures n == TrainSoldier <==> code == 4
    ensures n.Build? <==> 1 <= code <= 9 && code != 3 && code != 4
    ensures n.Unknown? <==> code < 0 || 12 < code
    ensures n.Build? || n.Unknown? ==> n.code == code
  {
    if code == 0 then Wait
    else if code == 10 then Attack
    else if code == 11 then Move
    else if code == 12 then Gather
    else if code == 3 then TrainWorker
    else if code == 4 then TrainSoldier
    else if 1 <= code <= 9 then Build(code)
    else Unknown(code)
  }

  /** Names are faithful: distinct codes get distinct names. */
  lemma NameOfInjective(a: int, b: int)
    requires NameOf(a) == NameOf(b)
    ensures a == b
  {
  }

  function Min(a: nat, b: nat): nat
  {
    if a <= b then a else b
  }

  /** One printed row: the 1-based step, the source, the action's name and
      the target. */
  datatype Row = Row(step: nat, source: int, action: ActionName, target: int)

  /** The number of steps below `n` whose action is not WAIT. */
  function NonWait(act: seq<int>, n: nat): (c: nat)
    requires n <= |act|
    ensures c <= n
  {
    if n == 0 then 0 else NonWait(act, n - 1) + (if act[n - 1] != 0 then 1 else 0)
  }

  /** The row printed for step `i` (0-based). */
  function RowAt(src: seq<int>, act: seq<int>, tgt: seq<int>, i: nat): (r: Row)
    requires i < |src| && i < |act| && i < |tgt|
    ensures r.step == i + 1 && r.action == NameOf(act[i])
  {
    Row(i + 1, src[i], NameOf(act[i]), tgt[i])
  }

  /** Some row reports step `i` (0-based). */
  predicate Listed(rows: seq<Row>, i: nat)
  {
    exists k :: 0 <= k < |rows| && rows[k].step == i + 1
  }

  /** The rows for steps `0..n-1`: one per step whose action is not WAIT,
      in step order, each carrying that step's three codes. */
  function RowsUpTo(src: seq<int>, act: seq<int>, tgt: seq<int>, n: nat): (rows: seq<Row>)
    requires n <= |src| && n <= |act| && n <= |tgt|
    ensures |rows| == NonWait(act, n)
    ensures forall k :: 0 <= k < |rows| ==>
              1 <= rows[k].step <= n && rows[k].action != Wait && rows[k] == RowAt(src, act, tgt, rows[k].step - 1)
    ensures forall k :: 0 <= k < |rows| - 1 ==> rows[k].step < rows[k + 1].step
  {
    if n == 0 then []
    else
      var rows := RowsUpTo(src, act, tgt, n - 1);
      if act[n - 1] != 0 then rows + [RowAt(src, act, tgt, n - 1)] else rows
  }

  /** No step is dropped: every step below `n` whose action is not WAIT
      has its row. */
  lemma {:induction false} RowsCoverNonWait(src: seq<int>, act: seq<int>, tgt: seq<int>, n: nat, i: nat)
    requires n <= |src| && n <= |act| && n <= |tgt|
    requires i < n && act[i] != 0
    ensures Listed(RowsUpTo(src, act, tgt, n), i)
  {
    var rows := RowsUpTo(src, act, tgt, n - 1);
    var all := RowsUpTo(src, act, tgt, n);
    if i == n - 1 {
      assert all == rows + [RowAt(src, act, tgt, n - 1)];
      assert all[|rows|].step == n;
    } else {
      RowsCoverNonWait(src, act, tgt, n - 1, i);
      var k :| 0 <= k < |rows| && rows[k].step == i + 1;
      assert all[k] == rows[k] by {
        if act[n - 1] != 0 {
          assert all == rows + [RowAt(src, act, tgt, n - 1)];
        }
      }
    }
  }

  /** The analysis loop of `analyze_triplet_demos`: it walks the steps
      below the shortest recording's length and keeps exactly the steps
      whose action is not 0, counting them in `valid`. A failed load ends
      the analysis with no report. */
  method AnalyzeTripletDemos(src: Option<seq<int>>, act: Option<seq<int>>, tgt: Option<seq<int>>)
    returns (report: Option<(seq<Row>, nat)>)
    ensures src.None? || act.None? || tgt.None? <==> report.None?
    ensures report.Some? ==>
              var n := Min(Min(|src.value|, |act.value|), |tgt.value|);
              var (rows, valid) := report.value;
              rows == RowsUpTo(src.value, act.value, tgt.value, n) && valid == |rows|
  {
    if src.None? || act.None? || tgt.None? {
      return None;
    }
    var u, a, t := src.value, act.value, tgt.value;
    var n := Min(Min(|u|, |a|), |t|);
    var rows: seq<Row> := [];
    var valid: nat := 0;
    var i := 0;
    while i < n
      invariant 0 <= i <= n
      invariant rows == RowsUpTo(u, a, t, i)
      invariant valid == |rows|
    {
      if a[i] != 0 {
        rows := rows + [RowAt(u, a, t, i)];
        valid := valid + 1;
      }
      i := i + 1;
    }
    return Some((rows, valid));
  }
}
