/** The triplet scan over a flattened demonstration (`analyze_triplets.py`):
    the recorded discrete actions are one stream of numbers, and the scan
    looks for source/action/target triples in it by taking every value in
    1..12 as an action, its left neighbour as the source and its right
    neighbour as the target. After a hit it skips the target.

    Loading the recording goes through an external library and may fail;
    the stream is modelled as an optional sequence, and printing as the
    returned triplets. */
module TripletScan {
  import opened Wrappers
  import opened DemoAnalysis

  /** One printed line: the running order (from 1), the source, the
      action's name, the target, and the stream position of the action. */
  datatype Triplet = Triplet(order: nat, source: int, action: ActionName, target: int, index: int)

  /** A value the scan accepts as an action. */
  predicate IsAction(v: int)
  {
    1 <= v <= 12
  }

  /** The label chain tests 10, 11, 12, 3, 4 and then 1..9, the same order
      as the demo analysis, and it is only reached for an action value, so
      the action names are the demo analysis's names and never WAIT or
      unknown. */
  lemma ActionNamesAreKnown(v: int)
    requires IsAction(v)
    ensures NameOf(v) != Wait && !NameOf(v).Unknown?
  {
  }

  /** The stream positions reported by `rows`. */
  function Indexes(rows: seq<Triplet>): (s: set<int>)
  {
    set k | 0 <= k < |rows| :: rows[k].index
  }

  /** Each triplet is read from the stream around an action value at its
      index, and the orders run 1, 2, 3, ... */
  ghost predicate Faithful(a: seq<int>, rows: seq<Triplet>)
  {
    forall k :: 0 <= k < |rows| ==>
      var j := rows[k].index;
      1 <= j && j + 1 < |a| && IsAction(a[j]) && rows[k].order == k + 1
      && rows[k].source == a[j - 1] && rows[k].action == NameOf(a[j]) && rows[k].target == a[j + 1]
  }

  /** Reported positions are at least two apart, so no action is the
      target of the triplet before it. */
  ghost predicate Spaced(rows: seq<Triplet>)
  {
    forall k :: 0 <= k < |rows| - 1 ==> rows[k].index + 2 <= rows[k + 1].index
  }

  /** Below `i`, every action value that has a right neighbour is reported,
      or sits right after a reported position (it was skipped as a target). */
  ghost predicate CoveredBelow(a: seq<int>, rows: seq<Triplet>, i: int)
  {
    forall j :: 1 <= j < i && j + 1 < |a| && IsAction(a[j]) ==>
      j in Indexes(rows) || j - 1 in Indexes(rows)
  }

  lemma IndexesAppend(rows: seq<Triplet>, t: Triplet)
    ensures Indexes(rows + [t]) == Indexes(rows) + {t.index}
  {
    var r := rows + [t];
    forall x | x in Indexes(r)
      ensures x in Indexes(rows) + {t.index}
    {
      var k :| 0 <= k < |r| && r[k].index == x;
      if k < |rows| {
        assert rows[k] == r[k];
      }
    }
    forall x | x in Indexes(rows) + {t.index}
      ensures x in Indexes(r)
    {
      if x == t.index {
        assert r[|rows|] == t;
      } else {
        var k :| 0 <= k < |rows| && rows[k].index == x;
        assert r[k] == rows[k];
      }
    }
  }

  /** The scan's state before position `i`: `rows` is the report so far. */
  ghost predicate ScannedUpTo(a: seq<int>, rows: seq<Triplet>, i: int)
  {
    1 <= i && (i <= |a| || i == 1)
    && Faithful(a, rows) && Spaced(rows)
    && (forall k :: 0 <= k < |rows| ==> rows[k].index < i)
    && (rows != [] ==> rows[|rows| - 1].index + 2 <= i)
    && CoveredBelow(a, rows, i)
    && 2 * |rows| <= i - 1
  }

  /** The triplet reported for the action at position `i`. */
  function TripletAt(a: seq<int>, rows: seq<Triplet>, i: int): (t: Triplet)
    requires 1 <= i && i + 1 < |a|
    ensures t.index == i && t.order == |rows| + 1
  {
    Triplet(|rows| + 1, a[i - 1], NameOf(a[i]), a[i + 1], i)
  }

  /** Reporting the action at `i` and jumping past its target keeps the
      scan state. */
  lemma ReportKeepsState(a: seq<int>, rows: seq<Triplet>, i: int)
    requires ScannedUpTo(a, rows, i) && i + 1 < |a| && IsAction(a[i])
    ensures ScannedUpTo(a, rows + [TripletAt(a, rows, i)], i + 2)
  {
    var t := TripletAt(a, rows, i);
    var r := rows + [t];
    IndexesAppend(rows, t);
    forall k | 0 <= k < |r|
      ensures r[k].index < i + 2
    {
      if k < |rows| { assert r[k] == rows[k]; }
    }
    assert Faithful(a, r) by {
      forall k | 0 <= k < |r|
        ensures 1 <= r[k].index && r[k].index + 1 < |a| && IsAction(a[r[k].index]) && r[k].order == k + 1
        ensures r[k].source == a[r[k].index - 1] && r[k].action == NameOf(a[r[k].index])
        ensures r[k].target == a[r[k].index + 1]
      {
        if k < |rows| { assert r[k] == rows[k]; }
      }
    }
    assert Spaced(r) by {
      forall k | 0 <= k < |r| - 1
        ensures r[k].index + 2 <= r[k + 1].index
      {
        assert r[k] == rows[k];
        if k + 1 < |rows| { assert r[k + 1] == rows[k + 1]; }
      }
    }
  }

  /** Stepping over a non-action keeps the scan state. */
  lemma SkipKeepsState(a: seq<int>, rows: seq<Triplet>, i: int)
    requires ScannedUpTo(a, rows, i) && i + 1 < |a| && !IsAction(a[i])
    ensures ScannedUpTo(a, rows, i + 1)
  {
  }

  /** `analyze_rts_demo`'s scan: from position 1 while a right neighbour
      exists, an action value is reported together with its neighbours and
      the scan jumps two places; anything else moves it one place. The
      result is exactly the greedy left-to-right choice: every reported
      value is an action, reported positions are never adjacent, and an
      unreported action value always follows a reported one. A failed load
      gives no report. */
  method AnalyzeRtsDemo(actions: Option<seq<int>>) returns (report: Option<seq<Triplet>>)
    ensures actions.None? <==> report.None?
    ensures report.Some? ==> Faithful(actions.value, report.value)
    ensures report.Some? ==> Spaced(report.value)
    ensures report.Some? ==> CoveredBelow(actions.value, report.value, |actions.value|)
    ensures report.Some? ==> 2 * |report.value| <= |actions.value| - 1 || report.value == []
  {
    if actions.None? {
      return None;
    }
    var a := actions.value;
    var rows: seq<Triplet> := [];
    var i := 1;
    while i < |a| - 1
      invariant ScannedUpTo(a, rows, i)
      decreases |a| - i
    {
      if IsAction(a[i]) {
        ReportKeepsState(a, rows, i);
        rows := rows + [TripletAt(a, rows, i)];
        i := i + 2;
      } else {
        SkipKeepsState(a, rows, i);
        i := i + 1;
      }
    }
    return Some(rows);
  }
}
