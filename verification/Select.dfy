/** Queries over the simulation's ID-keyed dictionaries.

    A dictionary of entities is modelled as the sequence of its entries in
    the order they were added, and enumerated in that order; a removal
    closes the gap, so a later addition goes to the end. `FirstOrDefault`
    is the first entry satisfying a predicate, `Count(p)` counts entries,
    and a "nearest" loop that keeps the running best under a strict `<`
    returns the first entry of minimal distance, while one that uses `<=`
    returns the last. */
module Select {
  import opened Wrappers

  /** Index of the first entry satisfying `p`. */
  function FirstIndex<T>(s: seq<T>, p: T -> bool): (r: Option<nat>)
    ensures r.None? <==> forall i :: 0 <= i < |s| ==> !p(s[i])
    ensures r.Some? ==> r.value < |s| && p(s[r.value])
    ensures r.Some? ==> forall i :: 0 <= i < r.value ==> !p(s[i])
  {
    if |s| == 0 then None
    else if p(s[0]) then Some(0)
    else
      match FirstIndex(s[1..], p)
      case None => None
      case Some(i) => Some(i + 1)
  }

  /** The first entry satisfying `p`, if any. */
  function FirstWhere<T>(s: seq<T>, p: T -> bool): (r: Option<T>)
    ensures r.None? <==> forall i :: 0 <= i < |s| ==> !p(s[i])
    ensures r.Some? ==> exists i :: 0 <= i < |s| && s[i] == r.value && p(s[i])
  {
    match FirstIndex(s, p)
    case None => None
    case Some(i) => Some(s[i])
  }

  predicate Any<T>(s: seq<T>, p: T -> bool)
  {
    exists i :: 0 <= i < |s| && p(s[i])
  }

  /** The entries satisfying `p`, in enumeration order. */
  function Filter<T(!new)>(s: seq<T>, p: T -> bool): (r: seq<T>)
    ensures |r| <= |s|
    ensures forall i :: 0 <= i < |r| ==> p(r[i])
    ensures forall x :: x in r <==> x in s && p(x)
  {
    if |s| == 0 then []
    else
      assert forall x :: x in s <==> x == s[0] || x in s[1..];
      if p(s[0]) then [s[0]] + Filter(s[1..], p) else Filter(s[1..], p)
  }

  /** `Count(p)` over the entries. */
  function Count<T>(s: seq<T>, p: T -> bool): (n: nat)
    ensures n <= |s|
    ensures n == 0 <==> !Any(s, p)
  {
    if |s| == 0 then 0
    else
      assert forall i :: 1 <= i < |s| ==> s[i] == s[1..][i - 1];
      (if p(s[0]) then 1 else 0) + Count(s[1..], p)
  }

  /** The loop `foreach e: if p(e) && d(e) < bestDist then best = e` from
      index `i` on, with `best` the running choice. */
  function ScanStrict<T>(s: seq<T>, p: T -> bool, d: T -> int, i: nat, best: Option<nat>): (r: Option<nat>)
    requires i <= |s|
    requires best.Some? ==> best.value < i && p(s[best.value])
    ensures r.Some? ==> r.value < |s| && p(s[r.value])
    ensures best.Some? ==> r.Some? && d(s[r.value]) <= d(s[best.value])
    ensures r.Some? ==> forall j :: i <= j < |s| && p(s[j]) ==> d(s[r.value]) <= d(s[j])
    ensures r.Some? && r.value >= i ==> forall j :: i <= j < r.value && p(s[j]) ==> d(s[r.value]) < d(s[j])
    ensures r.Some? && r.value >= i ==> best.None? || d(s[r.value]) < d(s[best.value])
    ensures r.Some? && r.value < i ==> r == best
    ensures r.None? <==> best.None? && forall j :: i <= j < |s| ==> !p(s[j])
    decreases |s| - i
  {
    if i == |s| then best
    else
      var best' := if p(s[i]) && (best.None? || d(s[i]) < d(s[best.value])) then Some(i) else best;
      ScanStrict(s, p, d, i + 1, best')
  }

  /** Nearest entry satisfying `p` under a strict `<` scan: minimal distance,
      and no earlier entry has that distance. */
  function NearestFirst<T>(s: seq<T>, p: T -> bool, d: T -> int): (r: Option<nat>)
    ensures r.None? <==> !Any(s, p)
    ensures r.Some? ==> r.value < |s| && p(s[r.value])
    ensures r.Some? ==> forall j :: 0 <= j < |s| && p(s[j]) ==> d(s[r.value]) <= d(s[j])
    ensures r.Some? ==> forall j :: 0 <= j < r.value && p(s[j]) ==> d(s[r.value]) < d(s[j])
  {
    ScanStrict(s, p, d, 0, None)
  }

  /** The same loop with `<=`: a later entry at equal distance replaces the
      running choice. */
  function ScanLoose<T>(s: seq<T>, p: T -> bool, d: T -> int, i: nat, best: Option<nat>): (r: Option<nat>)
    requires i <= |s|
    requires best.Some? ==> best.value < i && p(s[best.value])
    ensures r.Some? ==> r.value < |s| && p(s[r.value])
    ensures best.Some? ==> r.Some? && d(s[r.value]) <= d(s[best.value])
    ensures r.Some? ==> forall j :: i <= j < |s| && p(s[j]) ==> d(s[r.value]) <= d(s[j])
    ensures r.Some? && r.value >= i ==> forall j :: r.value < j < |s| && p(s[j]) ==> d(s[r.value]) < d(s[j])
    ensures r.Some? && r.value < i ==> r == best && forall j :: i <= j < |s| && p(s[j]) ==> d(s[r.value]) < d(s[j])
    ensures r.None? <==> best.None? && forall j :: i <= j < |s| ==> !p(s[j])
    decreases |s| - i
  {
    if i == |s| then best
    else
      var best' := if p(s[i]) && (best.None? || d(s[i]) <= d(s[best.value])) then Some(i) else best;
      ScanLoose(s, p, d, i + 1, best')
  }

  /** Nearest entry satisfying `p` under a `<=` scan: minimal distance, and
      no later entry has that distance. */
  function NearestLast<T>(s: seq<T>, p: T -> bool, d: T -> int): (r: Option<nat>)
    ensures r.None? <==> !Any(s, p)
    ensures r.Some? ==> r.value < |s| && p(s[r.value])
    ensures r.Some? ==> forall j :: 0 <= j < |s| && p(s[j]) ==> d(s[r.value]) <= d(s[j])
    ensures r.Some? ==> forall j :: r.value < j < |s| && p(s[j]) ==> d(s[r.value]) < d(s[j])
  {
    ScanLoose(s, p, d, 0, None)
  }

  // ---------------------------------------------------------------------
  // Lookup by key: `dict.TryGetValue(k)`, where `key` reads an entry's ID.

  /** Index of the entry whose key is `k` (the first one, should keys repeat). */
  function IndexOfKey<T>(s: seq<T>, key: T -> int, k: int): (r: Option<nat>)
    ensures r.None? <==> forall i :: 0 <= i < |s| ==> key(s[i]) != k
    ensures r.Some? ==> r.value < |s| && key(s[r.value]) == k
    ensures r.Some? ==> forall i :: 0 <= i < r.value ==> key(s[i]) != k
  {
    if |s| == 0 then None
    else if key(s[0]) == k then Some(0)
    else
      match IndexOfKey(s[1..], key, k)
      case None => None
      case Some(i) => Some(i + 1)
  }

  /** Two dictionaries with the same keys in the same order find every key
      at the same index. */
  lemma IndexOfKeySameKeys<T>(s: seq<T>, t: seq<T>, key: T -> int, k: int)
    requires |s| == |t|
    requires forall i :: 0 <= i < |s| ==> key(s[i]) == key(t[i])
    ensures IndexOfKey(s, key, k) == IndexOfKey(t, key, k)
  {
  }

  /** Replacing an entry by one with the same key moves no key. */
  lemma IndexOfKeyUpdate<T>(s: seq<T>, key: T -> int, k: int, i: nat, x: T)
    requires i < |s| && key(x) == key(s[i])
    ensures IndexOfKey(s[i := x], key, k) == IndexOfKey(s, key, k)
  {
    IndexOfKeySameKeys(s[i := x], s, key, k);
  }

  /** Appending an entry finds it under its key when no earlier entry has
      that key, and moves no other key. */
  lemma {:induction false} IndexOfKeyAppend<T>(s: seq<T>, key: T -> int, k: int, x: T)
    ensures IndexOfKey(s + [x], key, k)
            == if IndexOfKey(s, key, k).Some? then IndexOfKey(s, key, k)
               else if key(x) == k then Some(|s|) else None
  {
    if |s| > 0 {
      assert (s + [x])[1..] == s[1..] + [x];
      IndexOfKeyAppend(s[1..], key, k, x);
    }
  }
}
