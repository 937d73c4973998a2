/** The tabular state code shared by the two Q-learning environments: a
    resource amount becomes the index of the highest threshold it reaches,
    and four such levels pack into one table row
    `wood * 16 + stone * 4 + meat * 2 + pop`. */
module StateCode {

  /** The index of the highest threshold among `t[0..k]` that `v` reaches,
      scanning down from `k - 1`; 0 when it reaches none. */
  function ReachedBelow(v: int, t: seq<int>, k: nat): (i: nat)
    requires k <= |t|
    ensures k == 0 ==> i == 0
    ensures k > 0 ==> i < k
    ensures forall j :: i < j < k ==> v < t[j]
    ensures (exists j :: 0 <= j < k && v >= t[j]) ==> v >= t[i]
    ensures (forall j :: 0 <= j < k ==> v < t[j]) ==> i == 0
    decreases k
  {
    if k == 0 then 0
    else if v >= t[k - 1] then k - 1
    else ReachedBelow(v, t, k - 1)
  }

  /** `GetThresholdIndex`: the largest `i` with `v >= t[i]`, or 0. */
  function ThresholdIndex(v: int, t: seq<int>): (i: nat)
    requires |t| > 0
    ensures i < |t|
    ensures forall j :: i < j < |t| ==> v < t[j]
    ensures v >= t[i] || forall j :: 0 <= j < |t| ==> v < t[j]
    ensures (forall j :: 0 <= j < |t| ==> v < t[j]) ==> i == 0
  {
    ReachedBelow(v, t, |t|)
  }

  /** A larger amount never reaches a lower level. */
  lemma ThresholdMonotone(v: int, w: int, t: seq<int>)
    requires |t| > 0 && v <= w
    ensures ThresholdIndex(v, t) <= ThresholdIndex(w, t)
  {
  }

  /** The four levels a state packs. */
  datatype Levels = Levels(wood: nat, stone: nat, meat: nat, pop: nat)

  /** The ranges the 64-row table is laid out for: four wood and stone
      levels, two meat and population levels. */
  predicate Fits(l: Levels)
  {
    l.wood < 4 && l.stone < 4 && l.meat < 2 && l.pop < 2
  }

  function Encode(l: Levels): int
  {
    l.wood * 16 + l.stone * 4 + l.meat * 2 + l.pop
  }

  /** The levels a table row stands for. */
  function Decode(n: nat): (l: Levels)
  {
    Levels(n / 16, (n % 16) / 4, (n % 4) / 2, n % 2)
  }

  /** Within the ranges, a code lies in [0, 64) and gives its levels back:
      distinct levels have distinct rows. */
  lemma EncodeDecode(l: Levels)
    requires Fits(l)
    ensures 0 <= Encode(l) < 64
    ensures Decode(Encode(l)) == l
  {
    var n := Encode(l);
    var low := l.stone * 4 + l.meat * 2 + l.pop;
    assert n / 16 == l.wood && n % 16 == low;
    assert low / 4 == l.stone;
    assert n % 4 == l.meat * 2 + l.pop;
    assert (l.meat * 2 + l.pop) / 2 == l.meat;
    assert n % 2 == l.pop;
  }

  /** Every row of the table is the code of levels within the ranges. */
  lemma DecodeEncode(n: nat)
    requires n < 64
    ensures Fits(Decode(n))
    ensures Encode(Decode(n)) == n
  {
    assert n == (n / 16) * 16 + ((n % 16) / 4) * 4 + ((n % 4) / 2) * 2 + n % 2;
  }

  /** Distinct levels within the ranges give distinct codes. */
  lemma EncodeInjective(l: Levels, m: Levels)
    requires Fits(l) && Fits(m) && Encode(l) == Encode(m)
    ensures l == m
  {
    EncodeDecode(l);
    EncodeDecode(m);
  }
}
