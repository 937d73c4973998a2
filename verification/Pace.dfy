/** The decision throttle every scripted player runs in `Update`: the frame
    time accumulates, and once it reaches the decision interval a decision
    is made and the clock restarts at zero. */
module Pace {

  /** One `Update(dt)`: whether a decision is due, and the new clock. */
  function Throttle(timer: real, dt: real, interval: real): (r: (bool, real))
    ensures r.0 <==> timer + dt >= interval
    ensures r.0 ==> r.1 == 0.0
    ensures !r.0 ==> r.1 == timer + dt && r.1 < interval
  {
    var t := timer + dt;
    if t < interval then (false, t) else (true, 0.0)
  }

  function Sum(dts: seq<real>): real
  {
    if |dts| == 0 then 0.0 else dts[0] + Sum(dts[1..])
  }

  predicate NonNegative(dts: seq<real>)
  {
    forall i :: 0 <= i < |dts| ==> dts[i] >= 0.0
  }

  /** The number of decisions a run of frames makes from clock `timer`. */
  function Decisions(timer: real, dts: seq<real>, interval: real): (n: nat)
    ensures n <= |dts|
    decreases |dts|
  {
    if |dts| == 0 then 0
    else
      var r := Throttle(timer, dts[0], interval);
      (if r.0 then 1 else 0) + Decisions(r.1, dts[1..], interval)
  }

  /** The arithmetic of one frame of `DecisionsRationed`. */
  lemma FrameStep(act: bool, n: nat, interval: real, timer: real, dt: real, rest: real)
    requires act ==> interval <= timer + dt && n as real * interval <= rest
    requires !act ==> n as real * interval <= timer + dt + rest
    ensures (if act then 1 + n else n) as real * interval <= timer + dt + rest
  {
    if act {
      assert (1 + n) as real * interval == interval + n as real * interval;
    }
  }

  /** Decisions are rationed by elapsed time: from a fresh clock, `n`
      decisions need at least `n` intervals of frame time. */
  lemma {:induction false} DecisionsRationed(timer: real, dts: seq<real>, interval: real)
    requires timer >= 0.0 && NonNegative(dts)
    ensures Decisions(timer, dts, interval) as real * interval <= timer + Sum(dts)
    decreases |dts|
  {
    if |dts| > 0 {
      var r := Throttle(timer, dts[0], interval);
      assert NonNegative(dts[1..]) by {
        forall i | 0 <= i < |dts[1..]| ensures dts[1..][i] >= 0.0 {
          assert dts[1..][i] == dts[i + 1];
        }
      }
      DecisionsRationed(r.1, dts[1..], interval);
      var n := Decisions(r.1, dts[1..], interval);
      assert Decisions(timer, dts, interval) == if r.0 then 1 + n else n;
      assert Sum(dts) == dts[0] + Sum(dts[1..]);
      FrameStep(r.0, Decisions(r.1, dts[1..], interval), interval, timer, dts[0], Sum(dts[1..]));
    }
  }
}
