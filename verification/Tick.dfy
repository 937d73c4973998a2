/** One simulation tick as the runners drive it: the building pass, then
    every unit present after it, in enumeration order, each with its own
    random draw. The tick counter advances by one; no system reads it, so
    the model sets it after the passes. */
module Tick {
  import opened World
  import opened Buildings
  import opened Units
  import opened Population

  /** The IDs of a roster, in order (`Units.Keys.ToList()`). */
  function UnitIds(s: seq<SimUnit>): (ids: seq<int>)
    ensures |ids| == |s|
    ensures forall i :: 0 <= i < |s| ==> ids[i] == s[i].id
  {
    seq(|s|, i requires 0 <= i < |s| => s[i].id)
  }

  /** The draw for the `i`-th unit of the pass (0.0 past the supplied ones). */
  function DrawAt(draws: seq<real>, i: nat): real
  {
    if i < |draws| then draws[i] else 0.0
  }

  /** The unit pass from position `i` of the ID snapshot on. A unit killed
      earlier in the pass is no longer found and is skipped. */
  function UpdateUnitsFrom(ws: World, ids: seq<int>, i: nat, dt: real, draws: seq<real>): (r: World)
    requires ws.mapData.Valid() && i <= |ids|
    ensures r.mapData.Valid()
    ensures i == |ids| ==> r == ws
    decreases |ids| - i
  {
    if i == |ids| then ws
    else UpdateUnitsFrom(UpdateUnit(ws, ids[i], dt, DrawAt(draws, i)), ids, i + 1, dt, draws)
  }

  /** The pass over the units present when it starts. */
  function UpdateAllUnits(ws: World, dt: real, draws: seq<real>): (r: World)
    requires ws.mapData.Valid()
    ensures r.mapData.Valid()
    ensures ws.units == [] ==> r == ws
  {
    UpdateUnitsFrom(ws, UnitIds(ws.units), 0, dt, draws)
  }

  /** A whole tick: buildings, then units; the counter grows by exactly one. */
  function Advance(ws: World, dt: real, draws: seq<real>): (r: World)
    requires ws.mapData.Valid()
    ensures r.mapData.Valid()
    ensures r.tick == ws.tick + 1
  {
    var w := UpdateAllUnits(UpdateAllBuildings(ws, dt), dt, draws);
    w.(tick := ws.tick + 1)
  }

  /** The unit pass keeps the population ledger and unit-ID uniqueness,
      whatever the draws. */
  lemma {:induction false} UnitPassKeepsLedger(ws: World, ids: seq<int>, i: nat, dt: real, draws: seq<real>)
    requires ws.mapData.Valid() && i <= |ids|
    requires Accounted(ws) && UniqueUnitIds(ws)
    ensures Accounted(UpdateUnitsFrom(ws, ids, i, dt, draws)) && UniqueUnitIds(UpdateUnitsFrom(ws, ids, i, dt, draws))
    decreases |ids| - i
  {
    if i < |ids| {
      var w := UpdateUnit(ws, ids[i], dt, DrawAt(draws, i));
      UpdateUnitKeepsLedger(ws, ids[i], dt, DrawAt(draws, i));
      UnitPassKeepsLedger(w, ids, i + 1, dt, draws);
    }
  }

  lemma AllUnitsKeepLedger(ws: World, dt: real, draws: seq<real>)
    requires ws.mapData.Valid() && Accounted(ws) && UniqueUnitIds(ws)
    ensures Accounted(UpdateAllUnits(ws, dt, draws)) && UniqueUnitIds(UpdateAllUnits(ws, dt, draws))
  {
    UnitPassKeepsLedger(ws, UnitIds(ws.units), 0, dt, draws);
  }
}
