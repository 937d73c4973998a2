/** The head-counts the training runners take of the world on every step,
    and the shaping rewards they pay when a tracked count moves.

    A runner remembers last step's counts and pays for the difference: a
    fall in the enemy's units, buildings or base health pays per unit lost,
    a rise in the agent's own stocks pays per unit gained, and a rise in a
    head-count pays a flat bonus. Afterwards the remembered value is
    overwritten with the current one, so a loss is paid once. */
module Census {
  import opened Types
  import opened World
  import Select
  import Bots

  // ---------------------------------------------------------------------
  // Selectors.

  /** A unit of `pid` that is not Dead. */
  function LiveUnitOf(pid: int): SimUnit -> bool
  {
    (u: SimUnit) => u.player == pid && u.state != Dead
  }

  /** A unit of `pid` and `kind` that is not Dead. */
  function LiveKindOf(pid: int, kind: UnitType): SimUnit -> bool
  {
    (u: SimUnit) => u.player == pid && u.kind == kind && u.state != Dead
  }

  function UnitOf(pid: int): SimUnit -> bool
  {
    (u: SimUnit) => u.player == pid
  }

  function BuildingOf(pid: int): SimBuilding -> bool
  {
    (b: SimBuilding) => b.player == pid
  }

  /** A unit of `kind`, whoever owns it and whatever its state. */
  function OfKind(kind: UnitType): SimUnit -> bool
  {
    (u: SimUnit) => u.kind == kind
  }

  predicate IsBaseOf(b: SimBuilding, pid: int)
  {
    b.player == pid && b.kind == Base
  }

  /** `FirstOrDefault(b => b.PlayerID == pid && b.Type == Base) != null`. */
  predicate HasBase(ws: World, pid: int)
  {
    Bots.BaseOf(ws, pid).Some?
  }

  lemma HasBaseIff(ws: World, pid: int)
    ensures HasBase(ws, pid) <==> exists i :: 0 <= i < |ws.buildings| && IsBaseOf(ws.buildings[i], pid)
  {
    if HasBase(ws, pid) {
      var b := Bots.BaseOf(ws, pid).value;
      var i :| 0 <= i < |ws.buildings| && ws.buildings[i] == b;
      assert IsBaseOf(ws.buildings[i], pid);
    } else {
      assert !Select.Any(ws.buildings, Bots.OwnKind(pid, Base));
      forall i | 0 <= i < |ws.buildings|
        ensures !IsBaseOf(ws.buildings[i], pid)
      {
        assert !Bots.OwnKind(pid, Base)(ws.buildings[i]);
      }
    }
  }

  // ---------------------------------------------------------------------
  // The enemy base's health.

  /** The loop `foreach b: if b is a Base of pid then health = b.Health`,
      which starts from 0: the health of the LAST such Base in enumeration
      order, or 0 when the player has none. */
  function LastBaseHealth(s: seq<SimBuilding>, pid: int): (h: int)
    ensures (forall i :: 0 <= i < |s| ==> !IsBaseOf(s[i], pid)) ==> h == 0
    ensures (exists i :: 0 <= i < |s| && IsBaseOf(s[i], pid)) ==>
              exists i :: 0 <= i < |s| && IsBaseOf(s[i], pid) && h == s[i].health &&
                forall j :: i < j < |s| ==> !IsBaseOf(s[j], pid)
  {
    if |s| == 0 then 0
    else if IsBaseOf(s[|s| - 1], pid) then s[|s| - 1].health
    else
      var h := LastBaseHealth(s[..|s| - 1], pid);
      assert forall i :: 0 <= i < |s| - 1 ==> s[..|s| - 1][i] == s[i];
      h
  }

  // ---------------------------------------------------------------------
  // What a runner remembers about its opponent.

  /** Enemy units alive, enemy buildings, and the enemy base's health. */
  datatype Tally = Tally(units: int, buildings: int, baseHealth: int)

  /** The opponent `enemy` as the combat reward loops count it. */
  function EnemyTally(ws: World, enemy: int): (t: Tally)
    ensures 0 <= t.units <= |ws.units| && 0 <= t.buildings <= |ws.buildings|
    ensures t.buildings == 0 ==> t.baseHealth == 0
    ensures t.units == 0 <==> forall i :: 0 <= i < |ws.units| ==> !LiveUnitOf(enemy)(ws.units[i])
  {
    var t := Tally(Select.Count(ws.units, LiveUnitOf(enemy)), Select.Count(ws.buildings, BuildingOf(enemy)),
                   LastBaseHealth(ws.buildings, enemy));
    assert t.buildings == 0 ==> forall i :: 0 <= i < |ws.buildings| ==> !IsBaseOf(ws.buildings[i], enemy) by {
      if t.buildings == 0 {
        forall i | 0 <= i < |ws.buildings|
          ensures !IsBaseOf(ws.buildings[i], enemy)
        {
          assert !BuildingOf(enemy)(ws.buildings[i]);
        }
      }
    }
    t
  }

  // ---------------------------------------------------------------------
  // Shaping payments.

  /** `if (cur < last) AddReward(rate * (last - cur))`. */
  function PayForDrop(last: int, cur: int, rate: real): (p: real)
    requires rate > 0.0
    ensures p >= 0.0
    ensures p > 0.0 <==> cur < last
    ensures cur < last ==> p / rate == (last - cur) as real
  {
    if cur < last then rate * (last - cur) as real else 0.0
  }

  /** `if (cur > last) AddReward(rate * (cur - last))`. */
  function PayForRise(last: int, cur: int, rate: real): (p: real)
    requires rate > 0.0
    ensures p >= 0.0
    ensures p > 0.0 <==> cur > last
    ensures cur > last ==> p / rate == (cur - last) as real
  {
    if cur > last then rate * (cur - last) as real else 0.0
  }

  /** `if (cur > last) AddReward(bonus)`: a flat bonus, however large the rise. */
  function Bonus(last: int, cur: int, bonus: real): (p: real)
    requires bonus > 0.0
    ensures p == 0.0 || p == bonus
    ensures p == bonus <==> cur > last
  {
    if cur > last then bonus else 0.0
  }

  /** A fall paid in two steps earns what the whole fall earns at once:
      losses are paid exactly once however the steps split them. */
  lemma DropTelescopes(a: int, b: int, c: int, rate: real)
    requires rate > 0.0
    requires c <= b <= a
    ensures PayForDrop(a, b, rate) + PayForDrop(b, c, rate) == PayForDrop(a, c, rate)
  {
  }

  /** The combat payment for the enemy's losses since `last`: `unitRate`
      per unit, `buildingRate` per building and `healthRate` per point of
      base health lost. */
  function CombatPayment(last: Tally, cur: Tally, unitRate: real, buildingRate: real, healthRate: real): (p: real)
    requires unitRate > 0.0 && buildingRate > 0.0 && healthRate > 0.0
    ensures p >= 0.0
    ensures p == 0.0 <==> cur.units >= last.units && cur.buildings >= last.buildings && cur.baseHealth >= last.baseHealth
    ensures cur.buildings < last.buildings ==> p >= buildingRate * (last.buildings - cur.buildings) as real
    ensures cur.units < last.units ==> p >= unitRate * (last.units - cur.units) as real
  {
    PayForDrop(last.units, cur.units, unitRate)
      + PayForDrop(last.buildings, cur.buildings, buildingRate)
      + PayForDrop(last.baseHealth, cur.baseHealth, healthRate)
  }

  /** Paying a run of losses step by step equals paying them at once, as
      long as no count recovers in between. */
  lemma CombatPaymentTelescopes(a: Tally, b: Tally, c: Tally, unitRate: real, buildingRate: real, healthRate: real)
    requires unitRate > 0.0 && buildingRate > 0.0 && healthRate > 0.0
    requires c.units <= b.units <= a.units
    requires c.buildings <= b.buildings <= a.buildings
    requires c.baseHealth <= b.baseHealth <= a.baseHealth
    ensures CombatPayment(a, b, unitRate, buildingRate, healthRate) + CombatPayment(b, c, unitRate, buildingRate, healthRate)
            == CombatPayment(a, c, unitRate, buildingRate, healthRate)
  {
    DropTelescopes(a.units, b.units, c.units, unitRate);
    DropTelescopes(a.buildings, b.buildings, c.buildings, buildingRate);
    DropTelescopes(a.baseHealth, b.baseHealth, c.baseHealth, healthRate);
  }
}
