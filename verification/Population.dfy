/** The population ledger: a player's `CurrentPopulation` is meant to equal
    the number of units the player owns. Spawning and killing a unit keep
    the two in step, and so does every step of the unit machine; a tower
    kill does not. */
module Population {
  import opened Wrappers
  import opened Types
  import opened World
  import opened Resources
  import opened Grid
  import opened Buildings
  import opened Units
  import opened Config
  import SimMath
  import Select

  /** The number of units player `pid` owns. */
  function OwnedCount(ws: World, pid: int): nat
  {
    Select.Count(ws.units, OwnedBy(pid))
  }

  /** Every player's population equals its unit count. */
  ghost predicate Accounted(ws: World)
  {
    forall pid :: GetPlayer(ws, pid).Some? ==> GetPlayer(ws, pid).value.curPop == OwnedCount(ws, pid)
  }

  // ---------------------------------------------------------------------
  // Counting.

  lemma CountCons(h: SimUnit, t: seq<SimUnit>, pid: int)
    ensures Select.Count([h] + t, OwnedBy(pid)) == (if h.player == pid then 1 else 0) + Select.Count(t, OwnedBy(pid))
  {
    assert ([h] + t)[1..] == t;
  }

  /** Rosters with the same owners have the same counts. */
  lemma {:induction false} RosterCount(s: seq<SimUnit>, t: seq<SimUnit>, pid: int)
    requires SameRoster(s, t)
    ensures Select.Count(s, OwnedBy(pid)) == Select.Count(t, OwnedBy(pid))
    decreases |s|
  {
    if |s| > 0 {
      assert SameRoster(s[1..], t[1..]) by {
        forall i | 0 <= i < |s[1..]| ensures s[1..][i].id == t[1..][i].id && s[1..][i].player == t[1..][i].player {
          assert s[1..][i] == s[i + 1] && t[1..][i] == t[i + 1];
        }
      }
      RosterCount(s[1..], t[1..], pid);
      assert s == [s[0]] + s[1..] && t == [t[0]] + t[1..];
      CountCons(s[0], s[1..], pid);
      CountCons(t[0], t[1..], pid);
    }
  }

  /** Rosters with the same IDs are alike in the distinctness of them. */
  lemma RosterDistinct(s: seq<SimUnit>, t: seq<SimUnit>)
    requires SameRoster(s, t)
    ensures DistinctUnitIds(s) <==> DistinctUnitIds(t)
  {
  }

  /** The tail of a roster with distinct IDs has distinct IDs. */
  lemma DistinctTail(s: seq<SimUnit>)
    requires |s| > 0 && DistinctUnitIds(s)
    ensures DistinctUnitIds(s[1..])
    ensures forall i :: 0 <= i < |s[1..]| ==> s[1..][i].id != s[0].id
  {
    forall i, j | 0 <= i < j < |s[1..]| ensures s[1..][i].id != s[1..][j].id {
      assert s[1..][i] == s[i + 1] && s[1..][j] == s[j + 1];
    }
    forall i | 0 <= i < |s[1..]| ensures s[1..][i].id != s[0].id {
      assert s[1..][i] == s[i + 1];
    }
  }

  /** Appending a unit counts it for its owner only. */
  lemma {:induction false} CountAppend(s: seq<SimUnit>, x: SimUnit, pid: int)
    ensures Select.Count(s + [x], OwnedBy(pid)) == Select.Count(s, OwnedBy(pid)) + (if x.player == pid then 1 else 0)
    decreases |s|
  {
    if |s| == 0 {
      CountCons(x, [], pid);
      assert [] + [x] == [x] + [];
    } else {
      CountAppend(s[1..], x, pid);
      assert s + [x] == [s[0]] + (s[1..] + [x]);
      assert s == [s[0]] + s[1..];
      CountCons(s[0], s[1..] + [x], pid);
      CountCons(s[0], s[1..], pid);
    }
  }

  /** Removing an ID no unit has removes nothing. */
  lemma {:induction false} FilterAbsent(s: seq<SimUnit>, id: int)
    requires forall i :: 0 <= i < |s| ==> s[i].id != id
    ensures Select.Filter(s, NotId(id)) == s
    decreases |s|
  {
    if |s| > 0 {
      FilterAbsent(s[1..], id);
      assert s == [s[0]] + s[1..];
    }
  }

  /** Removing a unit with unique ID lowers its owner's count by one and no
      other count, and the remaining IDs stay distinct. */
  lemma {:induction false} CountWithout(s: seq<SimUnit>, u: SimUnit, pid: int)
    requires DistinctUnitIds(s) && u in s
    ensures Select.Count(Select.Filter(s, NotId(u.id)), OwnedBy(pid)) == Select.Count(s, OwnedBy(pid)) - (if u.player == pid then 1 else 0)
    ensures DistinctUnitIds(Select.Filter(s, NotId(u.id)))
    decreases |s|
  {
    var h, t := s[0], s[1..];
    assert s == [h] + t;
    CountCons(h, t, pid);
    DistinctTail(s);
    if h.id == u.id {
      var k :| 0 <= k < |s| && s[k] == u;
      assert k == 0;
      FilterAbsent(t, u.id);
    } else {
      assert u in t;
      CountWithout(t, u, pid);
      var f := Select.Filter(t, NotId(u.id));
      assert Select.Filter(s, NotId(u.id)) == [h] + f;
      CountCons(h, f, pid);
      ConsDistinct(h, t, f);
    }
  }

  /** Putting a unit in front of a sub-roster of the rest keeps IDs
      distinct. */
  lemma ConsDistinct(h: SimUnit, t: seq<SimUnit>, f: seq<SimUnit>)
    requires DistinctUnitIds(f) && forall i :: 0 <= i < |t| ==> t[i].id != h.id
    requires forall x :: x in f ==> x in t
    ensures DistinctUnitIds([h] + f)
  {
    forall i, j | 0 <= i < j < |[h] + f| ensures ([h] + f)[i].id != ([h] + f)[j].id {
      if i == 0 {
        assert ([h] + f)[j] == f[j - 1] && f[j - 1] in f;
        var m :| 0 <= m < |t| && t[m] == f[j - 1];
      } else {
        assert ([h] + f)[i] == f[i - 1] && ([h] + f)[j] == f[j - 1];
      }
    }
  }

  // ---------------------------------------------------------------------
  // Spawning and killing.

  /** A kill keeps the ledger: the owner loses the unit and one population. */
  lemma KillKeepsAccounting(ws: World, u: SimUnit)
    requires ws.mapData.Valid() && Accounted(ws) && UniqueUnitIds(ws) && u in ws.units
    ensures Accounted(KillUnit(ws, u).1) && UniqueUnitIds(KillUnit(ws, u).1)
  {
    var r := KillUnit(ws, u).1;
    assert r.units == Select.Filter(ws.units, NotId(u.id));
    forall pid | GetPlayer(r, pid).Some?
      ensures GetPlayer(r, pid).value.curPop == OwnedCount(r, pid)
    {
      CountWithout(ws.units, u, pid);
      if pid == u.player {
        assert Select.Any(ws.units, OwnedBy(pid)) by {
          var k :| 0 <= k < |ws.units| && ws.units[k] == u;
          assert OwnedBy(pid)(ws.units[k]);
        }
      }
    }
    CountWithout(ws.units, u, u.player);
  }

  /** A spawn keeps the ledger: the owner gains the unit and one population. */
  lemma SpawnKeepsAccounting(ws: World, basePos: Int2, t: UnitType, pid: int)
    requires ws.mapData.Valid() && Accounted(ws)
    ensures Accounted(SpawnUnit(ws, basePos, t, pid))
  {
    var r := SpawnUnit(ws, basePos, t, pid);
    if HasPopulationSpace(ws, pid) && FindWalkableNeighbor(ws, basePos).Some? {
      var spot := FindWalkableNeighbor(ws, basePos).value;
      forall q | GetPlayer(r, q).Some?
        ensures GetPlayer(r, q).value.curPop == OwnedCount(r, q)
      {
        CountAppend(ws.units, NewUnit(ws.idCounter, pid, t, spot), q);
      }
    }
  }

  /** A tower kill leaves the victim's owner with one population more than
      units: the ledger is broken. */
  lemma TowerKillLeaks(ws: World, u: SimUnit, damage: int)
    requires ws.mapData.Valid() && Accounted(ws) && UniqueUnitIds(ws) && u in ws.units
    requires GetPlayer(ws, u.player).Some? && u.health - damage <= 0
    ensures var r := ShootUnit(ws, u, damage);
            GetPlayer(r, u.player).value.curPop == OwnedCount(r, u.player) + 1
    ensures !Accounted(ShootUnit(ws, u, damage))
  {
    var r := ShootUnit(ws, u, damage);
    assert r.units == Select.Filter(ws.units, NotId(u.id));
    CountWithout(ws.units, u, u.player);
    assert Select.Any(ws.units, OwnedBy(u.player)) by {
      var k :| 0 <= k < |ws.units| && ws.units[k] == u;
      assert OwnedBy(u.player)(ws.units[k]);
    }
  }

  // ---------------------------------------------------------------------
  // The unit machine.

  /** Players listed alike, with alike populations, are found alike. */
  lemma HeadcountLookup(ws: World, r: World, pid: int)
    requires SameHeadcounts(ws.players, r.players)
    ensures GetPlayer(r, pid).Some? <==> GetPlayer(ws, pid).Some?
    ensures GetPlayer(ws, pid).Some? ==> GetPlayer(r, pid).value.curPop == GetPlayer(ws, pid).value.curPop
  {
    Select.IndexOfKeySameKeys(ws.players, r.players, PlayerKey, pid);
  }

  /** The ledger survives any change that keeps the roster and every
      player's population. */
  lemma LedgerCarries(ws: World, r: World)
    requires Accounted(ws) && UniqueUnitIds(ws)
    requires SameRoster(ws.units, r.units) && SameHeadcounts(ws.players, r.players)
    ensures Accounted(r) && UniqueUnitIds(r)
  {
    forall pid | GetPlayer(r, pid).Some?
      ensures GetPlayer(r, pid).value.curPop == OwnedCount(r, pid)
    {
      HeadcountLookup(ws, r, pid);
      RosterCount(ws.units, r.units, pid);
    }
    RosterDistinct(ws.units, r.units);
  }

  /** Storing a unit back under its ID, with its owner unchanged, keeps the
      ledger. */
  lemma PutUnitLedger(ws: World, v: SimUnit)
    requires Accounted(ws) && UniqueUnitIds(ws)
    requires GetUnit(ws, v.id).Some? ==> GetUnit(ws, v.id).value.player == v.player
    ensures Accounted(PutUnit(ws, v)) && UniqueUnitIds(PutUnit(ws, v))
  {
    if GetUnit(ws, v.id).Some? {
      LedgerCarries(ws, PutUnit(ws, v));
    }
  }

  lemma StrikeLedger(ws: World, id: int, damage: int)
    requires ws.mapData.Valid() && Accounted(ws) && UniqueUnitIds(ws)
    ensures Accounted(Strike(ws, id, damage)) && UniqueUnitIds(Strike(ws, id, damage))
  {
    if GetUnit(ws, id).Some? {
      StrikeUnitLedger(ws, id, damage);
    } else {
      LedgerCarries(ws, Strike(ws, id, damage));
    }
  }

  lemma StrikeUnitLedger(ws: World, id: int, damage: int)
    requires ws.mapData.Valid() && Accounted(ws) && UniqueUnitIds(ws)
    requires GetUnit(ws, id).Some?
    ensures Accounted(Strike(ws, id, damage)) && UniqueUnitIds(Strike(ws, id, damage))
  {
    if GetUnit(ws, id).value.health - damage <= 0 {
      StrikeKillLedger(ws, id, damage);
    } else {
      StrikeWoundLedger(ws, id, damage);
    }
  }

  lemma StrikeKillLedger(ws: World, id: int, damage: int)
    requires ws.mapData.Valid() && Accounted(ws) && UniqueUnitIds(ws)
    requires GetUnit(ws, id).Some? && GetUnit(ws, id).value.health - damage <= 0
    ensures Accounted(Strike(ws, id, damage)) && UniqueUnitIds(Strike(ws, id, damage))
  {
    StrikeKills(ws, id, damage);
    KillKeepsAccounting(ws, GetUnit(ws, id).value);
  }

  lemma StrikeWoundLedger(ws: World, id: int, damage: int)
    requires ws.mapData.Valid() && Accounted(ws) && UniqueUnitIds(ws)
    requires GetUnit(ws, id).Some? && GetUnit(ws, id).value.health - damage > 0
    ensures Accounted(Strike(ws, id, damage)) && UniqueUnitIds(Strike(ws, id, damage))
  {
    var e := GetUnit(ws, id).value;
    StrikeWounds(ws, id, damage);
    PutUnitLedger(ws, e.(health := e.health - damage));
  }

  lemma StrikeKills(ws: World, id: int, damage: int)
    requires ws.mapData.Valid() && GetUnit(ws, id).Some? && GetUnit(ws, id).value.health - damage <= 0
    ensures Strike(ws, id, damage) == KillUnit(ws, GetUnit(ws, id).value).1
  {
  }

  lemma StrikeWounds(ws: World, id: int, damage: int)
    requires ws.mapData.Valid() && GetUnit(ws, id).Some? && GetUnit(ws, id).value.health - damage > 0
    ensures Strike(ws, id, damage) == PutUnit(ws, GetUnit(ws, id).value.(health := GetUnit(ws, id).value.health - damage))
  {
    var e := GetUnit(ws, id).value;
    var e1 := e.(health := e.health - damage);
    assert !(e1.health <= 0);
  }

  lemma CombatLedger(ws: World, u: SimUnit, dt: real, draw: real)
    requires ws.mapData.Valid() && Accounted(ws) && UniqueUnitIds(ws)
    requires GetUnit(ws, u.id) == Some(u)
    ensures Accounted(UpdateCombat(ws, u, dt, draw)) && UniqueUnitIds(UpdateCombat(ws, u, dt, draw))
  {
    if TargetLost(ws, u) {
      CombatLostLedger(ws, u, dt, draw);
    } else if !InRange(u.pos, TargetCell(ws, u), u.attackRange) {
      CombatChaseLedger(ws, u, dt, draw);
    } else if u.attackTimer + dt < u.attackSpeed {
      CombatWaitLedger(ws, u, dt, draw);
    } else {
      CombatStrikeLedger(ws, u, dt, draw);
    }
  }

  lemma CombatLostLedger(ws: World, u: SimUnit, dt: real, draw: real)
    requires ws.mapData.Valid() && Accounted(ws) && UniqueUnitIds(ws)
    requires GetUnit(ws, u.id) == Some(u) && TargetLost(ws, u)
    ensures Accounted(UpdateCombat(ws, u, dt, draw)) && UniqueUnitIds(UpdateCombat(ws, u, dt, draw))
  {
    PutUnitLedger(ws, u.(state := Idle, targetId := -1));
  }

  lemma CombatChaseLedger(ws: World, u: SimUnit, dt: real, draw: real)
    requires ws.mapData.Valid() && Accounted(ws) && UniqueUnitIds(ws)
    requires GetUnit(ws, u.id) == Some(u) && !TargetLost(ws, u) && !InRange(u.pos, TargetCell(ws, u), u.attackRange)
    ensures Accounted(UpdateCombat(ws, u, dt, draw)) && UniqueUnitIds(UpdateCombat(ws, u, dt, draw))
  {
    PutUnitLedger(ws, MoveToTarget(ws, u.(state := Idle), TargetCell(ws, u), GetUnit(ws, u.targetId).None?, draw));
  }

  lemma CombatWaitLedger(ws: World, u: SimUnit, dt: real, draw: real)
    requires ws.mapData.Valid() && Accounted(ws) && UniqueUnitIds(ws)
    requires GetUnit(ws, u.id) == Some(u) && !TargetLost(ws, u) && InRange(u.pos, TargetCell(ws, u), u.attackRange)
    requires u.attackTimer + dt < u.attackSpeed
    ensures Accounted(UpdateCombat(ws, u, dt, draw)) && UniqueUnitIds(UpdateCombat(ws, u, dt, draw))
  {
    var v := u.(attackTimer := u.attackTimer + dt);
    WaitIsPut(ws, u, dt, draw);
    PutUnitLedger(ws, v);
  }

  /** A unit in range that is still reloading only advances its timer. */
  lemma WaitIsPut(ws: World, u: SimUnit, dt: real, draw: real)
    requires ws.mapData.Valid()
    requires !TargetLost(ws, u) && InRange(u.pos, TargetCell(ws, u), u.attackRange)
    requires u.attackTimer + dt < u.attackSpeed
    ensures UpdateCombat(ws, u, dt, draw) == PutUnit(ws, u.(attackTimer := u.attackTimer + dt))
  {
  }

  lemma CombatStrikeLedger(ws: World, u: SimUnit, dt: real, draw: real)
    requires ws.mapData.Valid() && Accounted(ws) && UniqueUnitIds(ws)
    requires GetUnit(ws, u.id) == Some(u)
    requires !TargetLost(ws, u) && InRange(u.pos, TargetCell(ws, u), u.attackRange) && u.attackTimer + dt >= u.attackSpeed
    ensures Accounted(UpdateCombat(ws, u, dt, draw)) && UniqueUnitIds(UpdateCombat(ws, u, dt, draw))
  {
    var w1 := PutUnit(ws, u.(attackTimer := 0.0));
    PutUnitLedger(ws, u.(attackTimer := 0.0));
    StrikeLedger(w1, u.targetId, u.damage);
  }

  /** Every step of the unit machine keeps the population ledger and the
      uniqueness of unit IDs. */
  lemma UpdateUnitKeepsLedger(ws: World, id: int, dt: real, draw: real)
    requires ws.mapData.Valid() && Accounted(ws) && UniqueUnitIds(ws)
    ensures Accounted(UpdateUnit(ws, id, dt, draw)) && UniqueUnitIds(UpdateUnit(ws, id, dt, draw))
  {
    match GetUnit(ws, id)
    case None =>
    case Some(u) =>
      match u.state
      case Moving => LedgerCarries(ws, UpdateMovement(ws, u, dt, draw));
      case Gathering => LedgerCarries(ws, UpdateGathering(ws, u, dt));
      case Building => LedgerCarries(ws, UpdateConstruction(ws, u, dt));
      case Attacking => CombatLedger(ws, u, dt, draw);
      case _ =>
  }
}
