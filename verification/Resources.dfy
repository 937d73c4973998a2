/** The per-player stock and population ledger. */
module Resources {
  import opened Wrappers
  import opened Types
  import opened World
  import opened Config

  /** The stock of one resource type; None has no stock. */
  function Stock(p: SimPlayer, t: ResourceType): int
  {
    match t
    case Wood => p.wood
    case Stone => p.stone
    case Meat => p.meat
    case NoResource => 0
  }

  predicate StocksNonNeg(p: SimPlayer)
  {
    p.wood >= 0 && p.stone >= 0 && p.meat >= 0
  }

  /** `CanAfford`: false for an unknown player, otherwise every stock covers
      its part of the price. */
  predicate CanAfford(ws: World, pid: int, c: Cost)
  {
    match GetPlayer(ws, pid)
    case None => false
    case Some(p) => p.wood >= c.wood && p.stone >= c.stone && p.meat >= c.meat
  }

  predicate HasPopulationSpace(ws: World, pid: int)
  {
    match GetPlayer(ws, pid)
    case None => false
    case Some(p) => p.curPop < p.maxPop
  }

  function GetResourceAmount(ws: World, pid: int, t: ResourceType): (n: int)
    ensures GetPlayer(ws, pid).None? ==> n == 0
    ensures t == NoResource ==> n == 0
    ensures GetPlayer(ws, pid).Some? ==> n == Stock(GetPlayer(ws, pid).value, t)
  {
    match GetPlayer(ws, pid)
    case None => 0
    case Some(p) => Stock(p, t)
  }

  /** The player after paying `c`. */
  function Paid(p: SimPlayer, c: Cost): SimPlayer
  {
    p.(wood := p.wood - c.wood, stone := p.stone - c.stone, meat := p.meat - c.meat)
  }

  /** `SpendResources`: on an affordable price, exactly that price leaves the
      player's stocks and nothing else changes; otherwise nothing changes. */
  function SpendResources(ws: World, pid: int, c: Cost): (r: (bool, World))
    ensures r.0 <==> CanAfford(ws, pid, c)
    ensures !r.0 ==> r.1 == ws
    ensures r.0 ==> GetPlayer(r.1, pid) == Some(Paid(GetPlayer(ws, pid).value, c))
    ensures forall q :: q != pid ==> GetPlayer(r.1, q) == GetPlayer(ws, q)
    ensures r.1 == ws.(players := r.1.players)
    ensures r.0 && c.NonNeg() && StocksNonNeg(GetPlayer(ws, pid).value) ==> StocksNonNeg(GetPlayer(r.1, pid).value)
    ensures r.0 && c.NonNeg() ==> forall t :: Stock(GetPlayer(r.1, pid).value, t) <= Stock(GetPlayer(ws, pid).value, t)
    ensures SameHeadcounts(ws.players, r.1.players)
  {
    if !CanAfford(ws, pid, c) then (false, ws)
    else
      var p := GetPlayer(ws, pid).value;
      (true, PutPlayer(ws, Paid(p, c)))
  }

  /** The player after receiving `amount` of type `t`. */
  function Credit(p: SimPlayer, t: ResourceType, amount: int): SimPlayer
  {
    match t
    case Wood => p.(wood := p.wood + amount)
    case Stone => p.(stone := p.stone + amount)
    case Meat => p.(meat := p.meat + amount)
    case NoResource => p
  }

  /** A credit raises exactly the matching stock by `amount` and leaves the
      other stocks and the population alone. */
  lemma CreditStock(p: SimPlayer, t: ResourceType, amount: int, t': ResourceType)
    ensures Stock(Credit(p, t, amount), t') == Stock(p, t') + (if t' == t && t != NoResource then amount else 0)
    ensures Credit(p, t, amount).curPop == p.curPop && Credit(p, t, amount).maxPop == p.maxPop
    ensures Credit(p, t, amount).id == p.id
  {
  }

  /** `AddResource`: a positive amount of Wood, Stone or Meat goes to the
      matching stock of a known player; anything else is a no-op. */
  function AddResource(ws: World, pid: int, t: ResourceType, amount: int): (r: World)
    ensures r == ws.(players := r.players)
    ensures forall q :: q != pid ==> GetPlayer(r, q) == GetPlayer(ws, q)
    ensures GetPlayer(ws, pid).None? || amount <= 0 || t == NoResource ==> r == ws
    ensures GetPlayer(ws, pid).Some? && amount > 0 ==>
              GetPlayer(r, pid) == Some(Credit(GetPlayer(ws, pid).value, t, amount))
    ensures SameHeadcounts(ws.players, r.players)
  {
    match GetPlayer(ws, pid)
    case None => ws
    case Some(p) =>
      if amount <= 0 || t == NoResource then ws
      else
        var credited := Credit(p, t, amount);
        assert credited.id == p.id;
        PutPlayer(ws, credited)
  }

  /** `ModifyPopulation`: add `amount`, then clamp a negative result to 0. */
  function ModifyPopulation(ws: World, pid: int, amount: int): (r: World)
    ensures r == ws.(players := r.players)
    ensures forall q :: q != pid ==> GetPlayer(r, q) == GetPlayer(ws, q)
    ensures GetPlayer(ws, pid).None? ==> r == ws
    ensures GetPlayer(ws, pid).Some? ==>
              var p := GetPlayer(ws, pid).value;
              GetPlayer(r, pid) == Some(p.(curPop := if p.curPop + amount < 0 then 0 else p.curPop + amount))
    ensures GetPlayer(ws, pid).Some? ==> GetPlayer(r, pid).value.curPop >= 0
  {
    match GetPlayer(ws, pid)
    case None => ws
    case Some(p) =>
      var n := p.curPop + amount;
      PutPlayer(ws, p.(curPop := if n < 0 then 0 else n))
  }

  function IncreaseMaxPopulation(ws: World, pid: int, amount: int): (r: World)
    ensures r == ws.(players := r.players)
    ensures forall q :: q != pid ==> GetPlayer(r, q) == GetPlayer(ws, q)
    ensures GetPlayer(ws, pid).None? ==> r == ws
    ensures GetPlayer(ws, pid).Some? ==>
              GetPlayer(r, pid) == Some(GetPlayer(ws, pid).value.(maxPop := GetPlayer(ws, pid).value.maxPop + amount))
    ensures SameHeadcounts(ws.players, r.players)
  {
    match GetPlayer(ws, pid)
    case None => ws
    case Some(p) => PutPlayer(ws, p.(maxPop := p.maxPop + amount))
  }

  // ---------------------------------------------------------------------
  // Partners.

  /** Spending a price and then adding each part back restores the player:
      `SpendResources` and `AddResource` are inverse on positive prices. */
  lemma SpendThenRefund(ws: World, pid: int, c: Cost)
    requires c.wood > 0 && c.stone > 0 && c.meat > 0
    requires CanAfford(ws, pid, c)
    ensures var ws1 := SpendResources(ws, pid, c).1;
            var ws2 := AddResource(AddResource(AddResource(ws1, pid, Wood, c.wood), pid, Stone, c.stone), pid, Meat, c.meat);
            GetPlayer(ws2, pid) == GetPlayer(ws, pid)
  {
    var p := GetPlayer(ws, pid).value;
    var ws1 := SpendResources(ws, pid, c).1;
    assert GetPlayer(ws1, pid) == Some(Paid(p, c));
    RefundAll(ws1, pid, Paid(p, c), c);
    RefundRestores(p, c);
  }

  lemma RefundRestores(p: SimPlayer, c: Cost)
    ensures Credit(Credit(Credit(Paid(p, c), Wood, c.wood), Stone, c.stone), Meat, c.meat) == p
  {
  }

  /** Adding back the three parts of a positive price credits each stock. */
  lemma RefundAll(ws: World, pid: int, q: SimPlayer, c: Cost)
    requires GetPlayer(ws, pid) == Some(q)
    requires c.wood > 0 && c.stone > 0 && c.meat > 0
    ensures GetPlayer(AddResource(AddResource(AddResource(ws, pid, Wood, c.wood), pid, Stone, c.stone), pid, Meat, c.meat), pid)
            == Some(Credit(Credit(Credit(q, Wood, c.wood), Stone, c.stone), Meat, c.meat))
  {
    var wa := AddResource(ws, pid, Wood, c.wood);
    var wb := AddResource(wa, pid, Stone, c.stone);
    CreditLookup(ws, pid, q, Wood, c.wood);
    CreditLookup(wa, pid, Credit(q, Wood, c.wood), Stone, c.stone);
    CreditLookup(wb, pid, Credit(Credit(q, Wood, c.wood), Stone, c.stone), Meat, c.meat);
  }

  lemma CreditLookup(ws: World, pid: int, p: SimPlayer, t: ResourceType, amount: int)
    requires GetPlayer(ws, pid) == Some(p) && amount > 0
    ensures GetPlayer(AddResource(ws, pid, t, amount), pid) == Some(Credit(p, t, amount))
  {
  }

  /** Affordability is exactly "spending succeeds", and after a successful
      spend of a non-negative price the same price is affordable again only
      if the player held at least twice the price. */
  lemma SpendTwice(ws: World, pid: int, c: Cost)
    requires c.NonNeg() && CanAfford(ws, pid, c)
    ensures var p := GetPlayer(ws, pid).value;
            CanAfford(SpendResources(ws, pid, c).1, pid, c)
            <==> p.wood >= 2 * c.wood && p.stone >= 2 * c.stone && p.meat >= 2 * c.meat
  {
  }

  /** A population change that never went below zero is undone by the
      opposite change. */
  lemma ModifyPopulationInverse(ws: World, pid: int, amount: int)
    requires GetPlayer(ws, pid).Some?
    requires GetPlayer(ws, pid).value.curPop >= 0
    requires GetPlayer(ws, pid).value.curPop + amount >= 0
    ensures GetPlayer(ModifyPopulation(ModifyPopulation(ws, pid, amount), pid, -amount), pid) == GetPlayer(ws, pid)
  {
  }
}
