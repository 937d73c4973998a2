/** The hybrid adaptive commander (`HybridAdaptiveAI`): three gene sets, one
    of them active, and a once-a-second switch driven by the global
    situation factor. The factor a switch reads is an input: the
    two-argument call in the source matches no overload of the analyzer,
    and `Gsf.CalculateGSF` is what such a call would compute. The gene
    executor it drives is the specialised commander, not modelled here. */
module Hybrid {
  datatype Mode = Economy | Defensive | Aggressive

  datatype Hybrid = Hybrid(ecoGenes: seq<real>, defGenes: seq<real>, attackGenes: seq<real>,
                           currentGenes: seq<real>, stateName: Mode, timer: real,
                           useSwitching: bool, currentGsf: real)

  /** The gene set that belongs to a mode. */
  function GenesFor(h: Hybrid, m: Mode): seq<real>
  {
    match m
    case Economy => h.ecoGenes
    case Defensive => h.defGenes
    case Aggressive => h.attackGenes
  }

  /** The active genes are those of the named mode. */
  predicate Consistent(h: Hybrid)
  {
    h.currentGenes == GenesFor(h, h.stateName)
  }

  /** The constructor: economy genes, named "Economy", timer at zero. */
  function NewHybrid(eco: seq<real>, def: seq<real>, attack: seq<real>, useSwitching: bool): (h: Hybrid)
    ensures Consistent(h) && h.stateName == Economy && h.currentGenes == eco
    ensures h.timer == 0.0 && h.useSwitching == useSwitching
  {
    Hybrid(eco, def, attack, eco, Economy, 0.0, useSwitching, 0.0)
  }

  /** The mode a factor calls for: below -80 defence, above 80 attack,
      economy in between. */
  function Choose(gsf: real): (m: Mode)
    ensures m == Defensive <==> gsf < -80.0
    ensures m == Aggressive <==> gsf > 80.0
    ensures m == Economy <==> -80.0 <= gsf <= 80.0
  {
    if gsf < -80.0 then Defensive
    else if gsf > 80.0 then Aggressive
    else Economy
  }

  /** `EvaluateAndSwitchStrategy`: record the factor and switch the genes
      only when the chosen mode differs from the current one. */
  function Evaluate(h: Hybrid, gsf: real): (r: Hybrid)
    requires Consistent(h)
    ensures Consistent(r)
    ensures r.currentGsf == gsf && r.stateName == Choose(gsf)
    ensures r.ecoGenes == h.ecoGenes && r.defGenes == h.defGenes && r.attackGenes == h.attackGenes
    ensures r.timer == h.timer && r.useSwitching == h.useSwitching
    ensures Choose(gsf) == h.stateName ==> r == h.(currentGsf := gsf)
  {
    var newState := Choose(gsf);
    var h1 := h.(currentGsf := gsf);
    if newState != h.stateName then h1.(currentGenes := GenesFor(h, newState), stateName := newState)
    else h1
  }

  /** `Update`: the timer accumulates `dt`; once it reaches one second it
      restarts at zero and, with switching on, the factor `gsf` is
      evaluated. */
  function Update(h: Hybrid, dt: real, gsf: real): (r: Hybrid)
    requires Consistent(h)
    ensures Consistent(r)
    ensures r.ecoGenes == h.ecoGenes && r.defGenes == h.defGenes && r.attackGenes == h.attackGenes
    ensures r.useSwitching == h.useSwitching
    ensures h.timer + dt < 1.0 ==> r == h.(timer := h.timer + dt)
    ensures h.timer + dt >= 1.0 ==> r.timer == 0.0
    ensures h.timer + dt >= 1.0 && h.useSwitching ==> r.stateName == Choose(gsf) && r.currentGsf == gsf
    ensures !h.useSwitching ==> r.stateName == h.stateName && r.currentGenes == h.currentGenes
  {
    var t := h.timer + dt;
    if t >= 1.0 then
      var h1 := h.(timer := 0.0);
      if h.useSwitching then Evaluate(h1, gsf) else h1
    else h.(timer := t)
  }

  /** A run of updates, each with its time step and the factor read at it. */
  function Run(h: Hybrid, steps: seq<(real, real)>): (r: Hybrid)
    requires Consistent(h)
    ensures Consistent(r)
    decreases |steps|
  {
    if |steps| == 0 then h
    else Run(Update(h, steps[0].0, steps[0].1), steps[1..])
  }

  /** Without switching the commander plays its economy genes for good. */
  lemma {:induction false} StaticStaysEconomy(h: Hybrid, steps: seq<(real, real)>)
    requires Consistent(h) && !h.useSwitching && h.stateName == Economy
    ensures Run(h, steps).stateName == Economy && Run(h, steps).currentGenes == h.ecoGenes
    decreases |steps|
  {
    if |steps| > 0 {
      StaticStaysEconomy(Update(h, steps[0].0, steps[0].1), steps[1..]);
    }
  }

  /** With a positive time step the timer stays in [0, 1) between updates. */
  lemma TimerBelowOneSecond(h: Hybrid, dt: real, gsf: real)
    requires Consistent(h) && 0.0 <= h.timer < 1.0 && 0.0 <= dt
    ensures 0.0 <= Update(h, dt, gsf).timer < 1.0
  {
  }
}
