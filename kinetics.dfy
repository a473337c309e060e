/**
 The five kinetic processes of the Allison et al. (2010) enzyme decomposition
 model. Each process is a pure function from its arguments (and its fixed rate
 parameters) to a small map of named outputs, and a class whose `Calc` method
 stores that map in its `outputs` field, as the processes of model.py do.

 Rate parameters are the class-level constants of model.py. Temperature enters
 only linearly (carbon-use efficiency); the code has no Arrhenius scaling.
 */
module Kinetics {

  // EnzymeCatalysis parameters
  const V_MAX: real := 100000000.0
  const KM: real := 500.0
  const MIC_TO_SOC: real := 0.5

  // Uptake parameters
  const V_MAX_UPTAKE: real := 100000000.0
  const KM_UPTAKE: real := 0.1

  // CarbonUse parameter: change of carbon-use efficiency per degree
  const CUE_SLOPE: real := -0.016

  // EnzymeProductionDecay parameters (first-order rates)
  const R_ENZ_PROD: real := 0.000005
  const R_ENZ_LOSS: real := 0.001

  // MicDeath parameter (first-order rate)
  const R_DEATH: real := 0.0002

  type Outputs = map<string, real>

  /* ---------------- Michaelis-Menten kinetics ---------------- */

  /** The saturating factor s / (k + s) of Michaelis-Menten kinetics. */
  function Saturation(s: real, k: real): real
    requires k + s != 0.0
  {
    s / (k + s)
  }

  /** The Michaelis-Menten flux vmax * pool * s / (k + s), grouped as in the source. */
  function MichaelisMenten(vmax: real, pool: real, s: real, k: real): real
    requires k + s != 0.0
  {
    vmax * pool * Saturation(s, k)
  }

  /** For a non-negative substrate and a positive half-saturation constant the factor lies in [0, 1). */
  lemma SaturationBounds(s: real, k: real)
    requires s >= 0.0 && k > 0.0
    ensures 0.0 <= Saturation(s, k) < 1.0
  {
  }

  /** The factor vanishes exactly when the substrate does. */
  lemma SaturationZero(s: real, k: real)
    requires k + s != 0.0
    ensures Saturation(s, k) == 0.0 <==> s == 0.0
  {
  }

  /** A Michaelis-Menten flux with non-negative inputs is non-negative and below vmax * pool. */
  lemma MichaelisMentenBounds(vmax: real, pool: real, s: real, k: real)
    requires vmax >= 0.0 && pool >= 0.0 && s >= 0.0 && k > 0.0
    ensures 0.0 <= MichaelisMenten(vmax, pool, s, k) <= vmax * pool
  {
    SaturationBounds(s, k);
    var c := vmax * pool;
    assert c >= 0.0 by { NonNegProduct(vmax, pool); }
    var f := Saturation(s, k);
    assert c * f >= 0.0 by { NonNegProduct(c, f); }
    assert c * f <= c * 1.0 by { MulMonotone(c, f, 1.0); }
    assert MichaelisMenten(vmax, pool, s, k) == c * f;
  }

  /** A Michaelis-Menten flux is zero exactly when the rate, the pool or the substrate is zero. */
  lemma MichaelisMentenZero(vmax: real, pool: real, s: real, k: real)
    requires k + s != 0.0
    ensures MichaelisMenten(vmax, pool, s, k) == 0.0 <==> (vmax == 0.0 || pool == 0.0 || s == 0.0)
  {
  }

  lemma NonNegProduct(x: real, y: real)
    requires x >= 0.0 && y >= 0.0
    ensures x * y >= 0.0
  {
  }

  lemma MulMonotone(c: real, x: real, y: real)
    requires c >= 0.0 && x <= y
    ensures c * x <= c * y
  {
  }

  /* ---------------- EnzymeCatalysis ---------------- */

  /** Decomposition of soil organic carbon by the enzyme pool. */
  function Decomp(enz: real, soc: real): real
    requires KM + soc != 0.0
  {
    MichaelisMenten(V_MAX, enz, soc, KM)
  }

  /** Assimilation as EnzymeCatalysis computes it, with its own V_MAX and KM. */
  function CatalysisAssim(mic: real, doc: real): real
    requires KM + doc != 0.0
  {
    MichaelisMenten(V_MAX, mic, doc, KM)
  }

  /** The outputs of EnzymeCatalysis: only "doc", the dissolved organic carbon
      the process reports (which includes the incoming `doc` itself). */
  function EnzymeCatalysisOutputs(enz: real, soc: real, doc: real, eloss: real, mic: real, death: real): (out: Outputs)
    requires KM + soc != 0.0 && KM + doc != 0.0
    ensures out.Keys == {"doc"}
    ensures out["doc"] == doc + death * (1.0 - MIC_TO_SOC) + Decomp(enz, soc) + eloss - CatalysisAssim(mic, doc)
  {
    var assim := MichaelisMenten(V_MAX, mic, doc, KM);
    var decomp := MichaelisMenten(V_MAX, enz, soc, KM);
    map["doc" := doc + death * (1.0 - MIC_TO_SOC) + decomp + eloss - assim]
  }

  /** No soil organic carbon, no decomposition. */
  lemma DecompZeroWithoutSoc(enz: real)
    ensures Decomp(enz, 0.0) == 0.0
  {
  }

  /** Decomposition vanishes exactly when the enzyme pool or the soil organic carbon does. */
  lemma DecompZero(enz: real, soc: real)
    requires KM + soc != 0.0
    ensures Decomp(enz, soc) == 0.0 <==> (enz == 0.0 || soc == 0.0)
  {
  }

  /** With non-negative pools, decomposition lies between 0 and V_MAX * enz. */
  lemma DecompBounds(enz: real, soc: real)
    requires enz >= 0.0 && soc >= 0.0
    ensures 0.0 <= Decomp(enz, soc) <= V_MAX * enz
  {
  }

  /** With no biomass and no death, the "doc" output is the
      incoming doc plus decomposition plus the enzyme loss. */
  lemma CatalysisDocWithoutMicrobes(enz: real, soc: real, doc: real, eloss: real)
    requires KM + soc != 0.0 && KM + doc != 0.0
    ensures EnzymeCatalysisOutputs(enz, soc, doc, eloss, 0.0, 0.0)["doc"] == doc + Decomp(enz, soc) + eloss
  {
  }

  class EnzymeCatalysis {
    var outputs: Outputs

    constructor (outputs: Outputs)
      ensures this.outputs == outputs
    {
      this.outputs := outputs;
    }

    method Calc(enz: real, soc: real, doc: real, eloss: real, mic: real, death: real)
      requires KM + soc != 0.0 && KM + doc != 0.0
      modifies this
      ensures outputs == EnzymeCatalysisOutputs(enz, soc, doc, eloss, mic, death)
    {
      var assim := V_MAX * mic * (doc / (KM + doc));
      var decomp := V_MAX * enz * (soc / (KM + soc));
      assert assim == CatalysisAssim(mic, doc) && decomp == Decomp(enz, soc);
      var ddoc := doc + death * (1.0 - MIC_TO_SOC) + decomp + eloss - assim;
      outputs := map["doc" := ddoc];
    }
  }

  /* ---------------- Uptake ---------------- */

  /** Microbial assimilation of dissolved organic carbon. */
  function Assim(mic: real, doc: real): real
    requires KM_UPTAKE + doc != 0.0
  {
    MichaelisMenten(V_MAX_UPTAKE, mic, doc, KM_UPTAKE)
  }

  /** The outputs of Uptake: the change of microbial biomass and the assimilation. */
  function UptakeOutputs(mic: real, doc: real, cue: real, death: real, eprod: real): (out: Outputs)
    requires KM_UPTAKE + doc != 0.0
    ensures out.Keys == {"mic", "assim"}
    ensures out["assim"] == Assim(mic, doc)
    ensures out["mic"] == Assim(mic, doc) * cue - death - eprod
  {
    var assim := MichaelisMenten(V_MAX_UPTAKE, mic, doc, KM_UPTAKE);
    map["mic" := assim * cue - death - eprod, "assim" := assim]
  }

  /** Assimilation vanishes exactly when the biomass or the dissolved carbon does. */
  lemma AssimZero(mic: real, doc: real)
    requires KM_UPTAKE + doc != 0.0
    ensures Assim(mic, doc) == 0.0 <==> (mic == 0.0 || doc == 0.0)
  {
  }

  /** With non-negative pools, assimilation lies between 0 and V_MAX_UPTAKE * mic. */
  lemma AssimBounds(mic: real, doc: real)
    requires mic >= 0.0 && doc >= 0.0
    ensures 0.0 <= Assim(mic, doc) <= V_MAX_UPTAKE * mic
  {
  }

  /** Without biomass the biomass change is just the loss to death and enzyme production. */
  lemma UptakeWithoutMicrobes(doc: real, cue: real, death: real, eprod: real)
    requires KM_UPTAKE + doc != 0.0
    ensures UptakeOutputs(0.0, doc, cue, death, eprod)["mic"] == -death - eprod
  {
  }

  class Uptake {
    var outputs: Outputs

    constructor (outputs: Outputs)
      ensures this.outputs == outputs
    {
      this.outputs := outputs;
    }

    method Calc(mic: real, doc: real, cue: real, death: real, eprod: real)
      requires KM_UPTAKE + doc != 0.0
      modifies this
      ensures outputs == UptakeOutputs(mic, doc, cue, death, eprod)
    {
      var assim := V_MAX_UPTAKE * mic * (doc / (KM_UPTAKE + doc));
      assert assim == Assim(mic, doc);
      var dmic := assim * cue - death - eprod;
      assert dmic == UptakeOutputs(mic, doc, cue, death, eprod)["mic"];
      outputs := map["mic" := dmic, "assim" := assim];
    }
  }

  /* ---------------- CarbonUse ---------------- */

  /** Carbon-use efficiency at temperature `temp`, from its value `cue` at 0 degrees. */
  function EffectiveCue(cue: real, temp: real): real
  {
    CUE_SLOPE * temp + cue
  }

  /** The outputs of CarbonUse: only "co2", the respired part of the assimilation. */
  function CarbonUseOutputs(cue: real, temp: real, assim: real): (out: Outputs)
    ensures out.Keys == {"co2"}
    ensures out["co2"] + assim * EffectiveCue(cue, temp) == assim
  {
    map["co2" := assim * (1.0 - EffectiveCue(cue, temp))]
  }

  /** Respiration is the part of the assimilation not used for growth. */
  lemma Co2Value(cue: real, temp: real, assim: real)
    ensures CarbonUseOutputs(cue, temp, assim)["co2"] == assim * (1.0 - EffectiveCue(cue, temp))
  {
  }

  /** At 0 degrees the efficiency is the supplied one. */
  lemma CueAtZero(cue: real)
    ensures EffectiveCue(cue, 0.0) == cue
  {
  }

  /** The efficiency falls as the temperature rises (the slope is negative). */
  lemma CueDecreasing(cue: real, t1: real, t2: real)
    ensures t1 < t2 ==> EffectiveCue(cue, t2) < EffectiveCue(cue, t1)
  {
  }

  /** No assimilation, no respiration; and respiration is zero only if nothing is
      assimilated or all of it is used. */
  lemma Co2Zero(cue: real, temp: real, assim: real)
    ensures CarbonUseOutputs(cue, temp, assim)["co2"] == 0.0 <==> (assim == 0.0 || EffectiveCue(cue, temp) == 1.0)
  {
  }

  /** With an efficiency in [0, 1], respiration lies between 0 and the assimilation. */
  lemma Co2Bounds(cue: real, temp: real, assim: real)
    requires assim >= 0.0 && 0.0 <= EffectiveCue(cue, temp) <= 1.0
    ensures 0.0 <= CarbonUseOutputs(cue, temp, assim)["co2"] <= assim
  {
  }

  class CarbonUse {
    var outputs: Outputs

    constructor (outputs: Outputs)
      ensures this.outputs == outputs
    {
      this.outputs := outputs;
    }

    method Calc(cue: real, temp: real, assim: real)
      modifies this
      ensures outputs == CarbonUseOutputs(cue, temp, assim)
    {
      var effective := CUE_SLOPE * temp + cue;
      assert effective == EffectiveCue(cue, temp);
      var dco2 := assim * (1.0 - effective);
      assert dco2 == CarbonUseOutputs(cue, temp, assim)["co2"];
      outputs := map["co2" := dco2];
    }
  }

  /* ---------------- EnzymeProductionDecay ---------------- */

  /** The outputs of EnzymeProductionDecay: production, loss and their balance. */
  function EnzymeProductionDecayOutputs(mic: real, enz: real): (out: Outputs)
    ensures out.Keys == {"enz", "eprod", "eloss"}
    ensures out["eprod"] == mic * R_ENZ_PROD && out["eloss"] == enz * R_ENZ_LOSS
    ensures out["enz"] == out["eprod"] - out["eloss"]
  {
    var eprod := mic * R_ENZ_PROD;
    var eloss := enz * R_ENZ_LOSS;
    map["enz" := eprod - eloss, "eprod" := eprod, "eloss" := eloss]
  }

  /** The enzyme pool is at steady state exactly when it is 5/1000 of the biomass. */
  lemma EnzymeSteadyState(mic: real, enz: real)
    ensures EnzymeProductionDecayOutputs(mic, enz)["enz"] == 0.0 <==> enz == mic * 0.005
  {
  }

  /** Both fluxes are non-negative for non-negative pools. */
  lemma EnzymeFluxesNonNegative(mic: real, enz: real)
    requires mic >= 0.0 && enz >= 0.0
    ensures EnzymeProductionDecayOutputs(mic, enz)["eprod"] >= 0.0
    ensures EnzymeProductionDecayOutputs(mic, enz)["eloss"] >= 0.0
  {
  }

  class EnzymeProductionDecay {
    var outputs: Outputs

    constructor (outputs: Outputs)
      ensures this.outputs == outputs
    {
      this.outputs := outputs;
    }

    method Calc(mic: real, enz: real)
      modifies this
      ensures outputs == EnzymeProductionDecayOutputs(mic, enz)
    {
      var eprod := mic * R_ENZ_PROD;
      var eloss := enz * R_ENZ_LOSS;
      var denz := eprod - eloss;
      outputs := map["enz" := denz, "eprod" := eprod, "eloss" := eloss];
    }
  }

  /* ---------------- MicDeath ---------------- */

  /** The outputs of MicDeath: only "death", a first-order loss of biomass. */
  function MicDeathOutputs(mic: real): (out: Outputs)
    ensures out.Keys == {"death"}
    ensures out["death"] == R_DEATH * mic
  {
    map["death" := R_DEATH * mic]
  }

  /** Death is zero exactly for zero biomass; for non-negative biomass it is
      non-negative and never more than the biomass itself. */
  lemma DeathBounds(mic: real)
    ensures MicDeathOutputs(mic)["death"] == 0.0 <==> mic == 0.0
    ensures mic >= 0.0 ==> 0.0 <= MicDeathOutputs(mic)["death"] <= mic
  {
  }

  class MicDeath {
    var outputs: Outputs

    constructor (outputs: Outputs)
      ensures this.outputs == outputs
    {
      this.outputs := outputs;
    }

    method Calc(mic: real)
      modifies this
      ensures outputs == MicDeathOutputs(mic)
    {
      var death := R_DEATH * mic;
      outputs := map["death" := death];
    }
  }
}
