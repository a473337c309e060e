/**
 The ModelRunner of model.py: it owns the stocks and the cached fluxes,
 runs the five processes once per step, adds the merged outputs of three of
 them onto the stocks and appends a snapshot of the stocks to its history.

 `RunnerState` is the value of the runner's fields; `Step` is one call of
 `compute_model` on that value, built from `Preamble` (the lazy initialisation
 of the cached fluxes), the process outputs, `Collect` (collect_results) and
 `Save` (save_history). The class `ModelRunner` below updates its fields in
 place and each of its methods is proved to agree with these functions.
 */
module Runner {
  import opened Kinetics
  import opened Tally

  datatype Option<T> = None | Some(value: T)

  /** One history entry: a value copy of the stocks after a step. */
  datatype Snapshot = Snapshot(soc: real, doc: real, mic: real, enz: real, co2: real)

  /** The fields of a runner: stocks, cached fluxes (absent until first set) and history. */
  datatype RunnerState = RunnerState(
    soc: real, doc: real, mic: real, enz: real, co2: real,
    eloss: Option<real>, death: Option<real>, cue: real, eprod: Option<real>, assim: Option<real>,
    history: seq<Snapshot>)

  /** Python's `not x` on an optional float: unset (None) or zero. */
  predicate Unset(x: Option<real>)
  {
    x == None || x == Some(0.0)
  }

  /** The three denominators of a step are non-zero. */
  predicate StepDefined(s: RunnerState)
  {
    KM + s.soc != 0.0 && KM + s.doc != 0.0 && KM_UPTAKE + s.doc != 0.0
  }

  /** The cached fluxes that the processes read are all set. */
  predicate Primed(s: RunnerState)
  {
    s.eloss.Some? && s.eprod.Some? && s.death.Some?
  }

  /** The start of compute_model: each unset or zero cached flux is computed from
      the current pools; any other value is kept. */
  function Preamble(s: RunnerState): (p: RunnerState)
    ensures Primed(p)
    ensures Unset(s.eloss) ==> p.eloss == Some(EnzymeProductionDecayOutputs(s.mic, s.enz)["eloss"])
    ensures Unset(s.eprod) ==> p.eprod == Some(EnzymeProductionDecayOutputs(s.mic, s.enz)["eprod"])
    ensures Unset(s.death) ==> p.death == Some(MicDeathOutputs(s.mic)["death"])
    ensures !Unset(s.eloss) ==> p.eloss == s.eloss
    ensures !Unset(s.eprod) ==> p.eprod == s.eprod
    ensures !Unset(s.death) ==> p.death == s.death
    ensures p == s.(eloss := p.eloss, eprod := p.eprod, death := p.death)
  {
    var eloss := if Unset(s.eloss) then Some(s.enz * R_ENZ_LOSS) else s.eloss;
    var eprod := if Unset(s.eprod) then Some(s.mic * R_ENZ_PROD) else s.eprod;
    var death := if Unset(s.death) then Some(R_DEATH * s.mic) else s.death;
    s.(eloss := eloss, eprod := eprod, death := death)
  }

  /** Running the preamble a second time changes nothing. */
  lemma PreambleIdempotent(s: RunnerState)
    ensures Preamble(Preamble(s)) == Preamble(s)
  {
  }

  /** The outputs EnzymeCatalysis stores during a step. */
  function CatalysisStep(p: RunnerState): Outputs
    requires Primed(p) && StepDefined(p)
  {
    EnzymeCatalysisOutputs(p.enz, p.soc, p.doc, p.eloss.value, p.mic, p.death.value)
  }

  /** The outputs Uptake stores during a step. */
  function UptakeStep(p: RunnerState): Outputs
    requires Primed(p) && StepDefined(p)
  {
    UptakeOutputs(p.mic, p.doc, p.cue, p.death.value, p.eprod.value)
  }

  /** The outputs CarbonUse stores during a step, fed with Uptake's assimilation. */
  function CarbonUseStep(p: RunnerState, temp: real): Outputs
    requires Primed(p) && StepDefined(p)
  {
    CarbonUseOutputs(p.cue, temp, UptakeStep(p)["assim"])
  }

  /** collect_results: each stock grows by the sum of its key over the three maps
      (absent keys count 0); nothing else changes. */
  function Collect(s: RunnerState, eo: Outputs, uo: Outputs, co: Outputs): (r: RunnerState)
    ensures r.soc == s.soc + Count(eo, "soc") + Count(uo, "soc") + Count(co, "soc")
    ensures r.doc == s.doc + Count(eo, "doc") + Count(uo, "doc") + Count(co, "doc")
    ensures r.mic == s.mic + Count(eo, "mic") + Count(uo, "mic") + Count(co, "mic")
    ensures r.enz == s.enz + Count(eo, "enz") + Count(uo, "enz") + Count(co, "enz")
    ensures r.co2 == s.co2 + Count(eo, "co2") + Count(uo, "co2") + Count(co, "co2")
    ensures r == s.(soc := r.soc, doc := r.doc, mic := r.mic, enz := r.enz, co2 := r.co2)
  {
    var res := Merge(Merge(eo, uo), co);
    s.(soc := s.soc + Count(res, "soc"), doc := s.doc + Count(res, "doc"), mic := s.mic + Count(res, "mic"),
       enz := s.enz + Count(res, "enz"), co2 := s.co2 + Count(res, "co2"))
  }

  /** The stocks of a state, as a value. */
  function Snap(s: RunnerState): Snapshot
  {
    Snapshot(s.soc, s.doc, s.mic, s.enz, s.co2)
  }

  /** save_history: the history grows by one entry, the snapshot of the current
      stocks; earlier entries and all other fields are unchanged. */
  function Save(s: RunnerState): (r: RunnerState)
    ensures |r.history| == |s.history| + 1
    ensures r.history[..|s.history|] == s.history
    ensures r.history[|s.history|] == Snapshot(s.soc, s.doc, s.mic, s.enz, s.co2)
    ensures r == s.(history := r.history)
  {
    s.(history := s.history + [Snap(s)])
  }

  /** One call of compute_model. */
  function Step(s: RunnerState, temp: real): RunnerState
    requires StepDefined(s)
  {
    var p := Preamble(s);
    Save(Collect(p, CatalysisStep(p), UptakeStep(p), CarbonUseStep(p, temp)))
  }

  /** A step adds EnzymeCatalysis's "doc", Uptake's "mic" and CarbonUse's "co2"
      onto those stocks; soc and enz never change, because no merged map has
      those keys; the cached fluxes are those of the preamble. */
  lemma StepStocks(s: RunnerState, temp: real)
    requires StepDefined(s)
    ensures var r, p := Step(s, temp), Preamble(s);
      && r.soc == s.soc && r.enz == s.enz
      && r.doc == s.doc + CatalysisStep(p)["doc"]
      && r.mic == s.mic + UptakeStep(p)["mic"]
      && r.co2 == s.co2 + CarbonUseStep(p, temp)["co2"]
      && r.eloss == p.eloss && r.eprod == p.eprod && r.death == p.death
      && r.cue == s.cue && r.assim == s.assim
  {
  }

  /** doc after a step in closed form. The "doc" output of EnzymeCatalysis already
      contains doc, so adding it onto doc counts the old doc twice. */
  lemma StepDoc(s: RunnerState, temp: real)
    requires StepDefined(s)
    ensures var r, p := Step(s, temp), Preamble(s);
      r.doc == 2.0 * s.doc + p.death.value * (1.0 - MIC_TO_SOC) + Decomp(s.enz, s.soc) + p.eloss.value - CatalysisAssim(s.mic, s.doc)
  {
  }

  /** mic after a step in closed form: growth on the assimilation minus death and
      enzyme production. */
  lemma StepMic(s: RunnerState, temp: real)
    requires StepDefined(s)
    ensures var r, p := Step(s, temp), Preamble(s);
      r.mic == s.mic + Assim(s.mic, s.doc) * s.cue - p.death.value - p.eprod.value
  {
  }

  /** co2 after a step in closed form: the assimilation not retained at the
      temperature-adjusted efficiency. */
  lemma StepCo2(s: RunnerState, temp: real)
    requires StepDefined(s)
    ensures Step(s, temp).co2 == s.co2 + Assim(s.mic, s.doc) * (1.0 - EffectiveCue(s.cue, temp))
  {
    CarbonUseStepValue(s, temp);
    StepStocks(s, temp);
  }

  /** CarbonUse's output within a step, in terms of the pre-step state. */
  lemma CarbonUseStepValue(s: RunnerState, temp: real)
    requires StepDefined(s)
    ensures CarbonUseStep(Preamble(s), temp)["co2"] == Assim(s.mic, s.doc) * (1.0 - EffectiveCue(s.cue, temp))
  {
    var p := Preamble(s);
    assert CarbonUseStep(p, temp) == CarbonUseOutputs(s.cue, temp, Assim(s.mic, s.doc));
    Co2Value(s.cue, temp, Assim(s.mic, s.doc));
  }

  /** A step appends exactly one entry, the snapshot of the new stocks, and
      leaves every earlier entry as it was. */
  lemma StepHistory(s: RunnerState, temp: real)
    requires StepDefined(s)
    ensures var r := Step(s, temp);
      && |r.history| == |s.history| + 1
      && r.history[..|s.history|] == s.history
      && r.history[|s.history|] == Snapshot(r.soc, r.doc, r.mic, r.enz, r.co2)
  {
  }

  /** The cached fluxes are never refreshed: on a runner whose fluxes start unset,
      the preamble of the second step finds the values of the first. */
  lemma CachedFluxesFrozen(s: RunnerState, temp: real)
    requires StepDefined(s) && s.eloss == None && s.eprod == None && s.death == None
    ensures var p, q := Preamble(s), Preamble(Step(s, temp));
      q.eloss == p.eloss && q.eprod == p.eprod && q.death == p.death
  {
    var p, r := Preamble(s), Step(s, temp);
    StepStocks(s, temp);
    if s.mic == 0.0 {
      AssimZero(0.0, s.doc);
      assert r.mic == 0.0;
    } else {
      assert p.eprod.value != 0.0 && p.death.value != 0.0;
    }
  }

  /** The runner driven through a sequence of step temperatures; None when a step
      would divide by zero. */
  function Run(s: RunnerState, temps: seq<real>): Option<RunnerState>
    decreases |temps|
  {
    if temps == [] then Some(s)
    else if !StepDefined(s) then None
    else Run(Step(s, temps[0]), temps[1..])
  }

  /** After n steps the history is n entries longer, the old entries are a prefix
      of it, and soc and enz are where they started. */
  lemma {:induction false} RunHistory(s: RunnerState, temps: seq<real>)
    ensures Run(s, temps).Some? ==>
      var r := Run(s, temps).value;
      && |r.history| == |s.history| + |temps|
      && r.history[..|s.history|] == s.history
      && r.soc == s.soc && r.enz == s.enz
    decreases |temps|
  {
    if temps != [] && StepDefined(s) && Run(s, temps).Some? {
      var s1, r := Step(s, temps[0]), Run(s, temps).value;
      StepHistory(s, temps[0]);
      StepStocks(s, temps[0]);
      RunHistory(s1, temps[1..]);
      assert r.history[..|s.history|] == r.history[..|s1.history|][..|s.history|];
    }
  }

  class ModelRunner {
    var soc: real
    var doc: real
    var mic: real
    var enz: real
    var eloss: Option<real>
    var death: Option<real>
    var cue: real
    var eprod: Option<real>
    var assim: Option<real>
    var co2: real
    const encat: EnzymeCatalysis
    const uptake: Uptake
    const cbuse: CarbonUse
    const enzpd: EnzymeProductionDecay
    const micdeath: MicDeath
    var history: seq<Snapshot>

    /** The runner's fields as a value. */
    function State(): RunnerState
      reads this
    {
      RunnerState(soc, doc, mic, enz, co2, eloss, death, cue, eprod, assim, history)
    }

    constructor (soc: real, doc: real, mic: real, enz: real, co2: real,
                 eloss: Option<real>, death: Option<real>, cue: real, eprod: Option<real>, assim: Option<real>,
                 encat: EnzymeCatalysis, uptake: Uptake, cbuse: CarbonUse, enzpd: EnzymeProductionDecay,
                 micdeath: MicDeath, history: seq<Snapshot>)
      ensures State() == RunnerState(soc, doc, mic, enz, co2, eloss, death, cue, eprod, assim, history)
      ensures this.encat == encat && this.uptake == uptake && this.cbuse == cbuse
      ensures this.enzpd == enzpd && this.micdeath == micdeath
    {
      this.soc, this.doc, this.mic, this.enz, this.co2 := soc, doc, mic, enz, co2;
      this.eloss, this.death, this.cue, this.eprod, this.assim := eloss, death, cue, eprod, assim;
      this.encat, this.uptake, this.cbuse, this.enzpd, this.micdeath := encat, uptake, cbuse, enzpd, micdeath;
      this.history := history;
    }

    /** One simulation step at temperature `temp`. */
    method ComputeModel(temp: real)
      requires StepDefined(State())
      modifies this, encat, uptake, cbuse, enzpd, micdeath
      ensures State() == Step(old(State()), temp)
      ensures var p := Preamble(old(State()));
        && encat.outputs == CatalysisStep(p)
        && uptake.outputs == UptakeStep(p)
        && cbuse.outputs == CarbonUseStep(p, temp)
        && enzpd.outputs == EnzymeProductionDecayOutputs(p.mic, p.enz)
        && micdeath.outputs == MicDeathOutputs(p.mic)
    {
      InitCachedFluxes();
      ghost var p := State();

      // model.py:111 omits doc and eloss; the runner's doc and cached eloss are passed
      encat.Calc(enz, soc, doc, eloss.value, mic, death.value);
      // model.py:112 binds temp, mic, doc positionally to mic, doc, cue; here mic, doc and cue are bound by name
      uptake.Calc(mic, doc, cue, death.value, eprod.value);
      cbuse.Calc(cue, temp, uptake.outputs["assim"]);
      enzpd.Calc(mic, enz);
      micdeath.Calc(mic);
      assert encat.outputs == CatalysisStep(p) && uptake.outputs == UptakeStep(p);
      assert cbuse.outputs == CarbonUseStep(p, temp);
      assert enzpd.outputs == EnzymeProductionDecayOutputs(p.mic, p.enz);
      assert micdeath.outputs == MicDeathOutputs(p.mic);
      CollectResults();
      ghost var c := State();
      assert c == Collect(p, CatalysisStep(p), UptakeStep(p), CarbonUseStep(p, temp));
      SaveHistory();
      assert State() == Save(c);
    }

    /** Sets each unset or zero cached flux from the current pools. */
    method InitCachedFluxes()
      modifies this`eloss, this`eprod, this`death
      ensures State() == Preamble(old(State()))
    {
      if Unset(eloss) {
        eloss := Some(enz * R_ENZ_LOSS);
      }
      if Unset(eprod) {
        eprod := Some(mic * R_ENZ_PROD);
      }
      if Unset(death) {
        death := Some(R_DEATH * mic);
      }
    }

    /** Adds the merged outputs of EnzymeCatalysis, Uptake and CarbonUse onto the stocks. */
    method CollectResults()
      modifies this
      ensures State() == Collect(old(State()), encat.outputs, uptake.outputs, cbuse.outputs)
    {
      // model.py:122 chains update onto None; the intended per-key sum is used
      var res := Merge(Merge(encat.outputs, uptake.outputs), cbuse.outputs);
      ghost var s0 := State();
      assert Collect(s0, encat.outputs, uptake.outputs, cbuse.outputs) ==
        s0.(soc := soc + Count(res, "soc"), doc := doc + Count(res, "doc"), mic := mic + Count(res, "mic"),
            enz := enz + Count(res, "enz"), co2 := co2 + Count(res, "co2"));
      soc := soc + Count(res, "soc");
      doc := doc + Count(res, "doc");
      mic := mic + Count(res, "mic");
      enz := enz + Count(res, "enz");
      co2 := co2 + Count(res, "co2");
    }

    /** Appends a snapshot of the current stocks to the history. */
    method SaveHistory()
      modifies this`history
      ensures State() == Save(old(State()))
    {
      // model.py:131 calls an undefined to_dict; a value snapshot of the stocks is stored
      history := history + [Snapshot(soc, doc, mic, enz, co2)];
    }
  }
}
