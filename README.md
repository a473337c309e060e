# Enzyme decomposition model (Allison et al. 2010) in Dafny

This project models the simulation core of `model.py`:

- the five kinetic processes:
  - `EnzymeCatalysis`: decomposition of soil organic carbon and the "doc" output;
  - `Uptake`: microbial assimilation and the change of biomass;
  - `CarbonUse`: respiration at a temperature-adjusted carbon-use efficiency;
  - `EnzymeProductionDecay`: enzyme production and loss;
  - `MicDeath`: microbial death;
- the `ModelRunner`, which one step at a time does this:
  - it lazily sets the cached fluxes `eloss`, `eprod` and `death`;
  - it runs the processes;
  - it merges the output maps of `EnzymeCatalysis`, `Uptake` and `CarbonUse` by per-key addition (a `Counter`);
  - it adds the merged values onto the stocks `soc`, `doc`, `mic`, `enz` and `co2`;
  - it appends a snapshot of the stocks to its history.

All quantities are `real`. Each Michaelis–Menten denominator is a precondition: `KM + soc`, `KM + doc` and `KM_UPTAKE + doc` must be non-zero.

Files:

- `kinetics.dfy` (module `Kinetics`):
  - the rate constants of model.py;
  - a generic Michaelis–Menten flux with its bounds and zero lemmas;
  - for each process, a pure function giving its output map, lemmas about it, and a class with an `outputs` field and a `Calc` method proved to store that map.
- `tally.dfy` (module `Tally`): the `Counter` merge. `Count(m, k)` is `m.get(k, 0)`, and `Merge` adds two maps key by key.
- `runner.dfy` (module `Runner`):
  - `RunnerState` is the value of the runner's fields;
  - `Preamble`, `Collect`, `Save` and `Step` are the parts of one `compute_model` call on that value, and `Run` is a sequence of calls;
  - lemmas relate these functions;
  - the class `ModelRunner` updates its fields in place, and each of its methods is proved equal to the matching function.

### Where the model follows the code rather than the published equations

The module docstring of `model.py` cites the enzyme model of Allison et al. (2010). Written as one step of difference equations, with `mic_to_soc` the share of dead biomass returned to soil organic carbon, that model reads:

```
soc' = soc + input_soc + death*mic_to_soc - decomp
doc' = doc + input_doc + death*(1-mic_to_soc) + decomp + eloss - assim
mic' = mic + assim*cue - death - eprod
enz' = enz + eprod - eloss
co2' = co2 + assim*(1-cue)
```

The model follows what `model.py` computes. In these places that differs from the five equations above:

- `soc` never changes in a step. No merged map has a `"soc"` key, so the input, death and decomposition terms never reach `soc`.
- `enz` never changes in a step. The outputs of `EnzymeProductionDecay` are computed but not merged.
- `EnzymeCatalysis` reports `"doc"` as `doc + death*(1-mic_to_soc) + decomp + eloss - assim`. The old `doc` is already in that value, and `collect_results` adds it onto `doc`, so one step gives `doc' = 2*doc + …` (`StepDoc`).
- `EnzymeCatalysis` computes its own assimilation with its `v_max` (1e8) and `km` (500). This is not `Uptake`'s `km_uptake` (0.1).
- There is no Arrhenius `exp` term. `v_max` and `km` are constants, and only the carbon-use efficiency depends on temperature, linearly.
- `Uptake` uses the raw `cue`. `CarbonUse` uses the temperature-adjusted `cue_slope*temp + cue`.
- The cached `eloss`, `eprod` and `death` are set only while unset or zero. They are never refreshed from the process outputs (`CachedFluxesFrozen`).
- The runner's `cue` is never assigned by the code, so it is a constructor argument. `assim` is never written and stays as given.

Some lines of `model.py` would not run as written. The model follows their evident intent:

- The dataclass field order at model.py:93-99 is rejected by Python, because non-default fields follow defaulted ones. Here the constructor takes every field.
- The call at model.py:111 leaves out `doc` and `eloss`. The model passes the runner's `doc` and its cached `eloss`.
- model.py:122 chains `.update` onto `None`. The model merges the three maps by summing per key (`Tally.Merge`).
- model.py:131 calls an undefined `to_dict`. The model stores a value `Snapshot` of `soc`, `doc`, `mic`, `enz` and `co2`.

One call runs, but binds its arguments by position in a way that evidently was not meant:

- The call `self.uptake.calc(temp, self.mic, self.doc, self.death, self.eprod)` at model.py:112 binds `mic = temp`, `doc = self.mic` and `cue = self.doc`. As written it computes `assim = v_max_uptake·temp·mic/(km_uptake + mic)` and a biomass change of `assim·doc - death - eprod`, and it never passes the runner's `cue`. The model instead passes `mic`, `doc` and the runner's `cue` by name, as `Uptake.calc`'s signature names them. `temp` is not an argument of `Uptake`.

## Model

| member | source | states |
|---|---|---|
| Kinetics.SaturationBounds | model.py:30 | for a non-negative substrate and a positive half-saturation constant, the Michaelis–Menten factor lies in [0, 1) |
| Kinetics.SaturationZero | model.py:30 | the saturating factor is zero if and only if the substrate is zero |
| Kinetics.MichaelisMentenBounds | model.py:29-30 | a Michaelis–Menten flux with non-negative inputs lies between 0 and its maximum rate times the pool |
| Kinetics.MichaelisMentenZero | model.py:29-30 | a Michaelis–Menten flux is zero if and only if the rate, the pool or the substrate is zero |
| Kinetics.DecompZeroWithoutSoc | model.py:30 | decomposition is 0 when soc is 0 |
| Kinetics.DecompZero | model.py:30 | decomposition is zero if and only if enz or soc is zero |
| Kinetics.DecompBounds | model.py:30 | for enz ≥ 0 and soc ≥ 0, decomposition lies between 0 and v_max·enz |
| Kinetics.CatalysisDocWithoutMicrobes | model.py:29-31 | with no biomass and no death, the "doc" output is doc plus decomposition plus enzyme loss |
| Kinetics.EnzymeCatalysis.Calc | model.py:27-32 | stores exactly the output map of EnzymeCatalysisOutputs in `outputs` |
| Kinetics.AssimZero | model.py:46 | assimilation is zero if and only if mic or doc is zero |
| Kinetics.AssimBounds | model.py:46 | for mic ≥ 0 and doc ≥ 0, assimilation lies between 0 and v_max_uptake·mic |
| Kinetics.UptakeWithoutMicrobes | model.py:46-47 | with no biomass the change of biomass is -death - eprod |
| Kinetics.Uptake.Calc | model.py:38-48 | stores exactly the output map of UptakeOutputs in `outputs` |
| Kinetics.CueAtZero | model.py:54 | at temp = 0 the effective efficiency equals the supplied cue |
| Kinetics.CueDecreasing | model.py:51-54 | the effective efficiency strictly decreases as temperature rises |
| Kinetics.Co2Zero | model.py:55 | co2 is zero if and only if assim is zero or the effective efficiency is 1, so it is 0 whenever assim is 0 |
| Kinetics.Co2Bounds | model.py:54-55 | with an effective efficiency in [0, 1] and assim ≥ 0, co2 lies between 0 and assim |
| Kinetics.CarbonUse.Calc | model.py:53-56 | stores exactly the output map of CarbonUseOutputs in `outputs` |
| Kinetics.EnzymeSteadyState | model.py:59-65 | the enzyme change is zero if and only if enz = 0.005·mic |
| Kinetics.EnzymeFluxesNonNegative | model.py:62-63 | production and loss are non-negative for non-negative pools |
| Kinetics.EnzymeProductionDecay.Calc | model.py:61-66 | stores exactly the output map of EnzymeProductionDecayOutputs in `outputs` |
| Kinetics.DeathBounds | model.py:69-72 | death is zero if and only if mic is zero; for mic ≥ 0 it lies between 0 and mic |
| Kinetics.MicDeath.Calc | model.py:71-73 | stores exactly the output map of MicDeathOutputs in `outputs` |
| Tally.Merge | model.py:122 | the merged keys are the union of both maps' keys, and every key's count (0 when absent) is the sum of its counts in both |
| Tally.MergeCommutes | model.py:122 | the order of merging does not change the result |
| Tally.MergeAssociates | model.py:122 | chained merges can be regrouped |
| Runner.Preamble | model.py:104-109 | each cached flux that is unset or zero takes the value the matching process computes from the current pools; any other value is kept; no other field changes |
| Runner.PreambleIdempotent | model.py:104-109 | running the lazy initialisation twice gives the same state as running it once |
| Runner.Collect | model.py:121-128 | each of the five stocks grows by the sum of its key over the three maps, absent keys counting 0; nothing else changes |
| Runner.Save | model.py:130-131 | the history grows by exactly one entry, the snapshot of the current stocks; earlier entries and all other fields are unchanged |
| Runner.StepStocks | model.py:104-128 | in one step soc and enz are unchanged; doc, mic and co2 grow by the EnzymeCatalysis "doc", Uptake "mic" and CarbonUse "co2" outputs; the cached fluxes are those of the preamble; cue and assim are unchanged |
| Runner.StepDoc | model.py:111-125 | after a step doc equals twice the old doc plus the death share, decomposition and enzyme loss, minus EnzymeCatalysis's assimilation |
| Runner.StepMic | model.py:112-126 | after a step mic equals mic + assim·cue - death - eprod, with the cached death and eprod |
| Runner.StepCo2 | model.py:113-128 | after a step co2 equals co2 + assim·(1 - (cue_slope·temp + cue)) |
| Runner.StepHistory | model.py:117-131 | one step makes the history longer by exactly one; the new last entry is the snapshot of the new stocks and all earlier entries are unchanged |
| Runner.CachedFluxesFrozen | model.py:104-109 | on a runner whose cached fluxes start unset, the second step's preamble finds exactly the eloss, eprod and death set in the first |
| Runner.RunHistory | model.py:101-131 | after n successful steps the history is n entries longer, the old history is its prefix, and soc and enz are unchanged |
| Runner.ModelRunner.constructor | model.py:76-99 | the runner's fields are exactly the given stocks, cached fluxes, cue, processes and history |
| Runner.ModelRunner.InitCachedFluxes | model.py:104-109 | the runner's new state is Preamble of its old state |
| Runner.ModelRunner.ComputeModel | model.py:101-119 | the runner's new state is Step of its old state at `temp`, and each process's `outputs` is the map that process computes from the pre-step state after the preamble |
| Runner.ModelRunner.CollectResults | model.py:121-128 | the runner's new state is Collect of its old state and the current outputs of EnzymeCatalysis, Uptake and CarbonUse |
| Runner.ModelRunner.SaveHistory | model.py:130-131 | the runner's new state is Save of its old state, so exactly one snapshot is appended |

## Left out

- `ModelRunner.export_history` (model.py:133-139): writing JSON to a file and checking that the file exists are file I/O.
- The `print` calls (model.py:103, 116, 119) are console output only.
- utils.py is not part of this model:
  - plotting with Plotly;
  - Google Earth Engine authentication and sampling (network calls);
  - date arithmetic and unit conversions around the remote samples.
- Floating point is not modelled: no IEEE-754 rounding, NaN or infinity. Stocks are `real`, and a zero Michaelis–Menten denominator is excluded by a precondition. On the value level, `Run` returns `None` for such a step.
- Runner.ModelRunner.ComputeModel: the positional binding at model.py:112 (`temp` taken as `mic`, `mic` as `doc`, `doc` as `cue`) is not modelled; the Uptake call binds `mic`, `doc` and the runner's `cue` by name instead, so `StepMic`, `StepCo2` and `ComputeModel` describe that named call and not the call as written.
- The Python failures at model.py:93-99, 111, 122 and 131 are not reproduced. Their evident intent is modelled instead, as listed above.
- The unused `time` parameter of `compute_model` (model.py:101) and the `version` field (model.py:78) influence nothing and are left out.
- The abstract base class `AbstractProcess` (model.py:13-20) has no behaviour of its own. Each process class has its own `outputs` field and `Calc` method instead.
- The stocks' default `None` values (model.py:80-91) are left out. Any arithmetic on them would fail, so the runner is constructed with real-valued stocks and `cue`. Only the cached fluxes keep an optional value.
