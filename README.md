# RuraNetSim coverage core in Dafny

RuraNetSim is a planning tool for rural mobile networks. The user places an antenna, chooses a propagation model and its parameters, and runs a simulation. The simulation samples a square grid around the antenna. It computes the received signal at each sample point, keeps the points above the coverage threshold, and reports:

- the covered area;
- the coverage percentage;
- the population covered.

This project models the computational core of that tool and proves properties of it:

- the three propagation models, with their input checks in order, their error cases and the bisection that finds a coverage radius:
  - Okumura-Hata, 150-1500 MHz;
  - COST-231, 1500-2000 MHz;
  - the 3GPP TR 38.901 scenarios, with the free-space and millimetre-wave models beside them;
- the catalogue of 5G models and their parameters;
- the coverage sweep over the sample grid and the percentage and population it yields;
- the cross-field validation of simulation parameters and the field validators;
- the dashboard arithmetic: reporting windows, change in percent and success rate;
- the grouping of signal strengths into map tiers and the rows of the PDF report;
- the dashboard store of the web client: a Vuex module whose mutations change its state in place and whose actions persist to the browser's local storage.

Modules, one per file:

| module | file |
|---|---|
| `Common` | `Result`/`Option`, the error kinds and the math functions |
| `Hata` | checks and area corrections shared by Okumura-Hata and COST-231, and the radius bisection |
| `OkumuraHata`, `Cost231` | the two terrestrial models |
| `FiveG` | free-space, 3GPP and millimetre-wave losses |
| `ModelCatalog` | the two 5G catalogue endpoints |
| `Coverage` | the simulation run |
| `Serializer`, `Validators` | input validation |
| `DashboardMetrics` | dashboard statistics arithmetic |
| `Export` | map tiers and report tables |
| `DashboardStore` | the client-side store |

`log10`, `sqrt` and `pi` are left uninterpreted: they are fields of a `Math` value passed to every formula. Lemmas that need monotonicity, `log10(x²) == 2 log10 x` or `sqrt(x)^2 == x` assume them through the predicates `Log10Sound`, `Log10OfSquare` and `SqrtSound`. The domain error of `math.log10` on a non-positive argument is modelled explicitly by `Log10Checked`.

## Model

| member | source | states |
|---|---|---|
| Common.Log10Checked | backend/simulation/propagation_models_5g.py:103 | `math.log10` raises the math domain error exactly on non-positive arguments and otherwise returns log10 |
| Common.Trunc | backend/simulation/views.py:223 | Python `int()` on a real truncates toward zero: for a non-negative x the result is the largest integer not above x, for a negative x the smallest not below it |
| Hata.FirstError | backend/simulation/propagation/okumura_hata.py:18-25 | the first failing range check in the order frequency, antenna height, mobile height, distance; then the area type; no error exactly when all hold |
| Hata.FirstConfigError | backend/simulation/propagation/okumura_hata.py:18-23 | the first failing check other than distance; none exactly when the configuration is valid |
| Hata.AdjustForArea | backend/simulation/propagation/okumura_hata.py:39-48 | fails with the invalid-area error exactly when the area is not URBAN, SUBURBAN, RURAL or OPEN |
| Hata.SuburbanBelowUrban | backend/simulation/propagation/okumura_hata.py:41-42 | the suburban correction lowers the urban loss strictly |
| Hata.OpenIsRuralLessTen | backend/simulation/propagation/okumura_hata.py:43-46 | OPEN is RURAL minus 10 dB, and RURAL is urban minus the rural correction |
| Hata.AdjustPreservesOrder | backend/simulation/propagation/okumura_hata.py:39-46 | for every valid area a smaller urban loss gives a smaller adjusted loss |
| Hata.DistanceTermIncreases | backend/simulation/propagation/okumura_hata.py:36 | with a monotone log10 and an antenna height of 30-200 m, the term (44.9 − 6.55 log10 h) log10 d grows strictly with d |
| Hata.SearchRadius | backend/simulation/propagation/okumura_hata.py:66-81 | the bisection ends with a result and upper end inside [1, 20] km, at most 0.01 km apart, the lower end within budget (or 1) and the upper end over it (or 20); a loss error at a midpoint is returned as that error |
| Hata.BracketContainsBoundary | backend/simulation/propagation/okumura_hata.py:72-81 | when the loss fits the budget exactly up to some boundary b, the result lies at most 0.01 km below b |
| OkumuraHata.PathLoss | backend/simulation/propagation/okumura_hata.py:3-48 | fails exactly when a range or the area type is invalid, with the error of the first failing check in source order |
| OkumuraHata.CorrectionJumpAt300 | backend/simulation/propagation/okumura_hata.py:28-33 | apart from the 26.16 log10 f term, URBAN losses on the same side of 300 MHz are equal, and across 300 MHz they differ by exactly the gap between the 11.75 h_m and the 1.54 h_m corrections |
| OkumuraHata.OpenIsRuralLessTen | backend/simulation/propagation/okumura_hata.py:43-46 | OPEN succeeds exactly when RURAL does and loses 10 dB less |
| OkumuraHata.SuburbanBelowUrban | backend/simulation/propagation/okumura_hata.py:39-42 | SUBURBAN succeeds exactly when URBAN does and loses strictly less |
| OkumuraHata.UnknownAreaRejected | backend/simulation/propagation/okumura_hata.py:47-48 | an unknown area type always fails, with the area error once the ranges pass |
| OkumuraHata.LossIncreasesWithDistance | backend/simulation/propagation/okumura_hata.py:36-46 | with a monotone log10, the loss grows strictly with distance for every area type |
| OkumuraHata.CoverageRadius | backend/simulation/propagation/okumura_hata.py:50-81 | fails exactly when a non-distance check fails, with that check's error; otherwise returns a radius in [1, 20] km that brackets the coverage boundary for the budget power minus sensitivity |
| Cost231.PathLoss | backend/simulation/propagation/cost_231.py:3-43 | fails exactly when a range (1500-2000 MHz) or the area type is invalid, with the first failing check's error |
| Cost231.CorrectionIgnoresFrequency | backend/simulation/propagation/cost_231.py:28-31 | apart from the 33.9 log10(f) term, the urban loss does not depend on frequency: the mobile correction has no frequency term |
| Cost231.OffsetInEveryArea | backend/simulation/propagation/cost_231.py:31-46 | the 3 dB offset enters before the area adjustment, so the loss of every area type is 3 dB above that area's adjustment of the offset-free baseline |
| Cost231.OpenIsRuralLessTen | backend/simulation/propagation/cost_231.py:38-41 | OPEN succeeds exactly when RURAL does and loses 10 dB less |
| Cost231.SuburbanBelowUrban | backend/simulation/propagation/cost_231.py:34-37 | SUBURBAN succeeds exactly when URBAN does and loses strictly less |
| Cost231.UnknownAreaRejected | backend/simulation/propagation/cost_231.py:42-43 | an unknown area type always fails, with the area error once the ranges pass |
| Cost231.LossIncreasesWithDistance | backend/simulation/propagation/cost_231.py:31-41 | with a monotone log10, the loss grows strictly with distance for every area type |
| Cost231.CoverageRadius | backend/simulation/propagation/cost_231.py:45-78 | fails exactly when a non-distance check fails, with that check's error; otherwise returns a radius in [1, 20] km bracketing the coverage boundary |
| FiveG.Max | backend/simulation/propagation_models_5g.py:112 | `max` returns one of its arguments, no smaller than either |
| FiveG.FreeSpacePathLoss | backend/simulation/propagation_models_5g.py:15-37 | fails with the non-positive-input error exactly when frequency or distance is not positive |
| FiveG.FreeSpaceIncreasesWithDistance | backend/simulation/propagation_models_5g.py:34-37 | with a monotone log10, free-space loss grows strictly with distance |
| FiveG.Distance3DAtLeast2D | backend/simulation/propagation_models_5g.py:90 | with a sound sqrt, the 3D distance is never below the ground distance |
| FiveG.PathLoss | backend/simulation/propagation_models_5g.py:48-159 | the frequency check (0.5-100 GHz) first, then the distance check (10-10000 m), then the unsupported-scenario error naming the five scenarios; a result implies all three checks passed |
| FiveG.UmaLosContinuousAtBreakpoint | backend/simulation/propagation_models_5g.py:93-103 | at the breakpoint 4·h_bs·h_ut·f/c the far-regime formula, which applies there, gives the same loss as the near-regime one, given a sound sqrt and log10(x²) = 2 log10 x |
| FiveG.NlosNeverBelowLos | backend/simulation/propagation_models_5g.py:104-154 | in every scenario an NLOS loss implies a LOS loss no greater than it; outside RMa, NLOS succeeds exactly when LOS does |
| FiveG.IndoorLosScenariosAgree | backend/simulation/propagation_models_5g.py:140-154 | InH-Office and InH-ShoppingMall give the same LOS loss |
| FiveG.RmaNearRegimeUnreachable | backend/simulation/propagation_models_5g.py:127-128 | the RMa regime below 10 m is rejected by the distance check before it is reached, although the bare RMa LOS formula would use it |
| FiveG.RmaLosNeedsBaseHeight | backend/simulation/propagation_models_5g.py:125-132 | an in-range RMa LOS loss exists only with a non-zero base-station height |
| FiveG.UmaSucceedsUnlessBothHeightsZero | backend/simulation/propagation_models_5g.py:93-112 | in range, UMa yields a loss under any condition exactly when the two heights are not both 0 |
| FiveG.RmaLosSucceedsIffBreakpointPositive | backend/simulation/propagation_models_5g.py:122-132 | in range, RMa LOS yields a loss exactly when h_bs h_ut > 0 |
| FiveG.RmaNlosSucceedsIffPositiveDimensions | backend/simulation/propagation_models_5g.py:122-138 | in range, RMa under a non-LOS condition yields a loss exactly when h_bs, h_ut, h and w are all positive |
| FiveG.InRangeSuccess | backend/simulation/propagation_models_5g.py:93-157 | in range, UMi and both indoor scenarios always yield a loss, UMa and RMa under the conditions above, an unknown scenario never |
| FiveG.OnlyValueErrors | backend/simulation/propagation_models_5g.py:133-138 | every error of the 3GPP model is a ValueError: the division by h_bs is never reached with h_bs = 0 |
| FiveG.MmWavePathLoss | backend/simulation/propagation_models_5g.py:170-204 | the 24-100 GHz check first; inside the band it fails exactly on a non-positive distance |
| FiveG.MmWaveDecomposition | backend/simulation/propagation_models_5g.py:193-204 | the mmWave loss is free-space loss plus 20 dB unless LOS plus attenuation times distance |
| ModelCatalog.AvailableModels | backend/simulation/views.py:20-35 | the catalogue lists exactly two models |
| ModelCatalog.ModelParameters | backend/simulation/views.py:37-58 | parameters exist exactly for the 3GPP and mmWave ids; the defaults cover exactly the optional parameters; required and optional are disjoint |
| ModelCatalog.ParametersExactlyForListedModels | backend/simulation/views.py:20-58 | a model id has parameters exactly when it is listed |
| ModelCatalog.AdvertisedScenariosAccepted | backend/simulation/views.py:27 | the advertised 3GPP scenarios are exactly those the model accepts: none fails with the unsupported-scenario error |
| ModelCatalog.AdvertisedMmWaveConditions | backend/simulation/views.py:33 | mmWave advertises LOS and NLOS, and NLOS costs exactly 20 dB more |
| Coverage.SelectModel | backend/simulation/views.py:122-150 | "3GPP_TR_38901" selects 3GPP, "OKUMURA_HATA" Okumura-Hata, and every other name COST-231 |
| Coverage.EvaluateLoss | backend/simulation/views.py:131-150 | the loss at a distance in km: errors are ValueErrors; a Hata-type loss implies 1-20 km, a 3GPP loss 10-10000 m |
| Coverage.FiveGDefaults | backend/simulation/views.py:124-145 | without 5G parameters the 3GPP closure runs UMa, LOS, h_bs 10 m, h_ut 1.5 m, h 20 m, w 20 m on the frequency in Hz and distance in m |
| Coverage.SamplesPerAxis | backend/simulation/views.py:158-159 | `numpy.linspace` raises on a negative sample count exactly when 2·radius/0.1 ≤ −1 |
| Coverage.LinspaceEnds | backend/simulation/views.py:158-159 | the samples start at the low end and, with two or more, end at the high end |
| Coverage.SweepSignalExactlyMeasured | backend/simulation/views.py:165-204 | after the row-major sweep, the signal map holds exactly the visited points inside the radius whose loss succeeded, with their signal |
| Coverage.SweepCoveredExactly | backend/simulation/views.py:185-200 | the covered cells are exactly the visited measured points at or above −100 dBm |
| Coverage.SweepCoveredInOrder | backend/simulation/views.py:165-200 | the covered cells are listed in the row-major order of the loops, so no cell is listed twice |
| Coverage.RecordedPoints | backend/simulation/views.py:168-200 | every recorded point lies on the grid, inside the radius (and at least 1 km away for the Hata models), and is covered exactly when its signal is at least −100 dBm |
| Coverage.SweepGrid | backend/simulation/views.py:165-204 | the nested loops produce the signal map and covered list of the full row-major sweep |
| Coverage.CellAreaIsConstant | backend/simulation/views.py:194-199 | every covered cell has area 0.1·0.1 km² after the 111² scaling |
| Coverage.CoveredArea | backend/simulation/views.py:216 | the summed area is 0.01 km² per covered cell |
| Coverage.DiscArea | backend/simulation/views.py:215 | the disc area π·r² is positive for every non-zero radius |
| Coverage.CoveragePercentage | backend/simulation/views.py:214-219 | 0 for a non-positive radius; otherwise percentage·π·r² = 100·covered area, non-negative |
| Coverage.PopulationCovered | backend/simulation/views.py:222-225 | None exactly when the density is 0; otherwise the truncation of area·density |
| Coverage.RunPropagationModel | backend/simulation/views.py:117-240 | fails exactly on a negative sample count or on an undefined covered area; otherwise the report's signal map is the sweep's, and its percentage and population are those of 0.01 km² per covered cell of the sweep |
| Serializer.MissingOf | backend/api/serializers.py:74-75 | the missing fields are exactly the listed fields that are absent or None, in list order |
| Serializer.Validate | backend/api/serializers.py:65-94 | returns the data unchanged unless 5G on 3GPP lacks a base field, or UMa/RMa lacks h or w, and fails in exactly those cases |
| Serializer.MissingFieldsListedInOrder | backend/api/serializers.py:73-80 | a missing-fields error is non-empty and lists exactly the absent base fields in their declared order |
| Serializer.ScenarioCheckAfterBaseFields | backend/api/serializers.py:82-92 | the h/w error is raised only when every base field is present, names h before w, each exactly when absent |
| Serializer.OtherScenariosIgnoreHeightAndWidth | backend/api/serializers.py:84 | for UMi and the indoor scenarios, h and w do not affect acceptance |
| Serializer.BaseFieldsAreCatalogRequired | backend/api/serializers.py:74 | the serializer's base fields are the catalogue's required 3GPP parameters, in the same order |
| Validators.ValidateFrequency | backend/utils/validators.py:4-11 | accepts exactly 700-2600 MHz |
| Validators.ValidateAntennaHeight | backend/utils/validators.py:13-20 | accepts exactly 3-200 m |
| Validators.ValidateAntennaPower | backend/utils/validators.py:22-29 | accepts exactly 10-60 dBm |
| Validators.ValidateCoordinates | backend/utils/validators.py:31-43 | accepts exactly longitudes in [−180, 180] and latitudes in [−90, 90], reporting the longitude first |
| Validators.AllNameChars | backend/utils/validators.py:49 | true exactly when every character is a letter, digit, `_`, `-` or space |
| Validators.ValidateSimulationName | backend/utils/validators.py:45-52 | accepts a non-empty run of name characters, optionally followed by one final newline, which `$` lets through |
| Validators.NameAllowsOnlyFinalNewline | backend/utils/validators.py:49 | an accepted name has no newline before its last character, and appending a newline keeps it accepted exactly when it did not already end in one |
| Validators.ValidatedBandExceedsTerrestrialModels | backend/utils/validators.py:8-11 | frequencies above 2000 MHz and up to 2600 MHz pass the validator but fail both terrestrial models with a frequency error |
| DashboardMetrics.PeriodDays | backend/dashboard/views.py:174-182 | a look-back length exists exactly for "7days", "30days" and "90days" |
| DashboardMetrics.StartInstant | backend/dashboard/views.py:174-182 | the window starts the period's length before now, or at the earliest instant for all time; it fails exactly when that start would precede the earliest instant |
| DashboardMetrics.PreviousWindow | backend/dashboard/views.py:209 | the previous window as written: it ends at the current start, has the same length, and fails exactly when its start would precede the earliest instant |
| DashboardMetrics.AllTimeOverflows | backend/dashboard/views.py:181-182 | for the all-time period and any later now, the previous window overflows |
| DashboardMetrics.PreviousWindowClamped | backend/dashboard/views.py:209 | the clamped previous window never fails, ends at the current start, is no longer than the current window, and equals the computed one whenever that exists |
| DashboardMetrics.NamedPeriodWindows | backend/dashboard/views.py:174-209 | for the named periods, with enough history, both windows have exactly the period's length |
| DashboardMetrics.RoundHalfEven | backend/dashboard/views.py:267 | `round` lands within 0.5 of its argument |
| DashboardMetrics.Round1 | backend/dashboard/views.py:267 | `round(x, 1)` has one decimal (ten times it is a whole number) and lands within 0.05 of x |
| DashboardMetrics.Round1KeepsSign | backend/dashboard/views.py:267 | rounding to one decimal never flips the sign |
| DashboardMetrics.CalculateChange | backend/dashboard/views.py:263-267 | from a zero baseline, 100 for a positive value and 0 otherwise; otherwise the percentage change rounded to one decimal, within 0.05 of the exact change |
| DashboardMetrics.ChangeFollowsDirection | backend/dashboard/views.py:263-267 | from a positive baseline, growth is never reported as a drop, a drop never as growth, and no change is 0 |
| DashboardMetrics.SuccessRate | backend/dashboard/views.py:241 | 0 without simulations; otherwise rate·total = 100·completed, within [0, 100] |
| Export.TierOf | backend/utils/export.py:387-394 | excellent from −70 dBm, good from −85, fair from −100, poor below, each exactly on its band |
| Export.TiersAgreeWithCoverageThreshold | backend/utils/export.py:391-394 | a point is drawn in a non-poor tier exactly when the simulation counts it as covered |
| Export.Split | backend/utils/export.py:383 | `str.split` returns at least one piece |
| Export.SplitPieces | backend/utils/export.py:383 | `str.split` returns one piece more than there are separators, and no piece holds the separator |
| Export.SplitThenJoin | backend/utils/export.py:383 | joining the pieces with the separator gives the string back, so with `Split`'s contract the pieces are exactly the text between separators |
| Export.SplitWithoutSeparator | backend/utils/export.py:383 | a string without the separator splits into itself |
| Export.SplitJoinedPair | backend/utils/export.py:383 | two separator-free parts joined by the separator split back into the two parts |
| Export.Locate | backend/utils/export.py:382-385 | a coordinate pair is unpacked as longitude, latitude and returned as latitude, longitude; a text key succeeds exactly when it splits into two parts that both parse, and otherwise fails on the first part that does not parse among the first three, or else on the part count |
| Export.MalformedKeyFailsOnNumberFirst | backend/utils/export.py:383 | a key without a comma that is not a number reports the failed conversion, not a wrong part count |
| Export.KeyLandsSwapped | backend/utils/export.py:382-388 | a "lon,lat" key parses back to the point placed at (lat, lon) |
| Export.BucketsPartitionEntries | backend/utils/export.py:381-394 | the four tiers together hold every entry once, each tier holding exactly the entries of its band |
| Export.GroupSignals | backend/utils/export.py:381-394 | the loop's buckets, or its first key-parsing error, are those of the whole entry list |
| Export.Display | backend/simulation/models.py:16-49 | `get_..._display` returns the label of the first choice listing the value, and the raw value when no choice lists it |
| Export.ParameterRows | backend/utils/export.py:264-279 | no rows without a parameter record; otherwise the nine fixed parameter rows, plus the density row exactly when the density is non-zero |
| Export.ResultRows | backend/utils/export.py:299-307 | no rows without a result record; otherwise the heading and percentage rows, plus the population row exactly when the population is set and non-zero |
| Export.NoCoveredCellsNoPopulationRow | backend/utils/export.py:299-307 | a run with no covered cell yields a result table of only the heading and percentage rows, whatever the density |
| DashboardStore.FindIndex | frontend/src/store/modules/dashboard.js:67 | `find` picks the first widget holding the id, or none exactly when no widget has it |
| DashboardStore.ToggleFlipsOnlyTarget | frontend/src/store/modules/dashboard.js:66-71 | toggling flips the first widget with the id and leaves every other widget, and the length, unchanged |
| DashboardStore.ToggleTwiceRestores | frontend/src/store/modules/dashboard.js:66-71 | toggling the same widget twice restores the list |
| DashboardStore.EnabledIds | frontend/src/store/modules/dashboard.js:100-102 | the active ids are exactly the ids of enabled widgets, no more of them than widgets |
| DashboardStore.EnabledIdsAppend | frontend/src/store/modules/dashboard.js:100-102 | filter-then-map keeps the widget order: the ids of a concatenation are those of each part in turn |
| DashboardStore.EnabledIdsOfOne | frontend/src/store/modules/dashboard.js:100-102 | a single widget contributes its id exactly when it is enabled |
| DashboardStore.ApplySaved | frontend/src/store/modules/dashboard.js:92-98 | a widget is enabled exactly when its id is in the saved list; nothing else changes |
| DashboardStore.RestoredEnabledIds | frontend/src/store/modules/dashboard.js:92-102 | after restoring, the active ids are exactly the known widget ids in the saved list |
| DashboardStore.Storage.constructor | frontend/src/store/modules/dashboard.js:83-98 | empty local storage holds no layout, filters or widget list |
| DashboardStore.DashboardState.constructor | frontend/src/store/modules/dashboard.js:2-43 | the initial state: no active widgets, the four default widgets, the default layout and filters |
| DashboardStore.DashboardState.SetActiveWidgets | frontend/src/store/modules/dashboard.js:57-59 | replaces the active widget list and nothing else |
| DashboardStore.DashboardState.UpdateWidgetLayout | frontend/src/store/modules/dashboard.js:60-62 | replaces one breakpoint's layout and nothing else |
| DashboardStore.DashboardState.UpdateFilters | frontend/src/store/modules/dashboard.js:63-65 | the new filters are the old ones with the incoming merged over them: every key of either, the incoming values winning, the other old values kept |
| DashboardStore.DashboardState.ToggleWidget | frontend/src/store/modules/dashboard.js:66-71 | the widget list becomes the toggled list; nothing else changes |
| DashboardStore.DashboardState.InitDashboard | frontend/src/store/modules/dashboard.js:79-103 | the saved layout, filters and widget selection replace the state where present, and the active ids are those enabled |
| DashboardStore.DashboardState.ToggleWidgetAction | frontend/src/store/modules/dashboard.js:120-136 | toggles the widget, recomputes the active ids and saves exactly them |
| DashboardStore.DashboardState.ResetFiltersAction | frontend/src/store/modules/dashboard.js:178-187 | the new filters are the old ones with the defaults merged over them, so they hold the default period, technology and area type and keep every other key; the defaults are saved |
| DashboardStore.DashboardState.ResetLayoutAction | frontend/src/store/modules/dashboard.js:145-175 | as written: the commit names a mutation that does not exist, so the shown layout is unchanged while the default is saved |
| DashboardStore.DashboardState.SetLayout | frontend/src/store/modules/dashboard.js:173 | the missing mutation: replaces the layout and nothing else |
| DashboardStore.DashboardState.ResetLayoutFixed | frontend/src/store/modules/dashboard.js:145-175 | corrected: the shown layout becomes the default and the same layout is saved |
| DashboardStore.ResetLayoutKeepsCustomLayout | frontend/src/store/modules/dashboard.js:173-174 | a concrete run: after a reset the store still shows a custom layout while storage holds the default |
| DashboardStore.ResetLayoutFixedRestoresDefault | frontend/src/store/modules/dashboard.js:173-174 | the same run with the corrected action shows and saves the default |

## Left out

- Floating point: all quantities are exact reals. Rounding of IEEE doubles is not modelled, including the rounding that `round(x, 1)` and `int()` apply to already-rounded products.
- `log10`, `sqrt` and `pi` are uninterpreted. Properties that need their laws assume only monotonicity, `log10(x²) = 2 log10 x` and `sqrt(x)^2 = x` through `Log10Sound`, `Log10OfSquare` and `SqrtSound`.
- Hata.SearchRadius: termination is argued through the floor of 100 × the interval width. The proof covers the real-valued search, not the finite number of float halvings.
- Coverage: grid points are lattice indices `(i, j)`, not the six-decimal `"lon,lat"` string keys. Longitude and latitude are recomputed from the indices. The rounding in the key format is not modelled.
- Coverage: GEOS polygons, `Point`, `MultiPolygon` and the database writes are left out. Each covered cell contributes its constant area of 0.1 × 0.1 km² (`CellAreaIsConstant`).
- Coverage: the attached 5G parameters are read as a dictionary of optional values, as the `.get` calls treat them. How the ORM relation delivers them is not modelled.
- Coverage.RunPropagationModel: the `except ValueError` in the sweep is modelled as skipping the point. Any other exception is outside the model.
- Coverage: `run_simulation` (the HTTP view, the ORM save and the response) and `export_simulation_pdf` are not part of this model.
- FiveG.PathLoss: `h_roof` and `street_width` appear in the signature but are unused by the source, so the model has no such parameters.
- FiveG: error messages and f-strings are modelled by error kinds carrying the numbers the messages quote, not by their text.
- Export: `float()` parsing of a key part is a parameter `parse` that returns `None` where Python raises.
- Export: PDF layout, fonts, styles, the map image and folium rendering (export.py:324 and the drawing calls) are not modelled. Only the table rows and the tier grouping are.
- DashboardMetrics: instants are whole seconds counted from `datetime.min`. Time zones, microseconds and the clock are left out: `now` is a parameter. The ORM counts and averages of the dashboard views are left out; their results enter as numbers.
- DashboardStore: localStorage JSON is modelled as already-parsed values. Malformed JSON, which would throw in `JSON.parse`, is not modelled.
- DashboardStore: `SET_LOADING`, `SET_ERROR`, the loading and error fields, the getters, and the actions `initializeDashboard`, `updateWidgetLayout` and `updateFilters` are thin wrappers over the modelled mutations plus storage writes. They are left out. The console error Vuex prints for an unknown mutation is left out too.
- Authentication, routing, settings, the API views other than validation, and the frontend services are not part of this model.

## Findings

| source | as written | input that shows it | evidently intended | confidence | as-written member | corrected member |
|---|---|---|---|---|---|---|
| frontend/src/store/modules/dashboard.js:173 | `resetLayout` commits `SET_LAYOUT`, which is not among the module's mutations, so the shown layout stays as it was while local storage receives the default | a custom layout with an empty `lg` list, then `resetLayout` | commit a mutation that replaces the layout, so the shown and the saved layout are both the default | not executed | DashboardStore.DashboardState.ResetLayoutAction, DashboardStore.ResetLayoutKeepsCustomLayout | DashboardStore.DashboardState.ResetLayoutFixed, DashboardStore.ResetLayoutFixedRestoresDefault |
| backend/dashboard/views.py:209 | reachable only once the aggregate at backend/dashboard/views.py:198, which names fields the simulation model lacks (backend/simulation/models.py:5-14), is repaired; then for the period "all" the start is `datetime.min`, so `start - (end - start)` falls below `datetime.min` and raises `OverflowError` | period "all" with any `now` after `datetime.min` | clamp the previous window's start at the earliest representable instant | not executed | DashboardMetrics.PreviousWindow, DashboardMetrics.AllTimeOverflows | DashboardMetrics.PreviousWindowClamped |
