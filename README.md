# Trace-analysis data preparation, modelled in Dafny

This project models the data-preparation side of the trace analysis of auto-tuned particle
simulations. Each simulation run leaves a live-info log and an iteration log. `PlotData` reads
both logs and keeps one row per iteration. It removes the iterations recorded during a tuning
phase from every plotted series, and it remembers the rows where a tuning phase begins. The
plot methods group rows by configuration string, and a global cache gives each configuration
a colour. `estimate_tuning_triggers` counts the positions where a time-based retuning strategy
would have fired.

Modules, one per concern of `utils/classes/PlotData.py` and `utils/plot_util.py`:

- `TuningConfigs` (tuning_config.dfy): the configuration entity. It is known only by its string
  form and by its tuning flag.
- `TuningFilter` (tuning_filter.dfy): `remove_tuning_its`. It returns the printed warning and
  either the kept elements or the IndexError it raises.
- `TuningStarts` (tuning_starts.dfy): the `first_tuning_its` loop of `PlotData.__init__`.
- `ConfigMasks` (config_masks.dfy): the index masks and boolean masks the two plot methods
  build per distinct configuration string.
- `ConfigColours` (config_colours.dfy): `map_cfg_to_col` with `AVAIL_COLS` and
  `CONFIG_COL_MAP`. A pure step function `Assign` is the specification. The class
  `ColourCache` holds the two pieces of module state and updates them in place.
- `PlotData` (plot_data.dfy): the `PlotData` class, its constructor, and `Load`. `Load` is a
  call of the constructor together with the exceptions it can raise and the number of warning
  lines it prints.
- `PlotUtil` (plot_util.dfy): the loop of `estimate_tuning_triggers`. It returns the
  timestamps instead of printing them.

A row-count mismatch between the two logs is meant to be reported and tolerated, with both
logs cut to their common length. The code does not cut; the model follows the code. Each series
is filtered over its own length, after the "data seems to be corrupted" warning. Live-info rows
beyond the iteration rows make the filter raise IndexError (`Load` returns `Err(IndexErr)`).
Fewer live-info rows leave `iteration` and the live-info series no longer than `runtime` and
`configs` (`LoadedLengths`). They are shorter when a non-tuning iteration row lies beyond the
live-info rows. The scatter plot of a live-info parameter then indexes `iteration` past its
end (`ShortLiveinfoMaskOutOfRange`).

## Model

| member | source | states |
|---|---|---|
| `TuningFilter.RemoveTuningIts` | utils/classes/PlotData.py:52-57 | The corruption warning is printed iff `len(elems) != len(tune)`. IndexError is raised iff `tune` is shorter than `elems`. Otherwise the result is the filtered series. |
| `TuningFilter.NonTuningIndices` | utils/classes/PlotData.py:57 | Every kept position is below the element count and has its tuning flag false. Kept positions strictly increase. |
| `TuningFilter.NonTuningCount` | utils/classes/PlotData.py:57 | There are as many kept positions as false flags in `tune[0..len(elems))`. |
| `TuningFilter.NonTuningComplete` | utils/classes/PlotData.py:57 | Every position whose flag is false is kept. |
| `TuningFilter.NonTuningIndicesSpec` | utils/classes/PlotData.py:57 | A position below the element count is kept iff its flag is false. The number kept equals the number of false flags. |
| `TuningFilter.NonTuningSelects` | utils/classes/PlotData.py:57 | The k-th kept element is `elems` at the k-th kept position, so elements keep their original order. |
| `TuningFilter.NonTuningShorter` | utils/classes/PlotData.py:57 | Filtering never makes a series longer. |
| `TuningFilter.NonTuningNoTuning` | utils/classes/PlotData.py:57 | With all flags false the series comes back unchanged. |
| `TuningFilter.NonTuningAllTuning` | utils/classes/PlotData.py:57 | With all flags true the result is empty. |
| `TuningFilter.FilteredSeriesAligned` | utils/classes/PlotData.py:119-132 | Two series of equal length filtered by the same flags have equal lengths. Entry k of both comes from the same non-tuning raw row. |
| `TuningStarts.TuningStartsSpec` | utils/classes/PlotData.py:111-116 | The list starts with 0. Every later entry i satisfies `1 <= i < rows` with tuning on at i and off at i-1. Every such i is listed. Entries strictly increase, and later entries are at least 2 apart. |
| `TuningStarts.FirstTuningIts` | utils/classes/PlotData.py:111-116 | The loop over the configurations produces exactly the list characterised by `TuningStartsSpec`. |
| `ConfigMasks.IndexMaskUpTo` | utils/classes/PlotData.py:176-180 | Every index in the mask is a valid row holding the key. Indices strictly increase. |
| `ConfigMasks.IndexMaskUpToExact` | utils/classes/PlotData.py:176-180 | Among the first n rows, a row index is in the mask iff that row holds the key. |
| `ConfigMasks.IndexMaskExact` | utils/classes/PlotData.py:176-180 | A row index is in the key's mask iff that row holds the key. |
| `ConfigMasks.MasksAgree` | utils/classes/PlotData.py:253-254 | The boolean mask of the runtime plot is true exactly at the rows in the index mask of the scatter plot. |
| `ConfigMasks.GroupsPartition` | utils/classes/PlotData.py:175-180 | There is one mask per distinct configuration string. Every row lies in the mask of its own string, and a mask holds only rows of its string. |
| `ConfigMasks.GroupsDisjoint` | utils/classes/PlotData.py:175-180 | Masks of two different configuration strings share no row. |
| `ConfigColours.Assign` | utils/classes/PlotData.py:60-70 | On a cached key: returns the stored colour and changes nothing. On a new key: adds exactly that one entry, keeps every existing entry, and returns the stored colour. It pops exactly the last palette colour, or takes the random colour when the palette is empty. |
| `ConfigColours.ColourCache.MapCfgToCol` | utils/classes/PlotData.py:60-70 | Updates the cache's map and palette in place, exactly as `Assign` says. |
| `ConfigColours.ColourCache.constructor` | utils/classes/PlotData.py:25-26 | The cache starts with an empty map and the whole Tableau palette. |
| `ConfigColours.FreshCacheDistinct` | utils/classes/PlotData.py:25-26 | In the fresh cache, no palette colour appears twice. |
| `ConfigColours.AssignKeepsDistinct` | utils/classes/PlotData.py:64-70 | A hit, or a miss served from the palette, keeps three facts: palette colours are pairwise distinct, configurations have pairwise distinct colours, and no assigned colour is still in the palette. |
| `ConfigColours.PaletteColoursDistinct` | utils/classes/PlotData.py:60-70 | From a duplicate-free state, any run of calls gives every configuration a colour no other configuration has, as long as the palette holds one colour per configuration the calls see for the first time. Repeated calls on a coloured configuration are allowed in any number. |
| `ConfigColours.FreshCacheColoursDistinct` | utils/classes/PlotData.py:25-26 | From the fresh cache, any run of calls over at most ten distinct configurations, with any number of repeats, gives every configuration its own colour. |
| `PlotData.FirstMissing` | utils/classes/PlotData.py:126-129 | Finds the first live-info column that some row lacks, which is the column whose read raises KeyError. All earlier columns are present. |
| `PlotData.ReadLiveinfo` | utils/classes/PlotData.py:124-132 | `liveinfo` gets exactly the listed columns. Each is the column read from the live-info rows, filtered by the iteration log's tuning flags. |
| `PlotData.PlotData.constructor` | utils/classes/PlotData.py:82-132 | Each field is the named column or the filtered series. `first_tuning_its` is computed from the unfiltered configurations. |
| `PlotData.Load` | utils/classes/PlotData.py:82-132 | More live-info rows than iteration rows: IndexError after one warning. Otherwise, a missing live-info column raises KeyError on the first such column. Otherwise a loaded object is returned. Each case gives the exact number of corruption warnings printed. |
| `PlotData.LoadedLengths` | utils/classes/PlotData.py:93-132 | `iteration` and every live-info series have one entry per non-tuning row among the live-info rows. `runtime`, `configs` and `stringified_configs` have one per non-tuning iteration row. With equal row counts all series have the same length. |
| `PlotData.MasksFitSeries` | utils/classes/PlotData.py:175-187 | On aligned data, every mask index is valid for `iteration` and for every live-info series. The boolean mask is as long as the plotted series. |
| `PlotData.ShortLiveinfoMaskOutOfRange` | utils/classes/PlotData.py:175-183 | When a non-tuning iteration row lies beyond the live-info rows, `stringified_configs` is longer than `iteration`. Its last position is in the mask of its own configuration, so the scatter plot reads `iteration` out of range. |
| `PlotUtil.TriggersSpec` | utils/plot_util.py:46-49 | Every reported index i satisfies `1 <= i < len(param)`. Index i is reported iff `param[i] >= factor * param[i-1]`. Indices strictly increase, so each appears at most once. There are at most `len(param) - 1` of them. |
| `PlotUtil.TriggerAntitone` | utils/plot_util.py:48 | With a non-negative previous sample, a trigger for a larger factor is a trigger for a smaller one. |
| `PlotUtil.RaisingFactorRemovesTriggers` | utils/plot_util.py:46-49 | For non-negative samples, raising the factor only removes triggers and never adds any. |
| `PlotUtil.EstimateTuningTriggers` | utils/plot_util.py:39-53 | The loop returns exactly the triggers: in range, the iff condition, strictly increasing. Fewer than two samples give none, and the printed count is at most `len(param) - 1`. |

## Left out

- Rendering: scatter, vertical lines, `fill_between`, legends, titles and saved figures of `plot_liveinfo_params` and `plot_iteration_runtime` are presentation. Only the mask grouping is modelled.
- Smoothing (moving average and low-pass filter of the runtime plot) is floating-point division used only for plotting.
- CSV reading: opening the files, `csv.DictReader`, and the `int(...)`, `float(...)` and `"true"` conversions are not modelled. Rows arrive already parsed: integer runtimes, boolean tuning flags, real live-info values. Conversion errors are not modelled.
- A missing iteration-log column (`computeInteractions[ns]`, `inTuningPhase` or a configuration column) or a missing `Iteration` column in the live-info log raises KeyError in the source. The model is not told about these: its row datatypes always carry those fields. Only a missing column among the 21 listed live-info parameters is modelled as KeyError.
- `TuningConfig` is not part of this model. A configuration is its string form plus its `.tuning` flag, given as fields of each iteration row.
- The random colour fallback is nondeterministic. `MapCfgToCol` takes the drawn colour as the parameter `randomColour`, so the `"#{:06x}"` formatting is not modelled.
- `CONFIG_COL_MAP` and `AVAIL_COLS` are module-level globals shared by every `PlotData`. The model holds them in one `ColourCache` object that callers pass around.
- PlotUtil.EstimateTuningTriggers: `factor` is a Dafny `real`, so Python's floating-point rounding of `factor * param[i-1]` is not modelled.
- Printed messages: `Load` returns the number of corruption-warning lines. `EstimateTuningTriggers` returns the timestamps whose count and values are printed.
- Job and environment plumbing (`run_jobs.py`, `pipeline.py`, both `SimulationRun.py`, `Config.py`, `config.py`) and the file-system helpers `clean_up_files`, `collect_runtimes` and `main` of `plot_util.py` rename, list and scan files on disk.
- `first_tuning_its` holds raw row positions, and the runtime plot draws them against iteration numbers. The model states which positions are listed and does not say how they are plotted.
