# cowtools result aggregation, modelled in Dafny

cowtools collects per-dataset analysis results of a high-energy-physics
analysis. A *result set* maps a dataset name (for example `/TTto2L2Nu...`) to
a *bundle*, and a bundle maps an observable name to something additive: a
number or a histogram. This project models the code that post-processes
result sets, in both the current module (`datatools/datatools.py`) and the
older one (`data_tools.py`):

- `combine_rename_results` files each dataset under the first group whose
  predicate accepts it. Bundles of one group are summed observable by
  observable. An observable that the group bundle lacks raises `ValueError`.
  A dataset that no group claims is stored under its short name, and a later
  write to that name wins. A warning fires when a group name is also a
  short-name target.
- `scale_results` multiplies every observable outside `dont_scale` by
  `xsec * lumi / evt_cnt` of its dataset.
  - The current variant builds a fresh result set and computes the factor
    once per dataset.
  - The older one works in place and looks the factor up per observable.
    Its `obs *= factor` only changes in-place multipliable objects
    (histograms); plain numbers keep their value.
- `DEFAULT_GROUPING_MAP` is the table of five prefix-test groups. The older
  table's Diboson group lacks the `/WZ` prefix.
- `XSecScaler` sums the data luminosity at construction. It reads each
  simulated dataset's cross section from the fileset, falling back to a
  nested layout, and its event count from `RawEventCount`. It offers three
  views, each built at most once and then kept: scaled simulation, scaled
  and grouped simulation, and grouped data.

Modules:

- `Results` (results.dfy) holds the shared shapes:
  - result sets are ordered `(name, bundle)` sequences with Python dict
    assignment semantics (`Put`, `Lookup`);
  - bundles are maps;
  - `Obs` is a `Number` or an `Accumulator` (a histogram reduced to one real);
  - errors are `Result` values.
- `Grouping` and `GroupingProps` cover `combine_rename_results`.
- `Scaling` and `ScalingProps` cover both `scale_results`.
- `DefaultGroups` holds both default tables.
- `Coordinator` and `CoordinatorProps` cover `XSecScaler`. One class carries a
  `version` that selects the `scale_results` variant and the default
  simulation grouping, which are the only differences between the two classes.

Each loop of the source is a method proved equal to a specification function
built over prefixes of the input: `Combine`, `Scale`, `LegacyScale`,
`TotalLuminosity`, `ScaleInputs` and `ShortNames`. The lemmas state what
those functions promise.

## Model

| member | source | states |
|---|---|---|
| Results.Put | src/cowtools/datatools/datatools.py:62 | `d[k] = v`: a new key is appended at the end, an existing one keeps its position |
| Results.PutLookup | src/cowtools/datatools/datatools.py:81 | after `d[k] = v`, `k` holds `v`, every other key holds what it held, and the key set grows by `k` only |
| Results.PutReplaces | src/cowtools/datatools/datatools.py:81 | assigning a key already present replaces exactly the entry holding it, in place |
| Results.Lookup | src/cowtools/datatools/datatools.py:61 | a value is found exactly when the key is present, and it is the value stored under it |
| Results.Plus | src/cowtools/datatools/datatools.py:66 | `+=` adds the values; the sum is a plain number only when both operands are |
| Results.Times | src/cowtools/datatools/datatools.py:125 | `obs * factor` multiplies the value and keeps the kind of observable |
| Grouping.FirstMatch | src/cowtools/datatools/datatools.py:57-59 | the index found accepts the dataset and no earlier predicate does; none is found exactly when no predicate accepts |
| Grouping.Merge | src/cowtools/datatools/datatools.py:64-72 | merging succeeds exactly when every incoming observable exists in the group bundle; a failure is the structure mismatch; the group bundle keeps its keys |
| Grouping.MergeInto | src/cowtools/datatools/datatools.py:64-72 | the `+=` loop over the incoming observables computes `Merge` |
| Grouping.AbsorbDataset | src/cowtools/datatools/datatools.py:56-81 | the group scan with `continue` and `break` files one dataset as `Absorb` specifies |
| Grouping.CombineRenameResults | src/cowtools/datatools/datatools.py:18-83 | returns `Combine` of the inputs, and `warned` is exactly the overlap of group names with short-name targets; the older function (data_tools.py:14-67) is the same loop |
| Grouping.CombineErrorSticks | src/cowtools/datatools/datatools.py:68-72 | once a `ValueError` is raised for a prefix, the whole call fails with it |
| GroupingProps.NamesOverlapIff | src/cowtools/datatools/datatools.py:40-50 | the warning fires exactly when some group name equals some short-name value (data_tools.py:32-38 alike) |
| GroupingProps.TotalStep | src/cowtools/datatools/datatools.py:64-66 | adding one more compatible member to a group's sum is a successful merge into the running sums |
| GroupingProps.GroupTotal | src/cowtools/datatools/datatools.py:61-67 | if nothing is renamed onto group `g`, then `g` is in the output exactly when it claimed a dataset; its bundle is the observable-wise sum of the claimed bundles, seeded by the first; and every later member's observables are among the first's (data_tools.py:43-61 alike) |
| GroupingProps.CombineOkIff | src/cowtools/datatools/datatools.py:61-72 | when renames avoid group names, the call succeeds exactly when, in every group, no member has an observable its first member lacks |
| GroupingProps.CombineFailsOnlyOnMismatch | src/cowtools/datatools/datatools.py:64-72 | the only error the grouping raises is the structure mismatch (data_tools.py:52-58 alike) |
| GroupingProps.AbsorbIsPut | src/cowtools/datatools/datatools.py:61-81 | one successful step is a single dict assignment to the dataset's target key |
| GroupingProps.AbsorbWritesTarget | src/cowtools/datatools/datatools.py:61-81 | one step changes only its target key and adds at most that key |
| GroupingProps.UnclaimedLastWrite | src/cowtools/datatools/datatools.py:76-81 | an unclaimed dataset is stored under `short_name_map.get(dset, dset)` with its bundle unchanged, and stays there unless a later dataset writes that key (data_tools.py:62-65 alike) |
| GroupingProps.CombineIsDict | src/cowtools/datatools/datatools.py:53-81 | the output never holds a key twice |
| GroupingProps.CombineKeys | src/cowtools/datatools/datatools.py:55-81 | the output keys are exactly the targets of the input datasets |
| GroupingProps.CombineWithoutMaps | src/cowtools/datatools/datatools.py:36-39 | with the default empty maps, the output equals the input |
| GroupingProps.FirstMatchWins | src/cowtools/datatools/datatools.py:57-75 | a dataset accepted by two groups goes to the one declared first |
| GroupingProps.AdditivityExample | src/cowtools/datatools/datatools.py:61-67 | two group members holding 3 and 4 give a group bundle holding 7 |
| GroupingProps.MismatchExample | src/cowtools/datatools/datatools.py:64-72 | group members with different observables raise the structure mismatch |
| DefaultGroups.DefaultDisjoint | src/cowtools/datatools/datatools.py:6-15 | no dataset name is accepted by two groups of the current default table |
| DefaultGroups.LegacyDefaultDisjoint | src/cowtools/data_tools.py:6-12 | no dataset name is accepted by two groups of the older default table |
| DefaultGroups.DisjointClaims | src/cowtools/datatools/datatools.py:23-24 | with disjoint predicates, a dataset lands in `g` exactly when some entry named `g` accepts it, whatever the table order |
| DefaultGroups.TablesDifferOnlyOnWZ | src/cowtools/data_tools.py:11 | the two default tables file a dataset differently exactly when its name starts with `/WZ`; the current table puts it in Diboson and the older one in no group |
| DefaultGroups.DefaultGroupNames | src/cowtools/datatools/datatools.py:6-15 | both tables create the groups QCD, ZJets, ttbar, SingleTop and Diboson |
| Scaling.Factor | src/cowtools/datatools/datatools.py:120 | the factor exists exactly when the dataset has a cross section and a nonzero event count; a missing entry is a `KeyError` on the dataset, a zero count a division error |
| Scaling.FactorFormula | src/cowtools/datatools/datatools.py:120 | factor times event count equals cross section times luminosity |
| Scaling.ScaleResults | src/cowtools/datatools/datatools.py:87-129 | the nested loop returns `Scale` of its inputs, with `dont_scale` defaulting to `RawEventCount` |
| Scaling.LegacyScaleResults | src/cowtools/data_tools.py:69-100 | the in-place nested loop returns `LegacyScale` of its inputs |
| Scaling.LegacyScaleBundleInPlace | src/cowtools/data_tools.py:96-98 | the inner loop over one bundle fails exactly when the bundle has an observable outside `dont_scale` and the dataset has no factor, with that error; otherwise only its accumulators outside `dont_scale` are multiplied |
| ScalingProps.ScaleOutcome | src/cowtools/datatools/datatools.py:118-120 | the current scaling succeeds exactly when every dataset has a factor, whatever its bundle holds; otherwise it fails with the first failing dataset's error |
| ScalingProps.ScaleShape | src/cowtools/datatools/datatools.py:117-129 | on success the datasets keep their order and observables; those outside `dont_scale` are multiplied by the dataset's factor and the rest are copied |
| ScalingProps.ScaleExample | src/cowtools/datatools/datatools.py:123-127 | 10 events scaled by `2 * 50 / 100` stay 10, and the raw count is untouched |
| ScalingProps.LegacyScaleOutcome | src/cowtools/data_tools.py:95-98 | the older scaling fails exactly when a dataset with an observable outside `dont_scale` has no factor; the error is that of the first such dataset |
| ScalingProps.LegacyScaleShape | src/cowtools/data_tools.py:95-100 | on success the same datasets and observables come back; only accumulators outside `dont_scale` are multiplied, and numbers keep their value |
| ScalingProps.LookupTiming | src/cowtools/data_tools.py:95-98 | a dataset holding only unscaled observables and lacking a cross section makes the current scaling fail but passes the older one unchanged |
| ScalingProps.LegacyBundleOnAccumulators | src/cowtools/data_tools.py:96-98 | on a bundle whose scaled observables are all accumulators, both bundle updates agree |
| ScalingProps.LegacyAgreesOnAccumulators | src/cowtools/data_tools.py:95-100 | when the current scaling succeeds and every scaled observable is an accumulator, the older one returns the same result |
| ScalingProps.LegacyNumberExample | src/cowtools/data_tools.py:98 | a plain number 10 under factor 2 stays 10 in the older scaling and becomes 20 in the current one |
| Coordinator.LookupXsec | src/cowtools/datatools/datatools.py:228-231 | the outer `xsec` is preferred and the nested one is the fallback; a missing dataset is a `KeyError` on it, and missing metadata a `KeyError` on `"metadata"` (data_tools.py:186-189 alike) |
| Coordinator.SumLuminosity | src/cowtools/datatools/datatools.py:206-209 | the constructor's loop computes `TotalLuminosity` |
| Coordinator.CollectScaleInputs | src/cowtools/datatools/datatools.py:225-232 | the collection loop of `_scale_mc` computes `ScaleInputs` |
| Coordinator.CollectShortNames | src/cowtools/datatools/datatools.py:248-250 | the short-name loop computes `ShortNames` |
| Coordinator.XSecScaler.constructor | src/cowtools/datatools/datatools.py:177-204 | stores the inputs and the luminosity; the three views start out empty |
| Coordinator.XSecScaler.Create | src/cowtools/datatools/datatools.py:132-209 | construction fails exactly when the luminosity cannot be summed, with that `KeyError`; otherwise the scaler is valid, holds the summed luminosity, and has no views yet; the simulation grouping defaults to the version's table (data_tools.py:103 for the older one) |
| Coordinator.XSecScaler.ScaledMc | src/cowtools/datatools/datatools.py:211-218 | returns the scaled view; a stored view is returned as is without rebuilding; the view is stored exactly when it was built successfully |
| Coordinator.XSecScaler.ScaleMc | src/cowtools/datatools/datatools.py:220-233 | collects the inputs, calls the version's `scale_results` (the older one as in data_tools.py:180-191), and stores its result exactly on success |
| Coordinator.XSecScaler.ScaledCombinedMc | src/cowtools/datatools/datatools.py:235-244 | returns the grouped scaled view; forces and stores the scaled view first; a stored view is returned without rebuilding or warning |
| Coordinator.XSecScaler.ScaleCombineMc | src/cowtools/datatools/datatools.py:246-255 | takes short names from the simulation fileset, groups the scaled view with the simulation table, and warns exactly on a name overlap |
| Coordinator.XSecScaler.CombinedData | src/cowtools/datatools/datatools.py:257-265 | returns the grouped data view; a stored view is returned without rebuilding or warning |
| Coordinator.XSecScaler.CombineData | src/cowtools/datatools/datatools.py:267-278 | takes short names from the data fileset and groups the data with the data table |
| CoordinatorProps.LuminosityOutcome | src/cowtools/datatools/datatools.py:207-209 | the luminosity can be summed exactly when every data bundle has `Luminosity`; otherwise it is a `KeyError` on that key |
| CoordinatorProps.LuminosityConcat | src/cowtools/datatools/datatools.py:207-209 | the luminosity of two runs of datasets is the sum of theirs |
| CoordinatorProps.LuminosityExample | src/cowtools/data_tools.py:166-169 | luminosities 10 and 15 sum to 25 |
| CoordinatorProps.XsecFallbackExample | src/cowtools/datatools/datatools.py:228-231 | a nested-only cross section is found; a nested layout without `xsec` fails on `"xsec"`, and no nested layout fails on `"metadata"` |
| CoordinatorProps.ScaleInputsOutcome | src/cowtools/datatools/datatools.py:227-232 | the inputs can be collected exactly when every simulated dataset has a readable cross section and a `RawEventCount` |
| CoordinatorProps.ScaleInputsKeys | src/cowtools/datatools/datatools.py:227-232 | both collected maps have exactly the simulated datasets as keys |
| CoordinatorProps.ScaleInputsShape | src/cowtools/datatools/datatools.py:227-232 | each dataset is mapped to its looked-up cross section and its `RawEventCount` |
| CoordinatorProps.ShortNamesShape | src/cowtools/datatools/datatools.py:248-250 | the map can be built exactly when every dataset has a fileset entry with metadata; each dataset then maps to its `short_name`, or to itself |
| CoordinatorProps.ScaledMcFailsOnlyOnZeroCount | src/cowtools/datatools/datatools.py:220-233 | once the inputs are collected, the current scaled view fails only on, and exactly on, a zero event count |
| CoordinatorProps.LegacyScaledMcFailsOnlyOnZeroCount | src/cowtools/data_tools.py:180-191 | the older scaled view fails exactly when a dataset it actually scales has a zero event count |
| CoordinatorProps.EndToEndExample | src/cowtools/datatools/datatools.py:211-255 | one top sample of 100 events at 1 pb scaled to 50 /pb has its histogram halved and lands in the default group ttbar |

## Left out

- File loading is not modelled. The pickle, gzip and JSON reads of the
  constructors and of the string branch of `scale_results` are I/O, and so
  is the `.pkl` suffix warning. Filesets and result sets arrive already parsed.
- `print` and `verbose` output is not modelled: it has no effect on results.
  The `warnings.warn` call becomes the returned flag `warned`, and its message
  text is not modelled.
- Object aliasing is not modelled; the model uses value semantics.
  - `combine_rename_results` stores the first member's bundle by reference.
    Its `+=` then updates the caller's bundle, including `XSecScaler`'s
    stored scaled view and its data.
  - Observables already added remain changed when the `ValueError` is raised
    part-way through.
  - The older `scale_results` updates the histograms of the `mc` it was
    given and returns that same object, so the older scaler's `mc` and
    scaled view are one object.
  - The model computes the same results without these side effects.
- Histograms are reduced to one real per observable. Every operation here is
  linear, so this is faithful per bin, but binning, under/overflow and
  floating-point rounding are not modelled. Python `int`/`float` are `real`.
- A zero event count is modelled as the error `ZeroDivision`, as Python
  raises for `int`/`float` division.
- Grouping predicates are total `string -> bool` functions. A predicate that
  raises is not modelled.
- `dont_scale` is a set, though the source accepts any iterable: only
  membership is used.
- Only string dataset names, observable names and metadata keys are modelled.
- The job-queue glue (`jobqueue.py`, `jobqueue/jobqueue.py`), plotting
  (`plotting/plotting.py`), the tests, and the package `__init__` re-exports
  are not part of this model.

## Findings

| source | as written | input that shows it | evidently intended | confidence | as-written member | corrected member |
|---|---|---|---|---|---|---|
| src/cowtools/data_tools.py:98 | `obs *= factor` rebinds the loop variable, so plain-number observables are never scaled; only in-place multipliable histograms change | a bundle `{"n": 10.0}` with factor `4 * 50 / 100 = 2` comes back holding 10.0 | every observable outside `dont_scale` is multiplied by the factor, as the docstring at data_tools.py:81-83 says and as datatools.py:123-125 does | not executed; high | ScalingProps.LegacyNumberExample | Scaling.ScaleResults |
