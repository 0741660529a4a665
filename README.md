# stats_showcase distribution core, modelled in Dafny

This project models the data-shaping core of the `stats_showcase` dashboard (`utils.py`).
The dashboard lets a user pick a probability distribution, give its parameters and draw samples.
It then shows a table of the samples with their density or mass, cumulative value and one or two
user-chosen functionals ("Survival Function", "Inverse Survival Function", ...), and a dictionary
of summary statistics. A second routine summarises a data set by group.

All of the probability maths belongs to the statistics library. The model keeps it abstract:

- `StatsLibrary` (stats_library.dfy) is the library as uninterpreted values. A `Library` maps family
  names to a `Family`. A family freezes with keyword or positional parameters (freezing may be
  refused) and can `fit` samples. A `Frozen` distribution has a sampler that returns exactly the
  requested number of variates, a closed map of elementwise attributes (`pdf`, `pmf`, `cdf`, `sf`,
  ...), `stats` for a string of moment letters, and an entropy. Looking up a name that is not in the
  map is the attribute error of the original.
- `MethodNames` (method_names.dfy): a user label becomes an attribute name by removing every
  space and then lowercasing.
- `DistributionTable` (distribution_table.dfy) models `create_distribution_df`. It covers the
  binding of parameters by shape, sampling, the choice of pdf or pmf, the primary option on the
  variates, the secondary option on the cumulative values, the stacked array and its transpose,
  the column labels and the statistics dictionary. Every place where the shaping code itself raises
  (binding, sampling size, attribute lookup, option indexing, column assignment) is an `Error`
  constructor, in the order the code reaches them. Failures inside the library's own functions are
  not modelled (see "Left out").
- `SummaryTable` (summary_table.dfy) models `create_summary_df`: the default function lists, the
  per-column aggregation map and the flattening of two-level column names. Grouping and aggregation
  are an uninterpreted function of the frame; the frame records which aggregation function names
  the library accepts, and aggregation fails on any other name. Flattening strips at most one
  leading and at most one trailing underscore of the joined name, so `('sales', 'min')` keeps its
  inner underscore (`sales_min`), while a group key that itself starts with an underscore (`_id`)
  comes back without it (`id`).
- `Wrappers` (wrappers.dfy): `Option` and `Result`.

Some behaviour of the code is easy to misread; the model follows the code:

- An unknown family name gives `UnknownDistribution` only when the parameters are a dict or a list.
  Any other parameter value is never looked up. The distribution stays unbound and sampling fails
  (`NotBound`).
- Whether `fit` runs, and so whether `loc`/`scale` appear, depends on the caller's `continuous_dist`
  flag, not on the family. Likewise the flag decides between `pdf` and `pmf`.
- The statistics keys are paired with the values by position. For a family with shape parameters,
  `fit` returns the shapes first. So the key `loc` holds the first shape value and `scale` the
  next value (`StatsLayout`).
- The attribute looked up is the label with spaces removed, lowercased. "Survival Function" becomes
  `survivalfunction`, which is only found if the frozen distribution has an attribute of that name.
- Column labels are assigned to the table. That fails unless there are exactly three standard
  labels (`ColumnLengthMismatch`).

## Model

| member | source | states |
|---|---|---|
| `MethodNames.LowerChar` | utils.py:118 | the lowered character is never an upper-case letter, is a space exactly when the input is, keeps non-letters and shifts an upper-case letter to its lower-case form |
| `MethodNames.StripSpaces` | utils.py:118 | the result has no space, keeps every other character as often as it occurs, is shorter by the number of spaces, and is unchanged for a space-free string |
| `MethodNames.StripSpacesAppend` | utils.py:118 | removing spaces distributes over concatenation, so the other characters keep their order |
| `MethodNames.StripSpacesSkipsSpace` | utils.py:118 | removing the spaces of two parts with a space between them gives the same as removing the spaces of the two parts joined directly |
| `MethodNames.Lower` | utils.py:118 | same length, each character lowered, no upper-case letter left |
| `MethodNames.LowerAppend` | utils.py:118 | lowering distributes over concatenation |
| `MethodNames.StripSpacesLower` | utils.py:118 | lowering and removing spaces commute |
| `MethodNames.MethodName` | utils.py:118-121 | an attribute name has no space and no upper-case letter, and its length is the label's minus its spaces |
| `MethodNames.MethodNameIdempotent` | utils.py:118-121 | normalising a normalised name changes nothing |
| `MethodNames.MethodNameCaseInsensitive` | utils.py:118-121 | labels equal up to letter case name the same attribute |
| `MethodNames.MethodNameIgnoresSpace` | utils.py:118-121 | a space anywhere in a label does not change the attribute it names |
| `MethodNames.MethodNameOfTwoWords` | utils.py:118 | a two-word label names its two words lowered and run together |
| `StatsLibrary.Elementwise` | utils.py:104-108 | applying an attribute to the variates gives an array of the same length whose element i is the attribute at variate i |
| `DistributionTable.Freeze` | utils.py:96-99 | a dict freezes by keyword and a list by position |
| `DistributionTable.Bind` | utils.py:93-99 | a dict binds by keyword and a list by position; an unknown name fails, a refused freeze fails, and any other shape is `NotBound` without a name lookup |
| `DistributionTable.Attribute` | utils.py:103-108 | the attribute is found exactly when the frozen distribution has it; otherwise `UnsupportedOperation` with that name |
| `DistributionTable.OptionAt` | utils.py:118 | an option label exists exactly when the index is within the tuple; otherwise `MissingOption` |
| `DistributionTable.Secondary` | utils.py:120-124 | disabled: no extra row or label; enabled: succeeds exactly when there is a second label naming an attribute, and then gives that label and its attribute applied to the cumulative values; otherwise the matching error (`MissingOption(1)` or `UnsupportedOperation` of the normalised name) |
| `DistributionTable.Columns` | utils.py:100-124 | the rows are produced exactly when the frozen distribution has the density or mass, the cdf and every option attribute the request names; then 4 rows (5 when conditional) of the requested length: variates, density or mass on them, cdf on them, primary option on them, secondary option on the cdf values |
| `DistributionTable.Transpose` | utils.py:126 | the table has one row per variate and entry (i, j) is array entry (j, i) |
| `DistributionTable.TransposeInvolution` | utils.py:126 | transposing twice gives the array back |
| `DistributionTable.StatValues` | utils.py:110-116 | the values are the requested moments, then the entropy at the next index, then (continuous only) every fitted value in order |
| `DistributionTable.ZipRound` | utils.py:135-136 | as many pairs as the shorter of keys and values, pair i is key i with value i rounded |
| `DistributionTable.Labels` | utils.py:128-131 | the standard labels come first, then the primary label, then the secondary label only when conditional |
| `DistributionTable.StandardColumns` | utils.py:94 | defines the standard labels: the continuous configuration's list for a continuous distribution, the discrete one otherwise |
| `DistributionTable.DensityName` | utils.py:103-106 | defines the attribute for the second row: `pdf` for a continuous distribution, `pmf` otherwise |
| `DistributionTable.CreateDistributionDf` | utils.py:71-138 | succeeds exactly when `Succeeds` holds; then 4 rows (5 when conditional) of length `dist_size`, in the order variates, pdf or pmf, cdf, primary on variates, secondary on cdf; labels are the standard labels plus the option labels and match the rows in number; the table is the transpose; stats zip the keys with moments, entropy and (continuous) fit |
| `DistributionTable.NotBoundFails` | utils.py:93-101 | parameters that are neither dict nor list always fail with `NotBound`, with no silent default |
| `DistributionTable.UnknownDistributionFails` | utils.py:96-99 | a dict or list with an unknown family name fails with `UnknownDistribution` |
| `DistributionTable.NegativeSizeFails` | utils.py:101 | a negative size fails at sampling |
| `DistributionTable.WrongKindFails` | utils.py:103-106 | when the distribution lacks the attribute the flag selects (pdf or pmf), the call fails with that attribute's name |
| `DistributionTable.MissingOptionFails` | utils.py:118-121 | an empty options tuple fails at index 0; one label with the secondary option enabled fails at index 1 |
| `DistributionTable.UnsupportedPrimaryFails` | utils.py:118 | an unknown primary label fails with its normalised name |
| `DistributionTable.UnsupportedSecondaryFails` | utils.py:120-121 | with the secondary option enabled, a second label that names no attribute fails with its normalised name, once every earlier row exists |
| `DistributionTable.InvalidParametersFails` | utils.py:93-99 | a known family that refuses the parameters fails as invalid parameters, before anything is sampled |
| `DistributionTable.ColumnMismatchFails` | utils.py:128-131 | with other than three standard labels, assigning the labels fails with both counts |
| `DistributionTable.TableRecoversArray` | utils.py:126-134 | the table has `dist_size` rows and transposing it back gives the returned array |
| `DistributionTable.StatsLayout` | utils.py:110-136 | with four moments: 5 keys for discrete, 7 for continuous (when fit gives at least two values), keys in the fixed order, values rounded moments, entropy, then the first two fitted values |
| `SummaryTable.Missing` | utils.py:52-55 | an argument counts as missing exactly when it is None, an empty list or an empty string |
| `SummaryTable.WithDefault` | utils.py:52-56 | a missing or empty argument becomes the default list, a given one is kept, and the result is never empty |
| `SummaryTable.ListOf` | utils.py:60 | a list is copied; a string becomes its one-character strings |
| `SummaryTable.StringFunctionsSplit` | utils.py:60 | a function name passed as a string of two or more characters is not kept as one function |
| `SummaryTable.StringFunctionsFail` | utils.py:60-63 | a non-empty string `functions` with a numeric aggregator makes the summary fail when the library knows no one-character function name |
| `SummaryTable.DefaultsAggregate` | utils.py:52-63 | with both arguments missing and min, max, mean and count known, the summary succeeds whenever the key and aggregators are columns |
| `SummaryTable.ColumnSpec` | utils.py:60 | a numeric column gets `list(functions)`, any other column the fallback |
| `SummaryTable.KnownSpec` | utils.py:62-63 | defines when `agg` accepts one column's specification: every name of a list, or the single name, is one the library knows |
| `SummaryTable.AllKnown` | utils.py:62-63 | defines when `agg` accepts the whole mapping: every column's specification is accepted |
| `SummaryTable.AggregationMap` | utils.py:60 | succeeds exactly when every aggregator is a column; one entry per aggregator, the function list for numeric columns and the fallback otherwise; else `KeyError` for the first missing one |
| `SummaryTable.Join` | utils.py:66 | no parts give the empty string and one part gives itself; otherwise the length is the parts' total plus one separator between neighbours, the first part is a prefix and the last part a suffix |
| `SummaryTable.JoinAppend` | utils.py:66 | joining a concatenation of two non-empty lists is joining each and putting one separator between them (with `Join` this fixes `str.join` completely) |
| `SummaryTable.JoinTailAppend` | utils.py:66 | putting the separator before every part distributes over concatenating two lists of parts |
| `SummaryTable.JoinTailEnds` | utils.py:66 | the last part ends the separator-prefixed concatenation |
| `SummaryTable.StripEdge` | utils.py:66 | at most two characters go; a name with no leading underscore and no end match is unchanged; a leading underscore alone removes just the first character; a final underscore alone removes just the last; an underscore before a final newline removes just that underscore, also together with a leading underscore |
| `SummaryTable.EndMatch` | utils.py:66 | defines where `_$` matches: a final underscore, or an underscore just before a final newline |
| `SummaryTable.StripBothEnds` | utils.py:66 | for every name, one underscore added at each end is stripped back off and nothing else |
| `SummaryTable.StripEdgeRoundTrip` | utils.py:66 | adding at most one underscore at each end of a plain name and stripping gives the name back |
| `SummaryTable.StripNothing` | utils.py:66 | a plain name is left unchanged |
| `SummaryTable.StripLeading` | utils.py:66 | one underscore before a plain name is stripped back off |
| `SummaryTable.StripTrailing` | utils.py:66 | one underscore after a plain name is stripped back off |
| `SummaryTable.FlattenColumn` | utils.py:66 | an empty tuple flattens to the empty name, a one-level tuple to its stripped name, and a tuple that starts and ends cleanly to the plain underscore join |
| `SummaryTable.FlattenColumns` | utils.py:66 | one flattened name per column tuple, in order |
| `SummaryTable.JoinPair` | utils.py:66 | joining two parts puts the separator between them |
| `SummaryTable.FlattenGroupKey` | utils.py:64-66 | the group key tuple `(key, '')` flattens to `key` for every key without a leading underscore |
| `SummaryTable.FlattenGroupKeyLosesUnderscore` | utils.py:64-66 | a group key with a leading underscore, `('_' + rest, '')`, flattens to `rest` |
| `SummaryTable.FlattenAggregate` | utils.py:66 | `(column, function)` flattens to `column_function` when the column has no leading underscore and the function name no end match |
| `SummaryTable.FlattenEmptyFirstLevel` | utils.py:66 | `('', function)` flattens to `function` when the function name has no end match |
| `SummaryTable.CreateSummaryDf` | utils.py:38-68 | succeeds exactly when the group key and every aggregator are columns and every function name in each column's specification is one the library accepts; a missing aggregator fails first, with a `KeyError` naming an aggregator that is not a column; then a missing group key fails with `KeyError` of the group key; any other failure is `UnknownAggregation`; numeric columns get the given functions or min, max, mean; others the fallback or count; one flattened name per aggregated column |

## Left out

- Probability numerics (sampling, pdf, pmf, cdf, functionals, moments, entropy, fit) belong to the statistics library. They are uninterpreted functions; parameter validation inside `rvs` beyond a negative size is not modelled.
- Sampling without a seed uses the library's global random state. That state is folded into the sampler function, so the model does not show that two unseeded calls may differ.
- Failures raised inside the library's own functions are not modelled, because the library is a record of total functions: `stats` and `entropy` (utils.py:110-111), `fit` (utils.py:115, e.g. a fit error or non-finite data) and the elementwise attributes pdf, pmf, cdf and the option functionals (utils.py:104-121). Only the raises of the shaping code have `Error` constructors.
- `round(v, 4)` on floats is a parameter `round4`, since float rounding is not modelled.
- Only elementwise attributes are in the frozen distribution's attribute map. A label that names some other attribute (`rvs`, `stats`) is treated as unsupported.
- `stats` is modelled as returning a sequence. For a single moment letter the library returns a scalar, and that path is not modelled.
- Matrix mode (a 2-D `dist_size`) and the later flattening of the sample grid are not part of this model; `dist_size` is an integer.
- `MethodNames.Lower` and `MethodNames.LowerChar`: lowercase ASCII letters only. Python's Unicode case mapping is not modelled.
- Each reactive read (`conditional()`, `user_options[k]()`) is modelled as one value read once.
- The standard column labels come from a `Config` parameter; loading the configuration file (utils.py:10-16) is not modelled.
- `get_data_files` (utils.py:21-35) lists files on disk and `synchronize_size` (utils.py:144-161) wires reactive effects; both are I/O and are left out.
- modules/distributions/server.py is UI wiring (widget updates, plots) and is not part of this model.
- Pandas grouping, aggregation and `reset_index` are an uninterpreted function returning the column tuples.
- `SummaryTable.CreateSummaryDf`: of the ways `agg` can fail, only an unknown function name is modelled; an empty `aggregators` list (so an empty mapping) is modelled as a success with no aggregated columns, although pandas' dict-form `agg` is expected to raise on it; failures on the column data themselves (e.g. `mean` of a column pandas cannot average) are not, because the frame's values are not modelled. When every aggregation spec is a plain string, pandas produces single-level column names; the model assumes tuples.
- `SummaryTable.AggregationMap`: the map is unordered, so the insertion order of the Python dict (aggregator order) is not kept.
- Aggregation functions given as callables (e.g. `np.sum`) are not modelled; only names.
