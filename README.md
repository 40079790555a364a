# GroupedArray and the forecast loops of statsforecast, in Dafny

statsforecast keeps every time series of a data set in one ragged-array
store, `GroupedArray`. It is a flat buffer of rows (`data`) and an offset
vector (`indptr`); group i occupies `data[indptr[i] .. indptr[i+1])`. On
this store:

- `compute_forecasts` calls a forecasting function once per group and
  writes its h values into rows `[h*i, h*(i+1))` of a dense buffer. In
  interval mode the buffer has `2*len(level)+1` columns, filled in the key
  order of the first group's result.
- `compute_cv` runs a rolling-window backtest per group and records
  forecasts next to targets.
- `split` cuts the store into balanced chunks for worker processes.
- `_sequential` and `_data_parallel` run every model over the store, or
  over its chunks, and collect the outputs in a dict of named columns.

The project models these, plus the helpers around them:

- how `indptr` is built from group sizes;
- the forecast and cross-validation timestamps on integer time;
- the display name of a model with arguments;
- `_as_tuple`;
- the worker-count rule.

Modules and files:

| file | module | models |
|---|---|---|
| wrappers.dfy | Wrappers | Option, the exception kinds raised, Result |
| seqs.dfy | Seqs | Python slicing and indexing; concatenation of blocks; block-by-block writing into a buffer |
| grouped.dfy | Grouped | the store: `ga[i]`, `ga[a:b]`, `len`, `==`, iteration, offsets from sizes |
| split.dfy | Split | `split(n)` over `numpy.array_split` |
| models.dfy | Models | the forecasting callable, its declared parameters, dicts as key-ordered lists |
| names.dfy | Names | `_build_forecast_name`, `_as_tuple`, `_get_n_jobs` |
| forecast_kernel.dfy | ForecastKernel | `compute_forecasts`, point and interval mode |
| cv.dfy | CrossValidation | `compute_cv` |
| dates.dfy | Dates | the `ds` column of `forecast` and `_cv_dates` |
| merge.dfy | Merge | `_sequential`, `_data_parallel`, the dict `fcsts` |

How the model represents things:

- The forecasting function is opaque: it is a parameter of the model
  (`Models.Callable`). It carries:
  - its name;
  - its declared parameters after (series, horizon, exogenous), each with
    an optional default;
  - whether it accepts `level`;
  - a point-mode and an interval-mode function.
- Values have a generic type `V`.
- A NaN-filled buffer cell is `None` ("not written"); a written cell is
  `Some(v)`.
- A dict is a list of (key, column) pairs in insertion order.
- An entry of `models` is a `Names.PyValue`: a bare value or a tuple of
  values. A parameter `asModel` tells which values are forecasting
  functions. Both loops unpack each entry (`Merge.ToEntry`) before they
  run it.

The loops are imperative methods over arrays. Each method is proved equal
to a specification function; lemmas about that function state what the
source promises. Where a contract is a caller obligation of the source
(the function returns h values, groups are long enough), it appears as a
`requires` and is named under "Left out".

`ga[i]` follows numpy indexing. A negative integer does not raise
IndexError: numpy reads
`indptr[i]` and `indptr[i+1]` from the end. So `ga[-1]` is the empty
slice `data[indptr[-1]:indptr[0]]`, and `ga[-k]` for `2 <= k <= n+1` is
group `n + 1 - k`. `Grouped.Get` states this.

## Model

| member | source | states |
|---|---|---|
| Grouped.Get | statsforecast/core.py:29-31 | `ga[i]` succeeds exactly for `-n-1 <= i < n`; for `0 <= i < n` it is group i, the rows `indptr[i] .. indptr[i+1]`; `ga[-1]` is empty and `ga[i]` for `-n-1 <= i <= -2` is group `n+1+i` |
| Grouped.Iterate | statsforecast/core.py:29-31 | `for grp in ga`, driven by `ga[0], ga[1], ...` until IndexError, yields exactly the groups of the store in order |
| Grouped.GroupsOf | statsforecast/core.py:40-41 | `len(ga)` is `indptr.size - 1`, the number of groups the store holds |
| Grouped.SliceStore | statsforecast/core.py:32-37 | `ga[a:b]` with `0 <= a <= b <= n` is a valid store (offsets start at 0, never decrease, end at the data length) with `b - a` groups; group k is group `a + k`; its data is exactly those groups' rows; `0 <= b < a` raises IndexError (empty offset selection); any result is a valid store |
| Grouped.SliceGroups | statsforecast/core.py:32-37 | the groups of `ga[a:b]` are groups `a .. b-1` of `ga`, in order |
| Grouped.SliceCopy | statsforecast/core.py:33-37 | copying the selected offsets into a buffer and rebasing it in place computes the slice |
| Grouped.RebaseInPlace | statsforecast/core.py:36 | `new_indptr -= new_indptr[0]` subtracts the first entry from every entry |
| Grouped.Equal | statsforecast/core.py:46-49 | two stores are equal exactly when their data and their offsets are equal |
| Grouped.EqualIffSameGroups | statsforecast/core.py:46-49 | two valid stores are equal exactly when they hold the same groups in the same order |
| Grouped.PrefixSums | statsforecast/core.py:103-105 | `np.append(0, cumsum(sizes))` has one more entry than groups, starts at 0 and steps by each group's size |
| Grouped.PrefixSumsIsSum | statsforecast/core.py:103-105 | entry i is the total size of the first i groups |
| Grouped.PrefixSumsMonotone | statsforecast/core.py:103-105 | the offsets never decrease |
| Grouped.Int32 | statsforecast/core.py:105 | `.astype(np.int32)` yields a signed 32-bit value congruent to its input modulo 2^32, and keeps any value already in range |
| Grouped.CastKeepsOffsets | statsforecast/core.py:103-105 | below 2^31 rows the int32 cast keeps every offset: the stored offsets are the exact prefix sums |
| Grouped.CastWrapsPast | statsforecast/core.py:103-105 | for 2^31 <= rows < 2^32 the stored final offset wraps to `rows - 2^32`, a negative number |
| Grouped.BuildValid | statsforecast/core.py:105-106 | the store built from sizes is valid, has one group per size, and group i has `sizes[i]` rows |
| Grouped.LastDatesAreGroupEnds | statsforecast/core.py:104 | `ds[cum_sizes - 1]` is, for each group, the timestamp of its final row |
| Grouped.FromGroupsRoundTrip | statsforecast/core.py:100-106 | building the store from groups and reading the groups back gives the same groups |
| Grouped.GroupsDetermineStore | statsforecast/core.py:22-27 | a valid store is rebuilt exactly (data and offsets) from its groups |
| Split.Split | statsforecast/core.py:91-92 | `split(n)` raises ValueError for `n <= 0`; otherwise it returns `min(n, n_groups)` valid, non-empty chunks of `n_groups / n` or `n_groups / n + 1` groups each |
| Split.ChunkRangesFacts | statsforecast/core.py:92 | the non-empty sections of `array_split(range(total), n)` tile `[0, total)` in order; there are `min(n, total)` of them, each of size `total / n` or one more |
| Split.ChunkSizesSum | statsforecast/core.py:92 | the section sizes of `array_split` add up to the number of groups |
| Split.SplitChunkGroups | statsforecast/core.py:92 | chunk c holds exactly the groups of section c, in order |
| Split.SplitRoundTrip | statsforecast/core.py:91-92 | the chunks' groups in chunk order are the store's groups; their data back to back is the store's data; the store rebuilt from them equals the original, offsets included |
| Names.BareNameIffDefaults | statsforecast/core.py:125-136 | the name is the bare model name exactly when every passed argument equals its declared default (zip stops at the shorter list) |
| Names.ChangedParamsExact | statsforecast/core.py:129-135 | the suffix has one `name-value` entry per differing argument, in argument order, and for no other argument |
| Names.DiffsFromExact | statsforecast/core.py:129-133 | the differing positions from k on are listed exactly once each, in increasing order |
| Names.ResetRemovesEntry | statsforecast/core.py:129-133 | setting an argument back to its default removes its entry and keeps every other one |
| Names.Unpack | statsforecast/core.py:226 | `model, *args = t` fails with ValueError exactly for the empty tuple; otherwise the first item followed by the rest is `t` again |
| Names.AsTupleUnpack | statsforecast/core.py:139-142 | `_as_tuple` then unpacking gives a bare value with no arguments, and fails for a tuple exactly when it is empty; `_as_tuple` leaves a tuple unchanged |
| Names.NJobs | statsforecast/core.py:163-167 | the worker count is at most the number of groups and at most the requested count (`cpu_count()` for -1 or None), and equals one of the two |
| Models.LookupKeys | statsforecast/core.py:66-68 | `res[key]` succeeds exactly for the keys `list(res.keys())` lists, and returns the series stored under that key |
| ForecastKernel.ComputePointForecasts | statsforecast/core.py:57-70 | the point-mode loop over groups computes `PointForecasts`: the groups' forecasts back to back, or the IndexError of the first missing `xreg[i]` |
| ForecastKernel.PointGroup | statsforecast/core.py:61-70 | one pass writes group i's forecast right after those of groups `0 .. i-1` and leaves the rest unwritten; it fails exactly when `xreg[i]` raises |
| ForecastKernel.PointLayout | statsforecast/core.py:54-70 | point mode fails exactly when some group has no exogenous block; otherwise the buffer has `h * n_groups` cells and cell `h*i + k` is step k of `f(ga[i], h, xreg[i])` |
| ForecastKernel.FetchXreg | statsforecast/core.py:61-62 | `xreg[i]` raises IndexError exactly when there is an xreg without group i, and otherwise passes group i's exogenous rows (None without xreg) |
| ForecastKernel.ComputeIntervalForecasts | statsforecast/core.py:53-71 | the interval-mode loop computes `IntervalForecasts`: the table and the first group's keys, or the first error a group raises |
| ForecastKernel.FillIntervals | statsforecast/core.py:60-68 | the loop over groups returns the first group error, and otherwise leaves every group's full block in group order with `keys` taken from the first group |
| ForecastKernel.WriteGroup | statsforecast/core.py:67-68 | the column loop of one group raises what `ColumnError` names, and otherwise writes every key's column into the group's h rows and nothing else |
| ForecastKernel.WriteColumn | statsforecast/core.py:68 | `out[pos:pos+h, j] = vals` changes column j of those rows only |
| ForecastKernel.ColumnErrorNone | statsforecast/core.py:67-68 | the column writes of one result succeed exactly when every key is in the result and has a column in the buffer |
| ForecastKernel.OwnKeysColumnError | statsforecast/core.py:65-68 | the first group never raises KeyError; it raises IndexError exactly when it returns more series than the buffer has columns |
| ForecastKernel.FirstErrorNone | statsforecast/core.py:60-68 | the loop from group k on finishes exactly when no group from k on raises |
| ForecastKernel.GroupErrorNone | statsforecast/core.py:61-68 | group g passes exactly when it has an exogenous block and a written column for every key |
| ForecastKernel.IntervalOk | statsforecast/core.py:53-71 | interval mode succeeds exactly when every group has an exogenous block, there are no more keys than `2*len(level)+1`, and every group's result holds every key of the first group |
| ForecastKernel.IntervalCells | statsforecast/core.py:54-71 | on success the table has `h * n_groups` rows of `2*len(level)+1` cells; cell `(h*i + t, c)` is step t of group i's series under the c-th key of the first group; columns past the keys stay unwritten; the keys are returned |
| ForecastKernel.Forecasts | statsforecast/core.py:51-71 | point mode gives a flat buffer and no keys; interval mode gives a table, with keys exactly when there is a group |
| ForecastKernel.ComputeForecasts | statsforecast/core.py:51-71 | `compute_forecasts` picks interval mode exactly when the function accepts `level` and a level is given, and computes `Forecasts` |
| CrossValidation.WindowRows | statsforecast/core.py:80-84 | for a group of length `L >= test_size`, window w tests on the rows `[L-test_size+w, L-test_size+w+h)`, including the `end_cutoff == 0` case; it trains on `[0, L-test_size+w)`, or on the last `input_size` of those rows (fewer when the series is shorter) |
| CrossValidation.WindowExample | statsforecast/core.py:80-84 | with `L = 20, h = 2, test_size = 4` there are 3 windows; window 0 trains on `[0,16)` and tests on `[16,18)`; window 2 trains on `[0,18)` and tests on `[18,20)` |
| CrossValidation.TargetsUniform | statsforecast/core.py:84-87 | every target block has h values when every group holds `test_size` rows |
| CrossValidation.CvForecastCell | statsforecast/core.py:77-86 | the forecasts have `n_groups * n_windows * h` cells; cell `h*(n_windows*i + w) + k` is step k of the function's forecast for window w of group i |
| CrossValidation.CvTargetCell | statsforecast/core.py:78-87 | the targets have the same layout; cell `h*(n_windows*i + w) + k` is the target column of row `L-test_size+w+k` of group i |
| CrossValidation.ComputeCv | statsforecast/core.py:73-89 | the loops over groups and windows, on two NaN-filled buffers, compute `Cv`; a negative window count raises ValueError |
| CrossValidation.FillCv | statsforecast/core.py:79-87 | the group loop leaves every group's forecasts and targets in (group, window, step) order |
| CrossValidation.CvWindow | statsforecast/core.py:81-87 | one window writes its forecast and its targets right after those of the windows before it |
| Dates.ForecastDsLayout | statsforecast/core.py:193-203 | for a non-empty store the `ds` column has `h * n_groups` entries, and entry `h*i + k` is `last_i + 1 + k`, whether the tiled or the stacked branch built it |
| Dates.ForecastDsEmpty | statsforecast/core.py:200-203 | for no groups `np.hstack([])` raises ValueError |
| Dates.CvBlockRows | statsforecast/core.py:111-117 | the window loop of `_cv_dates` fills its buffer with `CvBlock` |
| Dates.FillWindows | statsforecast/core.py:115-117 | the window loop writes the rows of every window in window order |
| Dates.CvBlockLayout | statsforecast/core.py:111-117 | one group's block has `h * n_windows` rows; row `h*w + k` is `(last - test_size + 1 + w + k, last - test_size + w)`, so window w's dates are `total[w .. w+h)` and its cutoff is `total[w] - 1` |
| Dates.CvCutoffsIncrease | statsforecast/core.py:117 | cutoffs strictly increase from window to window |
| Dates.CvDatesPerGroup | statsforecast/core.py:111-121 | the rows exist exactly when there is a group and the window count is non-negative; whichever branch builds them, they are the groups' blocks in group order |
| Merge.PutLaws | statsforecast/core.py:235 | `d[key] = v` reads back v and leaves every other key alone; it keeps the key order and appends a new key |
| Merge.PutDistinct | statsforecast/core.py:235 | assignment keeps the keys of the dict distinct |
| Merge.PutAllLookup | statsforecast/core.py:240 | after a run of assignments (also `{**d, **es}`), a key reads the value it was last given, or its old value |
| Merge.PutAllKeepsKeys | statsforecast/core.py:240 | a run of assignments never drops or moves a key already present |
| Merge.Store | statsforecast/core.py:234-235 | the assignment loop of one model's columns computes `PutAll` |
| Merge.FirstFailure | statsforecast/core.py:280 | `[f.get() for f in futures]` succeeds exactly when every call did; otherwise it raises the error of the first failed call, in chunk order |
| Merge.Pairs | statsforecast/core.py:246-252 | `zip(ga.split(n), xregs)` raises ValueError for `n <= 0`; it pairs chunk c with exogenous chunk c or with None, and has as many pairs as the shorter side |
| Merge.Collect | statsforecast/core.py:239-240 | the tail of both loops returns `fcsts`, or in cv mode `{'y': test_values, **fcsts}`, and raises UnboundLocalError when no model ran |
| Merge.SeqModel | statsforecast/core.py:226-237 | one model on the whole store computes the kernel of its mode and the columns it stores |
| Merge.ToEntry | statsforecast/core.py:226-227 | each entry of `models` goes through `_as_tuple` and unpacking: it yields a model exactly when the tuple is not empty and its first item is a function, with the remaining items as arguments (none for a bare model); the empty tuple raises ValueError, a non-function first item AttributeError |
| Merge.SequentialLoop | statsforecast/core.py:222-241 | `_sequential` computes `Sequential`: each entry of `models` unpacked, then its model's columns assigned, in model order, stopping at the first entry that raises |
| Merge.EmptyTupleRaises | statsforecast/core.py:225-226 | an empty tuple in `models` makes `_sequential` raise ValueError when the entries before it run |
| Merge.RunOutcome | statsforecast/core.py:225-238 | the model loop succeeds exactly when no model raises, and otherwise raises the first model's error |
| Merge.CvResultLayout | statsforecast/core.py:239-240 | in cv mode the dict exists exactly when a model ran; its first key is `'y'`, holding the last model's targets unless a model's column is itself named `'y'` |
| Merge.ForecastCalls | statsforecast/core.py:273-280 | the forecast-mode calls of one model, one per chunk in chunk order |
| Merge.CvCalls | statsforecast/core.py:273-283 | the cv-mode calls of one model, one per chunk in chunk order |
| Merge.ParModel | statsforecast/core.py:270-291 | one model over the chunks: the calls, then their merge by `ForecastMerge` or `CvMerge` |
| Merge.ChunkLoop | statsforecast/core.py:269-296 | the model loop of `_data_parallel` over fixed chunk pairs |
| Merge.DataParallel | statsforecast/core.py:243-296 | `_data_parallel` computes `Parallel`: split, then per entry of `models` the unpacking, one call per chunk and the merge in chunk order |
| Merge.ChunkGroupsAt | statsforecast/core.py:246 | chunk c is a valid store holding the groups of section c, in order |
| Merge.PointChunk | statsforecast/core.py:273-275 | in point mode chunk c forecasts exactly the groups of its section, each with the exogenous block the whole store would pass |
| Merge.FlatMerge | statsforecast/core.py:289-291 | merging flat, key-less chunk results lays them end to end under the model's name |
| Merge.PointOutcomeSame | statsforecast/core.py:286-291 | in point mode one model over the chunks stores exactly what it stores over the whole store |
| Merge.TableMerge | statsforecast/core.py:280-288 | merging table chunk results that share their keys stacks their rows and takes column j of the stack per key |
| Merge.IntervalOutcomeSame | statsforecast/core.py:280-288 | in interval mode, when every group returns the same keys in the same order, one model over the chunks stores what it stores over the whole store |
| Merge.CvMergeOk | statsforecast/core.py:283-295 | merging successful cv chunk results lays both the forecasts and the targets end to end |
| Merge.SubStore | statsforecast/core.py:79-87 | a store whose groups are groups `a, a+1, ...` of another has those groups' windows, forecasts and targets |
| Merge.CvOutcomeSame | statsforecast/core.py:283-295 | in cv mode one model over the chunks stores the same forecasts and keeps the same targets as over the whole store |
| Merge.ParallelIsSequential | statsforecast/core.py:243-296 | for any worker count `n >= 1` and a non-empty store, `_data_parallel` returns exactly the dict `_sequential` returns (hypotheses under Left out) |
| Merge.ParallelNoWorkers | statsforecast/core.py:246 | a worker count below one makes `split` raise ValueError |

## Left out

- Logging, the ray cluster (`ray.init`, `available_resources`, the ray
  `Pool`) and the process pools: `apply_async` and futures are
  concurrency. Only the deterministic merge of the results in chunk order
  is modelled, and `Merge.FirstFailure` stands for `f.get()` re-raising.
- `cpu_count()` is a parameter of `Names.NJobs`. The ray branch of
  `_get_n_jobs` is not modelled.
- `inspect.signature`: the declared parameters and the `level` flag are
  explicit fields of `Models.Callable`. Python's `str` on argument values
  is a parameter `show`.
- pandas: the DataFrame work of `_grouped_array_from_df` (indexing,
  sorting, `value_counts`) and the output frames of `forecast` and
  `cross_validation`. The model keeps the offset construction from group
  sizes (`Grouped.Build`) and the last dates of the groups. The xreg shape
  check of `forecast` and the `np.repeat` of the ids are not modelled.
- Calendar frequencies: timestamps are integers with step 1, as in the
  integer branch of `forecast` (core.py:194). `pd.date_range` with a
  frequency is not modelled.
- Floating point: `np.allclose` in `__eq__` becomes exact equality
  (`Grouped.Equal`); float32 values are a generic `V`; NaN is "not
  written".
- Grouped.Equal: returns false where `np.allclose` raises ValueError, for
  data whose row counts cannot broadcast against each other; the
  `hasattr` test for a non-store operand is not modelled (the operand is
  typed).
- Grouped.PrefixSums: offsets are exact integers, and `Grouped.Build`
  uses them. The int32 cast of core.py:105 is modelled beside it
  (`Grouped.Int32Offsets`): it agrees below 2^31 rows and the final offset is
  negative for 2^31 <= rows < 2^32; stores of 2^31 rows or more are not
  modelled.
- Models.Callable: the forecasting function never raises. A raising
  function aborting the group loop, and `f.get()` re-raising its error
  for the first failed chunk, are not modelled; only the errors the core
  itself raises are.
- Merge.ToEntry: a value that is not a function raises AttributeError at
  `model.__name__`; the TypeError `inspect.signature` raises for an object
  that has a `__name__` but no signature is folded into it.
- `__repr__` is left out (string formatting only).
- `ga[idx]` for an index that is neither int nor slice (the ValueError of
  core.py:38) is not modelled: the model's index is typed. Slices with a
  step, or with an omitted stop, are not modelled either: the core only
  slices with two integer bounds.
- ForecastKernel.ComputePointForecasts: requires the function to return h
  values per group. numpy's broadcast errors for other lengths are not
  modelled. The requirement also covers groups past the end of the
  exogenous store, which the source never calls the function on.
- ForecastKernel.ComputeIntervalForecasts: requires every series the
  function names to be h long, for the same reason. This includes keys
  outside the first group's, which the source never writes.
- ForecastKernel.ComputeForecasts: requires the calling contract of the
  mode it picks (the two lines above).
- CrossValidation.ComputeCv: requires:
  - `h >= 1`;
  - rows of `ncols >= 1` columns (2-D groups, target first);
  - groups of at least `test_size` rows;
  - a function returning h values per window.

  Shorter groups make numpy broadcast (or raise) in ways the model does
  not capture. 1-D groups are not modelled.
- Dates.CvBlock, Dates.CvDates: require `h >= 1`.
- Merge.ParallelIsSequential: proved under these hypotheses:
  - In interval mode every group's result lists the same keys in the same
    order. Without that, chunk c orders its buffer columns by the keys of
    its own first group, while `np.vstack` (core.py:286) stacks the chunk
    tables by position and names column j after the first chunk's key j.
    A series can then be stored under another key's name.
  - The exogenous store has exactly as many groups as the store.
  - Cv mode passes no exogenous store, as `cross_validation` does.
  - The store is not empty. For no groups and a non-empty `models`,
    `_data_parallel` raises ValueError on unpacking no results, while `_sequential` returns empty columns.
- `np.vstack` of chunk tables of different widths cannot occur in the
  model: every chunk of one model has the same width.
- Buffers are kept flat in C order. The (n_groups, n_windows, h) shape of
  `compute_cv` is reflected only in the index arithmetic of
  `CrossValidation.CvForecastCell` and `CrossValidation.CvTargetCell`.
