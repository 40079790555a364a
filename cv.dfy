/** `GroupedArray.compute_cv`: for every group and every rolling window,
    train the forecasting function on the rows before the window's cutoff
    and record its h forecasts next to the h target values that follow the
    cutoff. Rows are arrays of columns, the target first and the exogenous
    columns after it. */
module CrossValidation {
  import opened Wrappers
  import opened Seqs
  import opened Grouped
  import opened Models

  /** `n_windows = test_size - h + 1` (step size 1). */
  function Windows(testSize: int, h: nat): int
  {
    testSize - h + 1
  }

  /** Every row has `ncols` columns. */
  ghost predicate RowsOf<V>(rows: seq<seq<V>>, ncols: nat)
  {
    forall t :: 0 <= t < |rows| ==> |rows[t]| == ncols
  }

  /** A two-dimensional row buffer with at least the target column. */
  ghost predicate Rectangular<V>(ga: GroupedArray<seq<V>>, ncols: nat)
  {
    Valid(ga) && ncols >= 1 && RowsOf(ga.data, ncols)
  }

  /** `cutoff = -test_size + i_window`, a position counted from the end. */
  function Cutoff(testSize: int, w: int): int
  {
    -testSize + w
  }

  /** `y_train`: `grp[cutoff - input_size : cutoff]`, or `grp[:cutoff]`
      without an input size. */
  function Train<T>(g: seq<T>, testSize: int, w: int, inputSize: Option<int>): seq<T>
  {
    var cutoff := Cutoff(testSize, w);
    if inputSize.Some? then PySlice(g, Some(cutoff - inputSize.value), Some(cutoff))
    else PySlice(g, None, Some(cutoff))
  }

  /** `y_test`: `grp[cutoff:]` when the window ends with the series
      (`end_cutoff == 0`, where `grp[cutoff:0]` would be empty), else
      `grp[cutoff:end_cutoff]`. */
  function Test<T>(g: seq<T>, testSize: int, h: nat, w: int): seq<T>
  {
    var cutoff := Cutoff(testSize, w);
    if cutoff + h == 0 then PySlice(g, Some(cutoff), None) else PySlice(g, Some(cutoff), Some(cutoff + h))
  }

  lemma SliceRows<V>(rows: seq<seq<V>>, ncols: nat, start: Option<int>, stop: Option<int>)
    requires RowsOf(rows, ncols)
    ensures RowsOf(PySlice(rows, start, stop), ncols)
  {
  }

  /** `future_xreg`: the exogenous columns of the test rows when the
      buffer has any, else None. */
  function FutureXreg<V>(test: seq<seq<V>>, ncols: nat): Option<seq<seq<V>>>
    requires RowsOf(test, ncols)
  {
    if ncols > 1 then Some(seq(|test|, t requires 0 <= t < |test| => test[t][1..])) else None
  }

  /** `y_test[:, 0]`: the target column. */
  function Targets<V>(test: seq<seq<V>>, ncols: nat): (ys: seq<V>)
    requires RowsOf(test, ncols) && ncols >= 1
    ensures |ys| == |test| && forall t :: 0 <= t < |test| ==> ys[t] == test[t][0]
  {
    seq(|test|, t requires 0 <= t < |test| => test[t][0])
  }

  /** The forecast of window w of group g. */
  function WindowForecast<V, A>(g: seq<seq<V>>, h: nat, testSize: int, f: PointFn<seq<V>, A, V>,
                                inputSize: Option<int>, args: seq<A>, ncols: nat, w: int): seq<V>
    requires RowsOf(g, ncols)
  {
    SliceRows(g, ncols, Some(Cutoff(testSize, w)), None);
    SliceRows(g, ncols, Some(Cutoff(testSize, w)), Some(Cutoff(testSize, w) + h));
    f(Train(g, testSize, w, inputSize), h, FutureXreg(Test(g, testSize, h, w), ncols), args)
  }

  /** The targets of window w of group g. */
  function WindowTargets<V>(g: seq<seq<V>>, h: nat, testSize: int, ncols: nat, w: int): seq<V>
    requires RowsOf(g, ncols) && ncols >= 1
  {
    SliceRows(g, ncols, Some(Cutoff(testSize, w)), None);
    SliceRows(g, ncols, Some(Cutoff(testSize, w)), Some(Cutoff(testSize, w) + h));
    Targets(Test(g, testSize, h, w), ncols)
  }

  lemma GroupRows<V>(ga: GroupedArray<seq<V>>, ncols: nat, i: int)
    requires Rectangular(ga, ncols) && 0 <= i < NGroups(ga)
    ensures RowsOf(Group(ga, i), ncols)
  {
    assert 0 <= ga.indptr[i] <= ga.indptr[i + 1] <= |ga.data|;
  }

  /** Window by window: the forecasts of one group. */
  function GroupForecasts<V, A>(g: seq<seq<V>>, h: nat, testSize: int, f: PointFn<seq<V>, A, V>,
                                inputSize: Option<int>, args: seq<A>, ncols: nat): (ws: seq<seq<V>>)
    requires RowsOf(g, ncols) && Windows(testSize, h) >= 0
    ensures |ws| == Windows(testSize, h)
  {
    seq(Windows(testSize, h), w requires 0 <= w < Windows(testSize, h) =>
      WindowForecast(g, h, testSize, f, inputSize, args, ncols, w))
  }

  /** Window by window: the targets of one group. */
  function GroupTargets<V>(g: seq<seq<V>>, h: nat, testSize: int, ncols: nat): (ws: seq<seq<V>>)
    requires RowsOf(g, ncols) && ncols >= 1 && Windows(testSize, h) >= 0
    ensures |ws| == Windows(testSize, h)
  {
    seq(Windows(testSize, h), w requires 0 <= w < Windows(testSize, h) =>
      WindowTargets(g, h, testSize, ncols, w))
  }

  /** Group by group, window by window: the forecasts. */
  function PerGroupForecasts<V, A>(ga: GroupedArray<seq<V>>, h: nat, testSize: int, f: PointFn<seq<V>, A, V>,
                                   inputSize: Option<int>, args: seq<A>, ncols: nat)
    : (per: seq<seq<seq<V>>>)
    requires Rectangular(ga, ncols) && Windows(testSize, h) >= 0
    ensures |per| == NGroups(ga) && forall i :: 0 <= i < |per| ==> |per[i]| == Windows(testSize, h)
  {
    seq(NGroups(ga), i requires 0 <= i < NGroups(ga) =>
      GroupRows(ga, ncols, i);
      GroupForecasts(Group(ga, i), h, testSize, f, inputSize, args, ncols))
  }

  /** Group by group, window by window: the targets. */
  function PerGroupTargets<V>(ga: GroupedArray<seq<V>>, h: nat, testSize: int, ncols: nat)
    : (per: seq<seq<seq<V>>>)
    requires Rectangular(ga, ncols) && Windows(testSize, h) >= 0
    ensures |per| == NGroups(ga) && forall i :: 0 <= i < |per| ==> |per[i]| == Windows(testSize, h)
  {
    seq(NGroups(ga), i requires 0 <= i < NGroups(ga) =>
      GroupRows(ga, ncols, i);
      GroupTargets(Group(ga, i), h, testSize, ncols))
  }

  /** The forecasting function keeps its calling contract: h values for
      every window. */
  ghost predicate CvContract<V, A>(ga: GroupedArray<seq<V>>, h: nat, testSize: int, f: PointFn<seq<V>, A, V>,
                                   inputSize: Option<int>, args: seq<A>, ncols: nat)
    requires Rectangular(ga, ncols) && Windows(testSize, h) >= 0
  {
    forall i, w :: 0 <= i < NGroups(ga) && 0 <= w < Windows(testSize, h) ==>
      |PerGroupForecasts(ga, h, testSize, f, inputSize, args, ncols)[i][w]| == h
  }

  /** Every group holds the last `test_size` rows the windows read. */
  ghost predicate LongEnough<V>(ga: GroupedArray<seq<V>>, testSize: int)
    requires Valid(ga)
  {
    forall i :: 0 <= i < NGroups(ga) ==> |Group(ga, i)| >= testSize
  }

  /** `compute_cv`: the forecasts and the targets, both in the C order of
      an (n_groups, n_windows, h) buffer; a negative window count makes
      the buffer shape invalid (ValueError). */
  function Cv<V, A>(ga: GroupedArray<seq<V>>, h: nat, testSize: int, f: PointFn<seq<V>, A, V>,
                    inputSize: Option<int>, args: seq<A>, ncols: nat)
    : Result<(seq<Option<V>>, seq<Option<V>>)>
    requires Rectangular(ga, ncols)
  {
    if Windows(testSize, h) < 0 then Err(ValueError)
    else Ok((Lift(Flatten(Flatten(PerGroupForecasts(ga, h, testSize, f, inputSize, args, ncols)))),
             Lift(Flatten(Flatten(PerGroupTargets(ga, h, testSize, ncols))))))
  }

  /** Window w of a group of length L >= test_size tests on the h rows
      [L - test_size + w, L - test_size + w + h), also in the `end_cutoff == 0`
      case, and trains on the rows before them: all of them, or the last
      `input_size` (fewer when the series is shorter). */
  lemma WindowRows<T>(g: seq<T>, h: nat, testSize: int, w: int, inputSize: Option<int>)
    requires h >= 1 && 0 <= w < Windows(testSize, h) && |g| >= testSize
    ensures 0 <= |g| - testSize + w && |g| - testSize + w + h <= |g|
    ensures Test(g, testSize, h, w) == g[|g| - testSize + w..|g| - testSize + w + h]
    ensures inputSize.None? ==> Train(g, testSize, w, inputSize) == g[..|g| - testSize + w]
    ensures inputSize.Some? && inputSize.value >= 0 ==>
      var c := |g| - testSize + w;
      Train(g, testSize, w, inputSize) == g[if c < inputSize.value then 0 else c - inputSize.value..c]
  {
    var c := |g| - testSize + w;
    var cutoff := Cutoff(testSize, w);
    assert Bound(cutoff, |g|) == c;
    if cutoff + h != 0 {
      assert Bound(cutoff + h, |g|) == c + h;
    }
  }

  /** The windows of a group of 20 rows with h = 2 and test_size = 4:
      the first trains on [0, 16) and tests on [16, 18), the last trains on
      [0, 18) and tests on [18, 20). */
  lemma WindowExample<T>(g: seq<T>)
    requires |g| == 20
    ensures Windows(4, 2) == 3
    ensures Train(g, 4, 0, None) == g[..16] && Test(g, 4, 2, 0) == g[16..18]
    ensures Train(g, 4, 2, None) == g[..18] && Test(g, 4, 2, 2) == g[18..20]
  {
    WindowRows(g, 2, 4, 0, None);
    WindowRows(g, 2, 4, 2, None);
  }

  /** Every target block has h values when every group is long enough. */
  lemma TargetsUniform<V>(ga: GroupedArray<seq<V>>, h: nat, testSize: int, ncols: nat)
    requires h >= 1 && Rectangular(ga, ncols) && LongEnough(ga, testSize) && Windows(testSize, h) >= 0
    ensures forall i, w :: 0 <= i < NGroups(ga) && 0 <= w < Windows(testSize, h) ==>
      |PerGroupTargets(ga, h, testSize, ncols)[i][w]| == h
  {
    forall i, w | 0 <= i < NGroups(ga) && 0 <= w < Windows(testSize, h)
      ensures |PerGroupTargets(ga, h, testSize, ncols)[i][w]| == h
    {
      GroupRows(ga, ncols, i);
      WindowRows(Group(ga, i), h, testSize, w, None);
    }
  }

  /** Both outputs exist for a non-negative window count. */
  lemma CvOk<V, A>(ga: GroupedArray<seq<V>>, h: nat, testSize: int, f: PointFn<seq<V>, A, V>,
                   inputSize: Option<int>, args: seq<A>, ncols: nat)
    requires Rectangular(ga, ncols) && Windows(testSize, h) >= 0
    ensures Cv(ga, h, testSize, f, inputSize, args, ncols).Ok?
    ensures Cv(ga, h, testSize, f, inputSize, args, ncols).value.0
      == Lift(Flatten(Flatten(PerGroupForecasts(ga, h, testSize, f, inputSize, args, ncols))))
    ensures Cv(ga, h, testSize, f, inputSize, args, ncols).value.1
      == Lift(Flatten(Flatten(PerGroupTargets(ga, h, testSize, ncols))))
  {
  }

  /** Step k of window w of group i forecasts with the function's k-th value. */
  lemma ForecastAt<V, A>(ga: GroupedArray<seq<V>>, h: nat, testSize: int, f: PointFn<seq<V>, A, V>,
                         inputSize: Option<int>, args: seq<A>, ncols: nat, i: nat, w: nat)
    requires Rectangular(ga, ncols) && Windows(testSize, h) >= 0
    requires i < NGroups(ga) && w < Windows(testSize, h)
    ensures RowsOf(Group(ga, i), ncols)
    ensures PerGroupForecasts(ga, h, testSize, f, inputSize, args, ncols)[i][w]
      == WindowForecast(Group(ga, i), h, testSize, f, inputSize, args, ncols, w)
  {
    GroupRows(ga, ncols, i);
    var pf := PerGroupForecasts(ga, h, testSize, f, inputSize, args, ncols);
    assert pf[i] == GroupForecasts(Group(ga, i), h, testSize, f, inputSize, args, ncols);
  }

  /** Step k of window w of group i targets row |g| - test_size + w + k. */
  lemma TargetAt<V>(ga: GroupedArray<seq<V>>, h: nat, testSize: int, ncols: nat, i: nat, w: nat, k: nat)
    requires h >= 1 && Rectangular(ga, ncols) && LongEnough(ga, testSize) && Windows(testSize, h) >= 0
    requires i < NGroups(ga) && w < Windows(testSize, h) && k < h
    ensures var g := Group(ga, i);
      var c := |g| - testSize + w;
      && |PerGroupTargets(ga, h, testSize, ncols)[i][w]| == h
      && 0 <= c && c + k < |g| && |g[c + k]| == ncols
      && PerGroupTargets(ga, h, testSize, ncols)[i][w][k] == g[c + k][0]
  {
    GroupRows(ga, ncols, i);
    var g := Group(ga, i);
    WindowRows(g, h, testSize, w, None);
    var pt := PerGroupTargets(ga, h, testSize, ncols);
    assert pt[i] == GroupTargets(g, h, testSize, ncols);
    var c := |g| - testSize + w;
    assert Test(g, testSize, h, w) == g[c..c + h];
    assert pt[i][w] == Targets(g[c..c + h], ncols);
  }

  /** The forecasts have n_groups * n_windows blocks of h values; block
      n_windows * i + w holds the function's forecast for window w of group i. */
  lemma CvForecastCell<V, A>(ga: GroupedArray<seq<V>>, h: nat, testSize: int, f: PointFn<seq<V>, A, V>,
                             inputSize: Option<int>, args: seq<A>, ncols: nat, nw: nat, i: nat, w: nat, k: nat)
    requires Rectangular(ga, ncols) && nw == Windows(testSize, h)
    requires CvContract(ga, h, testSize, f, inputSize, args, ncols)
    requires i < NGroups(ga) && w < nw && k < h
    ensures Cv(ga, h, testSize, f, inputSize, args, ncols).Ok?
    ensures var r := Cv(ga, h, testSize, f, inputSize, args, ncols).value.0;
      && |r| == h * (nw * NGroups(ga)) && 0 <= h * (nw * i + w) + k < |r|
      && RowsOf(Group(ga, i), ncols)
      && |WindowForecast(Group(ga, i), h, testSize, f, inputSize, args, ncols, w)| == h
      && r[h * (nw * i + w) + k] == Some(WindowForecast(Group(ga, i), h, testSize, f, inputSize, args, ncols, w)[k])
  {
    CvOk(ga, h, testSize, f, inputSize, args, ncols);
    ForecastAt(ga, h, testSize, f, inputSize, args, ncols, i, w);
    LiftTwiceAt(PerGroupForecasts(ga, h, testSize, f, inputSize, args, ncols), nw, h, i, w, k);
  }

  /** The targets have the same layout; the value at step k of window w of
      group i is the target of row |g| - test_size + w + k of that group. */
  lemma CvTargetCell<V, A>(ga: GroupedArray<seq<V>>, h: nat, testSize: int, f: PointFn<seq<V>, A, V>,
                           inputSize: Option<int>, args: seq<A>, ncols: nat, nw: nat, i: nat, w: nat, k: nat)
    requires h >= 1 && Rectangular(ga, ncols) && LongEnough(ga, testSize) && nw == Windows(testSize, h)
    requires i < NGroups(ga) && w < nw && k < h
    ensures Cv(ga, h, testSize, f, inputSize, args, ncols).Ok?
    ensures var r := Cv(ga, h, testSize, f, inputSize, args, ncols).value.1;
      var g := Group(ga, i);
      var c := |g| - testSize + w;
      && |r| == h * (nw * NGroups(ga)) && 0 <= h * (nw * i + w) + k < |r|
      && 0 <= c && c + k < |g| && |g[c + k]| == ncols
      && r[h * (nw * i + w) + k] == Some(g[c + k][0])
  {
    CvOk(ga, h, testSize, f, inputSize, args, ncols);
    TargetsUniform(ga, h, testSize, ncols);
    TargetAt(ga, h, testSize, ncols, i, w, k);
    LiftTwiceAt(PerGroupTargets(ga, h, testSize, ncols), nw, h, i, w, k);
  }

  /** The calling contract of `compute_cv`: the buffers have a shape, every
      window reads h rows of every group and the function returns h values. */
  ghost predicate CvReady<V, A>(ga: GroupedArray<seq<V>>, h: nat, testSize: int, f: PointFn<seq<V>, A, V>,
                                inputSize: Option<int>, args: seq<A>, ncols: nat)
  {
    h >= 1 && Rectangular(ga, ncols)
    && (Windows(testSize, h) >= 0 ==>
          LongEnough(ga, testSize) && CvContract(ga, h, testSize, f, inputSize, args, ncols))
  }

  /** The blocks of every group as the loops write them: group i holds
      the forecasts and the targets of its windows, h values each. */
  ghost predicate CvBlocks<V, A>(pf: seq<seq<seq<V>>>, pt: seq<seq<seq<V>>>,
                                 ga: GroupedArray<seq<V>>, h: nat, testSize: int, f: PointFn<seq<V>, A, V>,
                                 inputSize: Option<int>, args: seq<A>, ncols: nat)
    requires Rectangular(ga, ncols) && Windows(testSize, h) >= 0
  {
    |pf| == NGroups(ga) && |pt| == NGroups(ga)
    && forall i :: 0 <= i < NGroups(ga) ==>
         RowsOf(Group(ga, i), ncols)
         && pf[i] == GroupForecasts(Group(ga, i), h, testSize, f, inputSize, args, ncols)
         && pt[i] == GroupTargets(Group(ga, i), h, testSize, ncols)
         && forall w :: 0 <= w < Windows(testSize, h) ==> |pf[i][w]| == h && |pt[i][w]| == h
  }

  lemma CvBlocksHold<V, A>(ga: GroupedArray<seq<V>>, h: nat, testSize: int, f: PointFn<seq<V>, A, V>,
                           inputSize: Option<int>, args: seq<A>, ncols: nat)
    requires CvReady(ga, h, testSize, f, inputSize, args, ncols) && Windows(testSize, h) >= 0
    ensures CvBlocks(PerGroupForecasts(ga, h, testSize, f, inputSize, args, ncols),
                     PerGroupTargets(ga, h, testSize, ncols), ga, h, testSize, f, inputSize, args, ncols)
  {
    var pf := PerGroupForecasts(ga, h, testSize, f, inputSize, args, ncols);
    var pt := PerGroupTargets(ga, h, testSize, ncols);
    TargetsUniform(ga, h, testSize, ncols);
    forall i | 0 <= i < NGroups(ga)
      ensures RowsOf(Group(ga, i), ncols)
      ensures pf[i] == GroupForecasts(Group(ga, i), h, testSize, f, inputSize, args, ncols)
      ensures pt[i] == GroupTargets(Group(ga, i), h, testSize, ncols)
    {
      GroupRows(ga, ncols, i);
    }
  }

  /** `compute_cv` on two (n_groups, n_windows, h) buffers filled with NaN,
      each kept flat in C order. */
  method ComputeCv<V, A>(ga: GroupedArray<seq<V>>, h: nat, testSize: int, f: PointFn<seq<V>, A, V>,
                         inputSize: Option<int>, args: seq<A>, ncols: nat)
    returns (r: Result<(seq<Option<V>>, seq<Option<V>>)>)
    requires CvReady(ga, h, testSize, f, inputSize, args, ncols)
    ensures r == Cv(ga, h, testSize, f, inputSize, args, ncols)
  {
    var nw := testSize - h + 1;
    if nw < 0 {
      return Err(ValueError);
    }
    var n := |ga.indptr| - 1;
    ghost var pf := PerGroupForecasts(ga, h, testSize, f, inputSize, args, ncols);
    ghost var pt := PerGroupTargets(ga, h, testSize, ncols);
    CvBlocksHold(ga, h, testSize, f, inputSize, args, ncols);
    CvOk(ga, h, testSize, f, inputSize, args, ncols);
    var out, outTest := Buffers(ga, h, testSize, f, inputSize, args, ncols, pf, pt);
    FillCv(out, outTest, ga, h, testSize, f, inputSize, args, ncols, pf, pt);
    r := Ok((out[..], outTest[..]));
  }

  /** `np.full((n_groups, n_windows, h), np.nan)`, twice. */
  method Buffers<V, A>(ga: GroupedArray<seq<V>>, h: nat, testSize: int, f: PointFn<seq<V>, A, V>,
                       inputSize: Option<int>, args: seq<A>, ncols: nat,
                       ghost pf: seq<seq<seq<V>>>, ghost pt: seq<seq<seq<V>>>)
    returns (out: array<Option<V>>, outTest: array<Option<V>>)
    requires Rectangular(ga, ncols) && Windows(testSize, h) >= 0
    requires CvBlocks(pf, pt, ga, h, testSize, f, inputSize, args, ncols)
    ensures fresh(out) && fresh(outTest) && out != outTest
    ensures out[..] == Nones(|Flatten(Flatten(pf))|) && outTest[..] == Nones(|Flatten(Flatten(pt))|)
  {
    var nw := testSize - h + 1;
    var n := |ga.indptr| - 1;
    forall i, w | 0 <= i < n && 0 <= w < nw ensures |pf[i][w]| == h && |pt[i][w]| == h {
    }
    FlattenKeepsUniform(pf, nw, h);
    FlattenKeepsUniform(pt, nw, h);
    FlattenUniform(pf, nw);
    FlattenUniform(pt, nw);
    FlattenUniform(Flatten(pf), h);
    FlattenUniform(Flatten(pt), h);
    out := new Option<V>[h * (nw * n)](_ => None);
    outTest := new Option<V>[h * (nw * n)](_ => None);
  }

  /** The loop over the groups. */
  method FillCv<V, A>(out: array<Option<V>>, outTest: array<Option<V>>,
                      ga: GroupedArray<seq<V>>, h: nat, testSize: int, f: PointFn<seq<V>, A, V>,
                      inputSize: Option<int>, args: seq<A>, ncols: nat,
                      ghost pf: seq<seq<seq<V>>>, ghost pt: seq<seq<seq<V>>>)
    requires Rectangular(ga, ncols) && Windows(testSize, h) >= 0
    requires CvBlocks(pf, pt, ga, h, testSize, f, inputSize, args, ncols)
    requires out != outTest
    requires out[..] == Nones(|Flatten(Flatten(pf))|) && outTest[..] == Nones(|Flatten(Flatten(pt))|)
    modifies out, outTest
    ensures out[..] == Lift(Flatten(Flatten(pf))) && outTest[..] == Lift(Flatten(Flatten(pt)))
  {
    var n := |ga.indptr| - 1;
    ghost var fb, tb := Flatten(pf), Flatten(pt);
    WrittenNone(fb);
    WrittenNone(tb);
    var pos: nat := 0;
    var b: nat := 0;
    assert pf[..0] == [] && pt[..0] == [];
    for i := 0 to n
      invariant b == |Flatten(pf[..i])| == |Flatten(pt[..i])|
      invariant Written(out[..], fb, b, pos) && Written(outTest[..], tb, b, pos)
    {
      GroupWindows(pf, pt, ga, h, testSize, f, inputSize, args, ncols, i, b);
      pos, b := CvGroup(out, outTest, Group(ga, i), h, testSize, f, inputSize, args, ncols, fb, tb, b, pos);
    }
    assert pf[..n] == pf && pt[..n] == pt;
    WrittenAll(out[..], fb, pos);
    WrittenAll(outTest[..], tb, pos);
  }

  /** The windows of group i are blocks b, b + 1, ... of the flattened
      blocks when the blocks of groups 0 .. i-1 are the first b. */
  lemma GroupBlocks<T>(pf: seq<seq<seq<T>>>, i: nat, b: nat)
    requires i < |pf| && b == |Flatten(pf[..i])|
    ensures b + |pf[i]| <= |Flatten(pf)|
    ensures forall w :: 0 <= w < |pf[i]| ==> Flatten(pf)[b + w] == pf[i][w]
  {
    var before, after := Flatten(pf[..i]), Flatten(pf[i + 1..]);
    FlattenSplitAt(pf, i);
    assert Flatten(pf) == before + pf[i] + after;
    forall w: int | 0 <= w < |pf[i]| ensures Flatten(pf)[b + w] == pf[i][w] {
      assert (before + pf[i] + after)[b + w] == pf[i][w];
    }
  }

  /** Blocks b, b + 1, ... hold the forecasts and the targets of the
      windows of group g, h values each. */
  ghost predicate WindowsAt<V, A>(fblocks: seq<seq<V>>, tblocks: seq<seq<V>>, b: nat,
                                  g: seq<seq<V>>, h: nat, testSize: int, f: PointFn<seq<V>, A, V>,
                                  inputSize: Option<int>, args: seq<A>, ncols: nat)
    requires RowsOf(g, ncols) && ncols >= 1
  {
    && b + Windows(testSize, h) <= |fblocks| && b + Windows(testSize, h) <= |tblocks|
    && forall w :: 0 <= w < Windows(testSize, h) ==>
         && fblocks[b + w] == WindowForecast(g, h, testSize, f, inputSize, args, ncols, w)
         && tblocks[b + w] == WindowTargets(g, h, testSize, ncols, w)
         && |fblocks[b + w]| == h && |tblocks[b + w]| == h
  }

  /** Group i's windows are the blocks from b on of the flattened blocks
      when the blocks of groups 0 .. i-1 are the first b. */
  lemma GroupWindows<V, A>(pf: seq<seq<seq<V>>>, pt: seq<seq<seq<V>>>,
                           ga: GroupedArray<seq<V>>, h: nat, testSize: int, f: PointFn<seq<V>, A, V>,
                           inputSize: Option<int>, args: seq<A>, ncols: nat, i: nat, b: nat)
    requires Rectangular(ga, ncols) && Windows(testSize, h) >= 0
    requires CvBlocks(pf, pt, ga, h, testSize, f, inputSize, args, ncols)
    requires i < NGroups(ga) && b == |Flatten(pf[..i])| == |Flatten(pt[..i])|
    ensures RowsOf(Group(ga, i), ncols)
    ensures WindowsAt(Flatten(pf), Flatten(pt), b, Group(ga, i), h, testSize, f, inputSize, args, ncols)
    ensures b + Windows(testSize, h) == |Flatten(pf[..i + 1])| == |Flatten(pt[..i + 1])|
  {
    var g := Group(ga, i);
    GroupBlocks(pf, i, b);
    GroupBlocks(pt, i, b);
    FlattenStep(pf, i);
    FlattenStep(pt, i);
    var fws, tws := pf[i], pt[i];
    assert fws == GroupForecasts(g, h, testSize, f, inputSize, args, ncols);
    assert tws == GroupTargets(g, h, testSize, ncols);
    forall w | 0 <= w < Windows(testSize, h)
      ensures Flatten(pf)[b + w] == WindowForecast(g, h, testSize, f, inputSize, args, ncols, w)
      ensures Flatten(pt)[b + w] == WindowTargets(g, h, testSize, ncols, w)
      ensures |Flatten(pf)[b + w]| == h && |Flatten(pt)[b + w]| == h
    {
      assert Flatten(pf)[b + w] == fws[w];
      assert Flatten(pt)[b + w] == tws[w];
    }
  }

  /** The window loop of group g, whose windows' forecasts and targets are
      stored from block b on; returns the position after its blocks. */
  method CvGroup<V, A>(out: array<Option<V>>, outTest: array<Option<V>>,
                       g: seq<seq<V>>, h: nat, testSize: int, f: PointFn<seq<V>, A, V>,
                       inputSize: Option<int>, args: seq<A>, ncols: nat,
                       ghost fblocks: seq<seq<V>>, ghost tblocks: seq<seq<V>>, b: nat, pos: nat)
    returns (next: nat, nb: nat)
    requires RowsOf(g, ncols) && ncols >= 1 && out != outTest && Windows(testSize, h) >= 0
    requires WindowsAt(fblocks, tblocks, b, g, h, testSize, f, inputSize, args, ncols)
    requires Written(out[..], fblocks, b, pos) && Written(outTest[..], tblocks, b, pos)
    modifies out, outTest
    ensures nb == b + Windows(testSize, h)
    ensures Written(out[..], fblocks, nb, next) && Written(outTest[..], tblocks, nb, next)
  {
    next := pos;
    for c := b to b + Windows(testSize, h)
      invariant Written(out[..], fblocks, c, next) && Written(outTest[..], tblocks, c, next)
    {
      CvWindow(out, outTest, g, h, testSize, f, inputSize, args, ncols, c - b, fblocks, tblocks, b, next);
      next := next + h;
    }
    nb := b + Windows(testSize, h);
  }

  /** One window: cut the train and test rows at the cutoff, forecast, and
      store the forecast and the target column. */
  method CvWindow<V, A>(out: array<Option<V>>, outTest: array<Option<V>>,
                        g: seq<seq<V>>, h: nat, testSize: int, f: PointFn<seq<V>, A, V>,
                        inputSize: Option<int>, args: seq<A>, ncols: nat, w: nat,
                        ghost fblocks: seq<seq<V>>, ghost tblocks: seq<seq<V>>, ghost b: nat, pos: nat)
    requires RowsOf(g, ncols) && ncols >= 1 && out != outTest && w < Windows(testSize, h)
    requires WindowsAt(fblocks, tblocks, b, g, h, testSize, f, inputSize, args, ncols)
    requires Written(out[..], fblocks, b + w, pos) && Written(outTest[..], tblocks, b + w, pos)
    modifies out, outTest
    ensures Written(out[..], fblocks, b + w + 1, pos + h) && Written(outTest[..], tblocks, b + w + 1, pos + h)
  {
    var c := b + w;
    assert fblocks[c] == WindowForecast(g, h, testSize, f, inputSize, args, ncols, w);
    assert tblocks[c] == WindowTargets(g, h, testSize, ncols, w);
    var train := Train(g, testSize, w, inputSize);
    var test := Test(g, testSize, h, w);
    SliceRows(g, ncols, Some(Cutoff(testSize, w)), None);
    SliceRows(g, ncols, Some(Cutoff(testSize, w)), Some(Cutoff(testSize, w) + h));
    var res := f(train, h, FutureXreg(test, ncols), args);
    var ys := Targets(test, ncols);
    assert res == fblocks[c] && ys == tblocks[c];
    WrittenStep(out[..], fblocks, c, pos);
    WrittenStep(outTest[..], tblocks, c, pos);
    WriteRun(out, pos, Lift(res));
    WriteRun(outTest, pos, Lift(ys));
  }
}
