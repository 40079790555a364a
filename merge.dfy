/** `StatsForecast._sequential` and `StatsForecast._data_parallel`
    (statsforecast/core.py): run every registered model over the store, or
    over its chunks, and collect the outputs in a dict of named columns. A
    dict is a list of (key, column) pairs in insertion order. */
module Merge {
  import opened Wrappers
  import opened Seqs
  import opened Grouped
  import opened Models
  import opened ForecastKernel
  import SP = Split
  import CV = CrossValidation
  import Names

  /** One entry of `models` after `model, *args = _as_tuple(model_args)`. */
  datatype Entry<!V, !A> = Entry(fn: Callable<seq<V>, A, V>, args: seq<A>)

  /** `model, *args = _as_tuple(model_args)` and the `model.__name__` that
      follows, for one entry of `models` (a model, or a tuple of a model and
      its arguments); `asModel` tells the functions among the values. */
  function ToEntry<V, A>(v: Names.PyValue<A>, asModel: A -> Option<Callable<seq<V>, A, V>>): (r: Result<Entry<V, A>>)
    ensures r.Ok? <==> Names.AsTuple(v) != [] && asModel(Names.AsTuple(v)[0]).Some?
    ensures r.Ok? ==> asModel(Names.AsTuple(v)[0]) == Some(r.value.fn) && [Names.AsTuple(v)[0]] + r.value.args == Names.AsTuple(v)
    ensures v.Atom? && r.Ok? ==> r.value.args == []
    ensures v == Names.Tuple([]) ==> r == Err(ValueError)
    ensures r.Err? && Names.AsTuple(v) != [] ==> r == Err(AttributeError)
  {
    match Names.Unpack(Names.AsTuple(v))
    case Err(e) => Err(e)
    case Ok((m, args)) =>
      match asModel(m)
      case None => Err(AttributeError)
      case Some(fn) => Ok(Entry(fn, args))
  }

  /** `mode='forecast'`, or `mode='cv'` with `test_size` and `input_size`. */
  datatype Mode = ForecastMode | CvMode(testSize: int, inputSize: Option<int>)

  /** A column of the result: one cell per output row, None where the
      buffer kept its NaN fill. */
  type Column<V> = seq<Option<V>>

  /** `_build_forecast_name(model, *args)`. */
  function ModelName<V, A(==)>(e: Entry<V, A>, show: A -> string): string
  {
    Names.ForecastName(e.fn.name, e.fn.params, e.args, show)
  }

  // ---------------------------------------------------------------------
  // The dict `fcsts`

  /** `d[key] = v`: the value is replaced in place when the key is present,
      the pair is appended otherwise. */
  function Put<T>(d: Named<T>, key: string, v: seq<T>): Named<T>
  {
    if d == [] then [(key, v)]
    else if d[0].0 == key then [(key, v)] + d[1..]
    else [d[0]] + Put(d[1..], key, v)
  }

  /** `d[k] = v` for every pair (k, v) of `es`, in order (also `{**d, **es}`). */
  function PutAll<T>(d: Named<T>, es: Named<T>): Named<T>
    decreases |es|
  {
    if es == [] then d else PutAll(Put(d, es[0].0, es[0].1), es[1..])
  }

  /** The value the last pair with key k of `es` carries, if any. */
  function LastFor<T>(es: Named<T>, k: string): Option<seq<T>>
  {
    if es == [] then None
    else if es[|es| - 1].0 == k then Some(es[|es| - 1].1)
    else LastFor(es[..|es| - 1], k)
  }

  predicate DistinctKeys<T>(d: Named<T>)
  {
    forall i, j :: 0 <= i < j < |d| ==> d[i].0 != d[j].0
  }

  /** Assignment reads back the value just stored and leaves every other key
      alone; the key order is kept, a new key going last. */
  lemma PutLaws<T>(d: Named<T>, key: string, v: seq<T>)
    ensures Lookup(Put(d, key, v), key) == Some(v)
    ensures forall k :: k != key ==> Lookup(Put(d, key, v), k) == Lookup(d, k)
    ensures key in KeyList(d) ==> KeyList(Put(d, key, v)) == KeyList(d)
    ensures key !in KeyList(d) ==> KeyList(Put(d, key, v)) == KeyList(d) + [key]
  {
    PutLookup(d, key, v);
    PutKeys(d, key, v);
  }

  lemma {:induction false} PutLookup<T>(d: Named<T>, key: string, v: seq<T>)
    ensures Lookup(Put(d, key, v), key) == Some(v)
    ensures forall k :: k != key ==> Lookup(Put(d, key, v), k) == Lookup(d, k)
    decreases |d|
  {
    if d != [] && d[0].0 != key {
      PutLookup(d[1..], key, v);
      assert Put(d, key, v)[1..] == Put(d[1..], key, v);
    }
  }

  lemma {:induction false} PutKeys<T>(d: Named<T>, key: string, v: seq<T>)
    ensures key in KeyList(d) ==> KeyList(Put(d, key, v)) == KeyList(d)
    ensures key !in KeyList(d) ==> KeyList(Put(d, key, v)) == KeyList(d) + [key]
    decreases |d|
  {
    if d == [] {
      assert KeyList(Put(d, key, v)) == [key];
    } else {
      var p := Put(d, key, v);
      KeyListCons(d);
      KeyListCons(p);
      if d[0].0 != key {
        PutKeys(d[1..], key, v);
        assert p[1..] == Put(d[1..], key, v);
      }
    }
  }

  lemma KeyListCons<T>(d: Named<T>)
    requires d != []
    ensures KeyList(d) == [d[0].0] + KeyList(d[1..])
  {
  }

  /** Assignment keeps the keys of a dict distinct. */
  lemma PutDistinct<T>(d: Named<T>, key: string, v: seq<T>)
    requires DistinctKeys(d)
    ensures DistinctKeys(Put(d, key, v))
  {
    PutLaws(d, key, v);
    var ks, ks' := KeyList(d), KeyList(Put(d, key, v));
    forall i, j | 0 <= i < j < |ks'| ensures ks'[i] != ks'[j] {
      if key !in ks && j == |ks| {
        assert ks'[i] == ks[i];
        assert ks[i] in ks;
      } else {
        assert ks'[i] == ks[i] && ks'[j] == ks[j];
      }
    }
  }

  /** After a run of assignments a key reads the value it was last given,
      or its old value if it was not assigned. */
  lemma {:induction false} PutAllLookup<T>(d: Named<T>, es: Named<T>, k: string)
    ensures Lookup(PutAll(d, es), k) == if LastFor(es, k).Some? then LastFor(es, k) else Lookup(d, k)
    decreases |es|
  {
    if es != [] {
      var d' := Put(d, es[0].0, es[0].1);
      PutAllLookup(d', es[1..], k);
      PutLaws(d, es[0].0, es[0].1);
      LastForCons(es, k);
    }
  }

  lemma {:induction false} LastForCons<T>(es: Named<T>, k: string)
    requires es != []
    ensures LastFor(es, k) == if LastFor(es[1..], k).Some? then LastFor(es[1..], k)
                              else if es[0].0 == k then Some(es[0].1) else None
    decreases |es|
  {
    if |es| > 1 && es[|es| - 1].0 != k {
      var init := es[..|es| - 1];
      LastForCons(init, k);
      assert init[1..] == es[1..][..|es[1..]| - 1];
    }
  }

  /** A run of assignments never drops or moves a key already present. */
  lemma {:induction false} PutAllKeepsKeys<T>(d: Named<T>, es: Named<T>)
    ensures |PutAll(d, es)| >= |d|
    ensures KeyList(PutAll(d, es))[..|d|] == KeyList(d)
    decreases |es|
  {
    if es != [] {
      var d' := Put(d, es[0].0, es[0].1);
      PutLaws(d, es[0].0, es[0].1);
      PutAllKeepsKeys(d', es[1..]);
      assert KeyList(d')[..|d|] == KeyList(d);
      assert KeyList(PutAll(d, es))[..|d|] == KeyList(PutAll(d, es))[..|d'|][..|d|];
    }
  }

  /** The assignments of one model's columns, one key at a time. */
  method Store<T>(d: Named<T>, es: Named<T>) returns (r: Named<T>)
    ensures r == PutAll(d, es)
  {
    r := d;
    for j := 0 to |es|
      invariant PutAll(r, es[j..]) == PutAll(d, es)
    {
      assert es[j..][1..] == es[j + 1..];
      r := Put(r, es[j].0, es[j].1);
    }
    assert es[|es|..] == [];
  }

  // ---------------------------------------------------------------------
  // What one model contributes

  /** `values.flatten()`. */
  function Flattened<V>(b: Buffer<V>): Column<V>
  {
    match b
    case Flat(cells) => cells
    case Table(rows) => Flatten(rows)
  }

  /** `values[:, j]` of a 2-D buffer whose rows all have column j. */
  function ColumnAt<V>(rows: seq<seq<Option<V>>>, j: nat): Column<V>
  {
    seq(|rows|, t requires 0 <= t < |rows| => if j < |rows[t]| then rows[t][j] else None)
  }

  /** `fcsts[f'{name}_{key}'] = values[:, j]` for `j, key in enumerate(keys)`. */
  function KeyColumns<V>(name: string, rows: seq<seq<Option<V>>>, keys: seq<string>): Named<Option<V>>
  {
    seq(|keys|, j requires 0 <= j < |keys| => (name + "_" + keys[j], ColumnAt(rows, j)))
  }

  /** The columns of one `compute_forecasts` result: one per key, or the
      flattened buffer under the model's name when there are no keys; a 1-D
      buffer indexed as `values[:, j]` raises IndexError. */
  function Entries<V>(name: string, b: Buffer<V>, keys: Option<seq<string>>): Result<Named<Option<V>>>
  {
    if keys.None? then Ok([(name, Flattened(b))])
    else match b
      case Table(rows) => Ok(KeyColumns(name, rows, keys.value))
      case Flat(_) => if keys.value == [] then Ok([]) else Err(IndexError)
  }

  /** The columns one model stores and, in cv mode, its `test_values`. */
  datatype Outcome<V> = Outcome(cols: Named<Option<V>>, test: Option<Column<V>>)

  /** The inputs a run needs: a valid store and exogenous store, rows of
      `ncols` columns in cv mode. */
  ghost predicate Ready<V>(ga: GroupedArray<seq<V>>, mode: Mode, xreg: Option<GroupedArray<seq<V>>>, ncols: nat)
  {
    Valid(ga) && XregValid(xreg) && (mode.CvMode? ==> CV.Rectangular(ga, ncols))
  }

  /** The calling contract of the kernel a model runs in. */
  ghost predicate ModelReady<V, A>(ga: GroupedArray<seq<V>>, h: nat, mode: Mode,
                                   xreg: Option<GroupedArray<seq<V>>>, level: Option<seq<int>>, ncols: nat,
                                   e: Entry<V, A>)
  {
    Ready(ga, mode, xreg, ncols)
    && (match mode
        case ForecastMode => KernelContract(ga, h, e.fn, xreg, level, e.args)
        case CvMode(testSize, inputSize) => CV.CvReady(ga, h, testSize, e.fn.point, inputSize, e.args, ncols))
  }

  /** One pass of `_sequential`'s loop: the kernel on the whole store. */
  function SeqOutcome<V, A(==)>(ga: GroupedArray<seq<V>>, h: nat, mode: Mode,
                                xreg: Option<GroupedArray<seq<V>>>, level: Option<seq<int>>, ncols: nat,
                                show: A -> string, e: Entry<V, A>): Result<Outcome<V>>
    requires Ready(ga, mode, xreg, ncols)
  {
    var name := ModelName(e, show);
    match mode
    case ForecastMode =>
      (match Forecasts(ga, h, e.fn, xreg, level, e.args)
       case Err(err) => Err(err)
       case Ok(res) =>
         match Entries(name, res.0, res.1)
         case Err(err) => Err(err)
         case Ok(cols) => Ok(Outcome(cols, None)))
    case CvMode(testSize, inputSize) =>
      match CV.Cv(ga, h, testSize, e.fn.point, inputSize, e.args, ncols)
      case Err(err) => Err(err)
      case Ok(res) => Ok(Outcome([(name, res.0)], Some(res.1)))
  }

  // ---------------------------------------------------------------------
  // Running the models one after another

  datatype State<V> = State(fcsts: Named<Option<V>>, test: Option<Column<V>>)

  function Absorb<V>(st: State<V>, o: Outcome<V>): State<V>
  {
    State(PutAll(st.fcsts, o.cols), if o.test.Some? then o.test else st.test)
  }

  /** The model loop from state `st`: the first model that raises ends it. */
  function Run<V>(st: State<V>, outs: seq<Result<Outcome<V>>>): Result<State<V>>
    decreases |outs|
  {
    if outs == [] then Ok(st)
    else match outs[0]
      case Err(e) => Err(e)
      case Ok(o) => Run(Absorb(st, o), outs[1..])
  }

  /** After the loop: the dict, or in cv mode `{'y': test_values, **fcsts}`,
      which reads `test_values` of the last model (UnboundLocalError when
      there was none). */
  function Finish<V>(mode: Mode, r: Result<State<V>>): Result<Named<Option<V>>>
  {
    match r
    case Err(e) => Err(e)
    case Ok(st) =>
      if mode.ForecastMode? then Ok(st.fcsts)
      else if st.test.None? then Err(UnboundLocalError)
      else Ok(PutAll([("y", st.test.value)], st.fcsts))
  }

  function SeqOutcomes<V, A(==)>(ga: GroupedArray<seq<V>>, h: nat, mode: Mode,
                                 xreg: Option<GroupedArray<seq<V>>>, level: Option<seq<int>>, ncols: nat,
                                 show: A -> string, asModel: A -> Option<Callable<seq<V>, A, V>>,
                                 models: seq<Names.PyValue<A>>): (outs: seq<Result<Outcome<V>>>)
    requires Ready(ga, mode, xreg, ncols)
    ensures |outs| == |models|
  {
    seq(|models|, m requires 0 <= m < |models| =>
      match ToEntry(models[m], asModel)
      case Err(err) => Err(err)
      case Ok(e) => SeqOutcome(ga, h, mode, xreg, level, ncols, show, e))
  }

  /** `_sequential(h, test_size, input_size, xreg, level, mode)`. */
  function Sequential<V, A(==)>(ga: GroupedArray<seq<V>>, h: nat, mode: Mode,
                                xreg: Option<GroupedArray<seq<V>>>, level: Option<seq<int>>, ncols: nat,
                                show: A -> string, asModel: A -> Option<Callable<seq<V>, A, V>>,
                                models: seq<Names.PyValue<A>>): Result<Named<Option<V>>>
    requires Ready(ga, mode, xreg, ncols)
  {
    Finish(mode, Run(State([], None), SeqOutcomes(ga, h, mode, xreg, level, ncols, show, asModel, models)))
  }

  // ---------------------------------------------------------------------
  // Running every model over the chunks

  type Pair<V> = (GroupedArray<seq<V>>, Option<GroupedArray<seq<V>>>)

  /** `zip(gas, xregs)` with `gas = ga.split(n_jobs)` and `xregs` the split
      exogenous store or `repeat(None)`: zip stops at the shorter one. */
  function Pairs<V>(ga: GroupedArray<seq<V>>, xreg: Option<GroupedArray<seq<V>>>, n: int): (r: Result<seq<Pair<V>>>)
    requires Valid(ga) && XregValid(xreg)
    ensures n <= 0 ==> r == Err(ValueError)
    ensures n >= 1 ==> r.Ok? && |r.value| <= |SP.Split(ga, n).value|
    ensures n >= 1 && xreg.None? ==> |r.value| == SP.Min(n, NGroups(ga))
    ensures n >= 1 && xreg.Some? ==> |r.value| == SP.Min(SP.Min(n, NGroups(ga)), SP.Min(n, NGroups(xreg.value)))
    ensures r.Ok? ==> forall c :: 0 <= c < |r.value| ==>
      && r.value[c].0 == SP.Split(ga, n).value[c]
      && Valid(r.value[c].0) && XregValid(r.value[c].1)
      && (xreg.None? ==> r.value[c].1.None?)
      && (xreg.Some? ==> r.value[c].1 == Some(SP.Split(xreg.value, n).value[c]))
  {
    match SP.Split(ga, n)
    case Err(e) => Err(e)
    case Ok(gas) =>
      if xreg.None? then Ok(seq(|gas|, c requires 0 <= c < |gas| => (gas[c], None)))
      else
        var xrs := SP.Split(xreg.value, n).value;
        Ok(seq(SP.Min(|gas|, |xrs|), c requires 0 <= c < SP.Min(|gas|, |xrs|) => (gas[c], Some(xrs[c]))))
  }

  /** The first error in list order (`[f.get() for f in futures]` re-raises
      the first failed call), None when every call succeeded. */
  function FirstFailure<T>(rs: seq<Result<T>>): (r: Option<Error>)
    ensures r.None? <==> forall c :: 0 <= c < |rs| ==> rs[c].Ok?
    ensures r.Some? ==> exists c :: 0 <= c < |rs| && rs[c] == Err(r.value) && forall d :: 0 <= d < c ==> rs[d].Ok?
  {
    if rs == [] then None
    else if rs[0].Err? then Some(rs[0].error)
    else
      var r := FirstFailure(rs[1..]);
      if r.Some? then
        var c :| 0 <= c < |rs[1..]| && rs[1..][c] == Err(r.value) && forall d :: 0 <= d < c ==> rs[1..][d].Ok?;
        assert rs[c + 1] == Err(r.value);
        r
      else r
  }

  /** `np.vstack` sees a 1-D array as one row. */
  function Stack<V>(b: Buffer<V>): seq<seq<Option<V>>>
  {
    match b
    case Table(rows) => rows
    case Flat(cells) => [cells]
  }

  ghost predicate PairsReady<V>(ps: seq<Pair<V>>, mode: Mode, ncols: nat)
  {
    forall c :: 0 <= c < |ps| ==> Ready(ps[c].0, mode, ps[c].1, ncols)
  }

  /** The chunk calls of one model in forecast mode. */
  function ForecastChunks<V, A>(ps: seq<Pair<V>>, h: nat, e: Entry<V, A>, level: Option<seq<int>>)
    : (rs: seq<Result<(Buffer<V>, Option<seq<string>>)>>)
    requires forall c :: 0 <= c < |ps| ==> Valid(ps[c].0) && XregValid(ps[c].1)
    ensures |rs| == |ps|
  {
    seq(|ps|, c requires 0 <= c < |ps| => Forecasts(ps[c].0, h, e.fn, ps[c].1, level, e.args))
  }

  /** `values, keys = zip(*results)`, `keys = keys[0]`, then the stacked
      columns, or the flattened buffers laid end to end; unpacking no
      results raises ValueError. */
  function ForecastMerge<V>(name: string, rs: seq<Result<(Buffer<V>, Option<seq<string>>)>>): Result<Outcome<V>>
  {
    var err := FirstFailure(rs);
    if err.Some? then Err(err.value)
    else if rs == [] then Err(ValueError)
    else
      var vals := seq(|rs|, c requires 0 <= c < |rs| => rs[c].value.0);
      var keys := rs[0].value.1;
      if keys.Some? then
        Ok(Outcome(KeyColumns(name, Flatten(seq(|vals|, c requires 0 <= c < |vals| => Stack(vals[c]))), keys.value), None))
      else
        Ok(Outcome([(name, Flatten(seq(|vals|, c requires 0 <= c < |vals| => Flattened(vals[c]))))], None))
  }

  /** The chunk calls of one model in cv mode (the exogenous chunk is not
      passed). */
  function CvChunks<V, A>(ps: seq<Pair<V>>, h: nat, testSize: int, inputSize: Option<int>, ncols: nat, e: Entry<V, A>)
    : (rs: seq<Result<(Column<V>, Column<V>)>>)
    requires forall c :: 0 <= c < |ps| ==> CV.Rectangular(ps[c].0, ncols)
    ensures |rs| == |ps|
  {
    seq(|ps|, c requires 0 <= c < |ps| => CV.Cv(ps[c].0, h, testSize, e.fn.point, inputSize, e.args, ncols))
  }

  /** `values, test_values = zip(*results)`: the forecasts laid end to end
      and the targets stacked the same way. */
  function CvMerge<V>(name: string, rs: seq<Result<(Column<V>, Column<V>)>>): Result<Outcome<V>>
  {
    var err := FirstFailure(rs);
    if err.Some? then Err(err.value)
    else if rs == [] then Err(ValueError)
    else
      Ok(Outcome([(name, Flatten(seq(|rs|, c requires 0 <= c < |rs| => rs[c].value.0)))],
                 Some(Flatten(seq(|rs|, c requires 0 <= c < |rs| => rs[c].value.1)))))
  }

  /** One pass of `_data_parallel`'s model loop. */
  function ParOutcome<V, A(==)>(ps: seq<Pair<V>>, h: nat, mode: Mode, level: Option<seq<int>>, ncols: nat,
                                show: A -> string, e: Entry<V, A>): Result<Outcome<V>>
    requires PairsReady(ps, mode, ncols)
  {
    var name := ModelName(e, show);
    match mode
    case ForecastMode => ForecastMerge(name, ForecastChunks(ps, h, e, level))
    case CvMode(testSize, inputSize) => CvMerge(name, CvChunks(ps, h, testSize, inputSize, ncols, e))
  }

  function ParOutcomes<V, A(==)>(ps: seq<Pair<V>>, h: nat, mode: Mode, level: Option<seq<int>>, ncols: nat,
                                 show: A -> string, asModel: A -> Option<Callable<seq<V>, A, V>>,
                                 models: seq<Names.PyValue<A>>): (outs: seq<Result<Outcome<V>>>)
    requires PairsReady(ps, mode, ncols)
    ensures |outs| == |models|
  {
    seq(|models|, m requires 0 <= m < |models| =>
      match ToEntry(models[m], asModel)
      case Err(err) => Err(err)
      case Ok(e) => ParOutcome(ps, h, mode, level, ncols, show, e))
  }

  /** The chunks of a store of `ncols`-column rows have `ncols`-column rows. */
  lemma ChunksRectangular<V>(ga: GroupedArray<seq<V>>, n: int, ncols: nat)
    requires CV.Rectangular(ga, ncols) && n >= 1
    ensures forall c :: 0 <= c < |SP.Split(ga, n).value| ==> CV.Rectangular(SP.Split(ga, n).value[c], ncols)
  {
    var rs := SP.ChunkRanges(NGroups(ga), n);
    SP.ChunkRangesFacts(NGroups(ga), n);
    var cs := SP.Split(ga, n).value;
    forall c | 0 <= c < |cs| ensures CV.Rectangular(cs[c], ncols) {
      assert cs[c] == SliceStore(ga, rs[c].0, rs[c].1).value;
      assert 0 <= ga.indptr[rs[c].0] <= ga.indptr[rs[c].1] <= |ga.data|;
    }
  }

  lemma PairsReadyHold<V>(ga: GroupedArray<seq<V>>, mode: Mode, xreg: Option<GroupedArray<seq<V>>>, ncols: nat, n: int)
    requires Ready(ga, mode, xreg, ncols) && Pairs(ga, xreg, n).Ok?
    ensures PairsReady(Pairs(ga, xreg, n).value, mode, ncols)
  {
    if mode.CvMode? {
      ChunksRectangular(ga, n, ncols);
    }
  }

  /** `_data_parallel(h, test_size, input_size, xreg, level, mode)` with
      `n_jobs` workers. */
  function Parallel<V, A(==)>(ga: GroupedArray<seq<V>>, h: nat, mode: Mode,
                              xreg: Option<GroupedArray<seq<V>>>, level: Option<seq<int>>, ncols: nat,
                              show: A -> string, asModel: A -> Option<Callable<seq<V>, A, V>>,
                              models: seq<Names.PyValue<A>>, n: int): Result<Named<Option<V>>>
    requires Ready(ga, mode, xreg, ncols)
  {
    match Pairs(ga, xreg, n)
    case Err(e) => Err(e)
    case Ok(ps) =>
      PairsReadyHold(ga, mode, xreg, ncols, n);
      Finish(mode, Run(State([], None), ParOutcomes(ps, h, mode, level, ncols, show, asModel, models)))
  }

  // ---------------------------------------------------------------------
  // The loops

  /** The tail of both loops: `fcsts`, or in cv mode
      `{'y': test_values.flatten(), **fcsts}`. */
  method Collect<V>(mode: Mode, fcsts: Named<Option<V>>, test: Option<Column<V>>) returns (r: Result<Named<Option<V>>>)
    ensures r == Finish(mode, Ok(State(fcsts, test)))
  {
    if mode.ForecastMode? {
      return Ok(fcsts);
    }
    if test.None? {
      return Err(UnboundLocalError);
    }
    var d := Store([("y", test.value)], fcsts);
    r := Ok(d);
  }

  /** One model on the whole store: the kernel of the mode, then the
      columns it contributes. */
  method SeqModel<V, A(==)>(ga: GroupedArray<seq<V>>, h: nat, mode: Mode,
                            xreg: Option<GroupedArray<seq<V>>>, level: Option<seq<int>>, ncols: nat,
                            show: A -> string, e: Entry<V, A>) returns (o: Result<Outcome<V>>)
    requires ModelReady(ga, h, mode, xreg, level, ncols, e)
    ensures o == SeqOutcome(ga, h, mode, xreg, level, ncols, show, e)
  {
    var name := ModelName(e, show);
    match mode {
      case ForecastMode =>
        var res := ComputeForecasts(ga, h, e.fn, xreg, level, e.args);
        if res.Err? {
          return Err(res.error);
        }
        var cols := Entries(name, res.value.0, res.value.1);
        if cols.Err? {
          return Err(cols.error);
        }
        o := Ok(Outcome(cols.value, None));
      case CvMode(testSize, inputSize) =>
        var res := CV.ComputeCv(ga, h, testSize, e.fn.point, inputSize, e.args, ncols);
        if res.Err? {
          return Err(res.error);
        }
        o := Ok(Outcome([(name, res.value.0)], Some(res.value.1)));
    }
  }

  /** `_sequential`: the models in order, each over the whole store, their
      columns assigned into `fcsts` one key at a time. */
  method SequentialLoop<V, A(==)>(ga: GroupedArray<seq<V>>, h: nat, mode: Mode,
                                  xreg: Option<GroupedArray<seq<V>>>, level: Option<seq<int>>, ncols: nat,
                                  show: A -> string, asModel: A -> Option<Callable<seq<V>, A, V>>,
                                  models: seq<Names.PyValue<A>>) returns (r: Result<Named<Option<V>>>)
    requires Ready(ga, mode, xreg, ncols)
    requires forall m :: 0 <= m < |models| && ToEntry(models[m], asModel).Ok? ==>
      ModelReady(ga, h, mode, xreg, level, ncols, ToEntry(models[m], asModel).value)
    ensures r == Sequential(ga, h, mode, xreg, level, ncols, show, asModel, models)
  {
    ghost var outs := SeqOutcomes(ga, h, mode, xreg, level, ncols, show, asModel, models);
    var fcsts: Named<Option<V>> := [];
    var test: Option<Column<V>> := None;
    for m := 0 to |models|
      invariant Run(State(fcsts, test), outs[m..]) == Run(State([], None), outs)
    {
      var e := ToEntry(models[m], asModel);
      var o: Result<Outcome<V>>;
      if e.Err? {
        o := Err(e.error);
      } else {
        o := SeqModel(ga, h, mode, xreg, level, ncols, show, e.value);
      }
      assert outs[m..][0] == o;
      if o.Err? {
        return Err(o.error);
      }
      assert outs[m..][1..] == outs[m + 1..];
      fcsts := Store(fcsts, o.value.cols);
      if o.value.test.Some? {
        test := o.value.test;
      }
    }
    assert outs[|models|..] == [];
    r := Collect(mode, fcsts, test);
  }

  /** The calling contract of every model on every chunk. */
  ghost predicate ParReady<V, A>(ps: seq<Pair<V>>, h: nat, mode: Mode, level: Option<seq<int>>, ncols: nat,
                                 asModel: A -> Option<Callable<seq<V>, A, V>>, models: seq<Names.PyValue<A>>)
  {
    forall c, m :: 0 <= c < |ps| && 0 <= m < |models| && ToEntry(models[m], asModel).Ok? ==>
      ModelReady(ps[c].0, h, mode, ps[c].1, level, ncols, ToEntry(models[m], asModel).value)
  }

  /** One model over the chunks: a call per chunk in chunk order, then the
      merge of the results. */
  method ParModel<V, A(==)>(ps: seq<Pair<V>>, h: nat, mode: Mode, level: Option<seq<int>>, ncols: nat,
                            show: A -> string, e: Entry<V, A>) returns (o: Result<Outcome<V>>)
    requires PairsReady(ps, mode, ncols)
    requires forall c :: 0 <= c < |ps| ==> ModelReady(ps[c].0, h, mode, ps[c].1, level, ncols, e)
    ensures o == ParOutcome(ps, h, mode, level, ncols, show, e)
  {
    var name := ModelName(e, show);
    match mode {
      case ForecastMode =>
        var rs := ForecastCalls(ps, h, e, level);
        o := ForecastMerge(name, rs);
      case CvMode(testSize, inputSize) =>
        var rs := CvCalls(ps, h, testSize, inputSize, ncols, e);
        o := CvMerge(name, rs);
    }
  }

  /** The forecast-mode calls of one model, one per chunk in chunk order. */
  method ForecastCalls<V, A>(ps: seq<Pair<V>>, h: nat, e: Entry<V, A>, level: Option<seq<int>>)
    returns (rs: seq<Result<(Buffer<V>, Option<seq<string>>)>>)
    requires forall c :: 0 <= c < |ps| ==> Valid(ps[c].0) && XregValid(ps[c].1)
    requires forall c :: 0 <= c < |ps| ==> KernelContract(ps[c].0, h, e.fn, ps[c].1, level, e.args)
    ensures rs == ForecastChunks(ps, h, e, level)
  {
    rs := [];
    for c := 0 to |ps|
      invariant |rs| == c
      invariant forall d :: 0 <= d < c ==> rs[d] == Forecasts(ps[d].0, h, e.fn, ps[d].1, level, e.args)
    {
      var x := ComputeForecasts(ps[c].0, h, e.fn, ps[c].1, level, e.args);
      rs := rs + [x];
    }
  }

  /** The calling contract of the cv kernel on every chunk. */
  ghost predicate CvChunksReady<V, A>(ps: seq<Pair<V>>, h: nat, testSize: int, inputSize: Option<int>, ncols: nat,
                                      e: Entry<V, A>)
  {
    forall c :: 0 <= c < |ps| ==>
      CV.Rectangular(ps[c].0, ncols) && CV.CvReady(ps[c].0, h, testSize, e.fn.point, inputSize, e.args, ncols)
  }

  /** The cv-mode calls of one model, one per chunk in chunk order. */
  method CvCalls<V, A>(ps: seq<Pair<V>>, h: nat, testSize: int, inputSize: Option<int>, ncols: nat, e: Entry<V, A>)
    returns (rs: seq<Result<(Column<V>, Column<V>)>>)
    requires CvChunksReady(ps, h, testSize, inputSize, ncols, e)
    ensures rs == CvChunks(ps, h, testSize, inputSize, ncols, e)
  {
    ghost var all := CvChunks(ps, h, testSize, inputSize, ncols, e);
    rs := [];
    for c := 0 to |ps|
      invariant rs == all[..c]
    {
      var x := CvCall(ps, h, testSize, inputSize, ncols, e, c, all);
      assert all[..c + 1] == all[..c] + [x];
      rs := rs + [x];
    }
    assert all[..|ps|] == all;
  }

  /** The cv-mode call on chunk c. */
  method CvCall<V, A>(ps: seq<Pair<V>>, h: nat, testSize: int, inputSize: Option<int>, ncols: nat, e: Entry<V, A>,
                      c: nat, ghost all: seq<Result<(Column<V>, Column<V>)>>)
    returns (x: Result<(Column<V>, Column<V>)>)
    requires CvChunksReady(ps, h, testSize, inputSize, ncols, e) && c < |ps|
    requires all == CvChunks(ps, h, testSize, inputSize, ncols, e)
    ensures x == all[c]
  {
    x := CV.ComputeCv(ps[c].0, h, testSize, e.fn.point, inputSize, e.args, ncols);
  }

  /** `_data_parallel` with `n_jobs` workers: split the store (and the
      exogenous store), then per model one call per chunk, the results
      merged in chunk order. */
  method DataParallel<V, A(==)>(ga: GroupedArray<seq<V>>, h: nat, mode: Mode,
                                xreg: Option<GroupedArray<seq<V>>>, level: Option<seq<int>>, ncols: nat,
                                show: A -> string, asModel: A -> Option<Callable<seq<V>, A, V>>,
                                models: seq<Names.PyValue<A>>, n: int)
    returns (r: Result<Named<Option<V>>>)
    requires Ready(ga, mode, xreg, ncols)
    requires Pairs(ga, xreg, n).Ok? ==> ParReady(Pairs(ga, xreg, n).value, h, mode, level, ncols, asModel, models)
    ensures r == Parallel(ga, h, mode, xreg, level, ncols, show, asModel, models, n)
  {
    var pairs := Pairs(ga, xreg, n);
    if pairs.Err? {
      return Err(pairs.error);
    }
    PairsReadyHold(ga, mode, xreg, ncols, n);
    r := ChunkLoop(pairs.value, h, mode, level, ncols, show, asModel, models);
  }

  /** The model loop of `_data_parallel` over fixed chunk pairs. */
  method ChunkLoop<V, A(==)>(ps: seq<Pair<V>>, h: nat, mode: Mode, level: Option<seq<int>>, ncols: nat,
                             show: A -> string, asModel: A -> Option<Callable<seq<V>, A, V>>,
                             models: seq<Names.PyValue<A>>) returns (r: Result<Named<Option<V>>>)
    requires PairsReady(ps, mode, ncols) && ParReady(ps, h, mode, level, ncols, asModel, models)
    ensures r == Finish(mode, Run(State([], None), ParOutcomes(ps, h, mode, level, ncols, show, asModel, models)))
  {
    ghost var outs := ParOutcomes(ps, h, mode, level, ncols, show, asModel, models);
    var fcsts: Named<Option<V>> := [];
    var test: Option<Column<V>> := None;
    for m := 0 to |models|
      invariant Run(State(fcsts, test), outs[m..]) == Run(State([], None), outs)
    {
      var e := ToEntry(models[m], asModel);
      var o: Result<Outcome<V>>;
      if e.Err? {
        o := Err(e.error);
      } else {
        o := ParModel(ps, h, mode, level, ncols, show, e.value);
      }
      assert outs[m..][0] == o;
      if o.Err? {
        return Err(o.error);
      }
      assert outs[m..][1..] == outs[m + 1..];
      fcsts := Store(fcsts, o.value.cols);
      if o.value.test.Some? {
        test := o.value.test;
      }
    }
    assert outs[|models|..] == [];
    r := Collect(mode, fcsts, test);
  }

  // ---------------------------------------------------------------------
  // What the loops compute

  /** The model loop ends with the first model that raises, and succeeds
      exactly when none does. */
  lemma {:induction false} RunOutcome<V>(st: State<V>, outs: seq<Result<Outcome<V>>>)
    ensures Run(st, outs).Ok? <==> forall m :: 0 <= m < |outs| ==> outs[m].Ok?
    ensures FirstFailure(outs).Some? ==> Run(st, outs) == Err(FirstFailure(outs).value)
    decreases |outs|
  {
    if outs != [] && outs[0].Ok? {
      RunOutcome(Absorb(st, outs[0].value), outs[1..]);
      assert forall m :: 1 <= m < |outs| ==> outs[m] == outs[1..][m - 1];
    }
  }

  /** In cv mode the dict exists exactly when a model ran; its first key is
      'y', holding the last model's targets unless a model is named 'y'. */
  lemma CvResultLayout<V>(mode: Mode, st: State<V>)
    requires mode.CvMode?
    ensures Finish(mode, Ok(st)).Ok? <==> st.test.Some?
    ensures Finish(mode, Ok(st)).Ok? ==>
      var d := Finish(mode, Ok(st)).value;
      && |d| >= 1 && KeyList(d)[0] == "y"
      && (LastFor(st.fcsts, "y").None? ==> Lookup(d, "y") == st.test)
  {
    if st.test.Some? {
      var base: Named<Option<V>> := [("y", st.test.value)];
      PutAllKeepsKeys(base, st.fcsts);
      PutAllLookup(base, st.fcsts, "y");
      assert KeyList(base) == ["y"];
    }
  }

  /** Chunk c of `split(n)` holds the groups of section c, in order. */
  lemma ChunkGroupsAt<R>(ga: GroupedArray<R>, n: int, c: int)
    requires Valid(ga) && n >= 1 && 0 <= c < |SP.Split(ga, n).value|
    ensures |SP.ChunkRanges(NGroups(ga), n)| == |SP.Split(ga, n).value|
    ensures var r := SP.ChunkRanges(NGroups(ga), n)[c];
      var ch := SP.Split(ga, n).value[c];
      && 0 <= r.0 <= r.1 <= NGroups(ga) && Valid(ch) && NGroups(ch) == r.1 - r.0
      && forall k :: 0 <= k < r.1 - r.0 ==> Group(ch, k) == Group(ga, r.0 + k)
  {
    SP.ChunkRangesFacts(NGroups(ga), n);
    var r := SP.ChunkRanges(NGroups(ga), n)[c];
    assert SP.Split(ga, n).value[c] == SliceStore(ga, r.0, r.1).value;
  }

  /** Laying out the chunks' marked outputs gives the marked outputs of the
      whole sequence when the chunks are the pieces of a tiling. */
  lemma PiecesJoin<T>(s: seq<seq<T>>, rs: seq<(int, int)>, xs: seq<seq<seq<T>>>)
    requires SP.Tiles(rs, 0, |s|) && |xs| == |rs|
    requires forall c :: 0 <= c < |rs| ==> 0 <= rs[c].0 <= rs[c].1 <= |s| && xs[c] == s[rs[c].0..rs[c].1]
    ensures Flatten(seq(|xs|, c requires 0 <= c < |xs| => Lift(Flatten(xs[c])))) == Lift(Flatten(s))
  {
    PiecesTile(s, rs, xs);
    JoinLift(xs, Flatten(s));
  }

  lemma JoinLift<T>(xs: seq<seq<seq<T>>>, s: seq<T>)
    requires Flatten(Flatten(xs)) == s
    ensures Flatten(seq(|xs|, c requires 0 <= c < |xs| => Lift(Flatten(xs[c])))) == Lift(s)
  {
    var ys := seq(|xs|, c requires 0 <= c < |xs| => Flatten(xs[c]));
    FlattenFlatten(xs);
    FlattenLift(ys);
    var l := seq(|xs|, c requires 0 <= c < |xs| => Lift(Flatten(xs[c])));
    var m := seq(|ys|, c requires 0 <= c < |ys| => Lift(ys[c]));
    assert l == m;
  }

  /** The pieces a tiling selects, laid end to end, are the whole sequence. */
  lemma PiecesTile<T>(s: seq<T>, rs: seq<(int, int)>, xs: seq<seq<T>>)
    requires SP.Tiles(rs, 0, |s|) && |xs| == |rs|
    requires forall c :: 0 <= c < |rs| ==> 0 <= rs[c].0 <= rs[c].1 <= |s| && xs[c] == s[rs[c].0..rs[c].1]
    ensures Flatten(xs) == s
  {
    SP.TilesFlatten(s, rs, 0, |s|);
    assert xs == SP.Pieces(s, rs);
    assert s[0..|s|] == s;
  }

  /** The same one level deeper, for the (group, window, step) outputs. */
  lemma PiecesJoinDeep<T>(s: seq<seq<seq<T>>>, rs: seq<(int, int)>, xs: seq<seq<seq<seq<T>>>>)
    requires SP.Tiles(rs, 0, |s|) && |xs| == |rs|
    requires forall c :: 0 <= c < |rs| ==> 0 <= rs[c].0 <= rs[c].1 <= |s| && xs[c] == s[rs[c].0..rs[c].1]
    ensures Flatten(seq(|xs|, c requires 0 <= c < |xs| => Lift(Flatten(Flatten(xs[c]))))) == Lift(Flatten(Flatten(s)))
  {
    PiecesTile(s, rs, xs);
    JoinLiftDeep(xs, s);
  }

  lemma JoinLiftDeep<T>(xs: seq<seq<seq<seq<T>>>>, s: seq<seq<seq<T>>>)
    requires Flatten(xs) == s
    ensures Flatten(seq(|xs|, c requires 0 <= c < |xs| => Lift(Flatten(Flatten(xs[c]))))) == Lift(Flatten(Flatten(s)))
  {
    var ys := seq(|xs|, c requires 0 <= c < |xs| => Flatten(xs[c]));
    assert Flatten(Flatten(ys)) == Flatten(Flatten(s)) by {
      FlattenFlatten(xs);
    }
    JoinLift(ys, Flatten(Flatten(s)));
    var l := seq(|xs|, c requires 0 <= c < |xs| => Lift(Flatten(Flatten(xs[c]))));
    var m := seq(|ys|, c requires 0 <= c < |ys| => Lift(Flatten(ys[c])));
    assert l == m;
  }

  /** In point mode chunk c forecasts exactly the groups of its section,
      each with the exogenous block the whole store would pass. */
  lemma PointChunk<V, A>(ga: GroupedArray<seq<V>>, xreg: Option<GroupedArray<seq<V>>>, n: int, h: nat,
                         f: PointFn<seq<V>, A, V>, args: seq<A>, c: int)
    requires Valid(ga) && XregValid(xreg) && n >= 1
    requires xreg.Some? ==> NGroups(xreg.value) == NGroups(ga)
    requires 0 <= c < |Pairs(ga, xreg, n).value|
    ensures c < |SP.ChunkRanges(NGroups(ga), n)|
    ensures var p := Pairs(ga, xreg, n).value[c];
      var r := SP.ChunkRanges(NGroups(ga), n)[c];
      && 0 <= r.0 <= r.1 <= NGroups(ga)
      && XregCovers(p.0, p.1)
      && PointOutputs(p.0, h, f, p.1, args) == PointOutputs(ga, h, f, xreg, args)[r.0..r.1]
  {
    var p := Pairs(ga, xreg, n).value[c];
    var r := SP.ChunkRanges(NGroups(ga), n)[c];
    PairAt(ga, xreg, n, c);
    PointSection(ga, xreg, p.0, p.1, r.0, r.1, h, f, args);
  }

  /** `sub` holds groups `lo .. hi-1` of `ga`, and `subx` the exogenous
      blocks `xreg` gives them. */
  ghost predicate SectionOf<V>(ga: GroupedArray<seq<V>>, xreg: Option<GroupedArray<seq<V>>>,
                               sub: GroupedArray<seq<V>>, subx: Option<GroupedArray<seq<V>>>, lo: int, hi: int)
  {
    && Valid(ga) && XregValid(xreg) && Valid(sub) && XregValid(subx)
    && 0 <= lo <= hi <= NGroups(ga) && NGroups(sub) == hi - lo
    && (forall k :: 0 <= k < hi - lo ==> Group(sub, k) == Group(ga, lo + k))
    && (forall k :: 0 <= k < hi - lo ==> Xr(subx, k) == Xr(xreg, lo + k))
  }

  /** Chunk c of the zipped pairs is section c of the store and of the
      exogenous store: the same groups and the same exogenous blocks. */
  lemma PairAt<V>(ga: GroupedArray<seq<V>>, xreg: Option<GroupedArray<seq<V>>>, n: int, c: int)
    requires Valid(ga) && XregValid(xreg) && n >= 1
    requires xreg.Some? ==> NGroups(xreg.value) == NGroups(ga)
    requires 0 <= c < |Pairs(ga, xreg, n).value|
    ensures c < |SP.ChunkRanges(NGroups(ga), n)|
    ensures var p := Pairs(ga, xreg, n).value[c];
      var r := SP.ChunkRanges(NGroups(ga), n)[c];
      && 0 <= r.0 < r.1 <= NGroups(ga)
      && XregCovers(p.0, p.1) && NGroups(p.0) == r.1 - r.0
      && SectionOf(ga, xreg, p.0, p.1, r.0, r.1)
  {
    var p := Pairs(ga, xreg, n).value[c];
    ChunkGroupsAt(ga, n, c);
    var r := SP.ChunkRanges(NGroups(ga), n)[c];
    RangeNonEmpty(NGroups(ga), n, c);
    if xreg.Some? {
      ChunkGroupsAt(xreg.value, n, c);
      assert p.1 == Some(SP.Split(xreg.value, n).value[c]);
    }
    forall k | 0 <= k < r.1 - r.0 ensures Xr(p.1, k) == Xr(xreg, r.0 + k) {
      if xreg.Some? {
        assert Group(p.1.value, k) == Group(xreg.value, r.0 + k);
      }
    }
  }

  lemma RangeNonEmpty(total: nat, n: int, c: int)
    requires n >= 1 && 0 <= c < |SP.ChunkRanges(total, n)|
    ensures SP.ChunkRanges(total, n)[c].0 < SP.ChunkRanges(total, n)[c].1
  {
    SP.ChunkRangesFacts(total, n);
  }

  /** The point outputs of a section of a store, each group with the block
      the whole store would pass. */
  lemma PointSection<V, A>(ga: GroupedArray<seq<V>>, xreg: Option<GroupedArray<seq<V>>>,
                           sub: GroupedArray<seq<V>>, subx: Option<GroupedArray<seq<V>>>, lo: nat, hi: nat,
                           h: nat, f: PointFn<seq<V>, A, V>, args: seq<A>)
    requires SectionOf(ga, xreg, sub, subx, lo, hi)
    ensures PointOutputs(sub, h, f, subx, args) == PointOutputs(ga, h, f, xreg, args)[lo..hi]
  {
    var lhs := PointOutputs(sub, h, f, subx, args);
    var rhs := PointOutputs(ga, h, f, xreg, args)[lo..hi];
    forall k | 0 <= k < |lhs| ensures lhs[k] == rhs[k] {
      assert Group(sub, k) == Group(ga, lo + k);
      assert Xr(subx, k) == Xr(xreg, lo + k);
    }
  }

  /** Point mode: one model over the chunks stores what it stores over the
      whole store. */
  lemma PointOutcomeSame<V, A>(ga: GroupedArray<seq<V>>, xreg: Option<GroupedArray<seq<V>>>, n: int, h: nat,
                               level: Option<seq<int>>, ncols: nat, show: A -> string, e: Entry<V, A>)
    requires Valid(ga) && XregValid(xreg) && n >= 1 && NGroups(ga) >= 1
    requires xreg.Some? ==> NGroups(xreg.value) == NGroups(ga)
    requires !HasLevel(e.fn, level)
    ensures PairsReady(Pairs(ga, xreg, n).value, ForecastMode, ncols)
    ensures ParOutcome(Pairs(ga, xreg, n).value, h, ForecastMode, level, ncols, show, e)
         == SeqOutcome(ga, h, ForecastMode, xreg, level, ncols, show, e)
  {
    var name := ModelName(e, show);
    var want := Ok(Outcome([(name, Lift(Flatten(PointOutputs(ga, h, e.fn.point, xreg, e.args))))], None));
    assert SeqOutcome(ga, h, ForecastMode, xreg, level, ncols, show, e) == want;
    PointParSide(ga, xreg, n, h, level, e, name);
  }

  /** The parallel half of `PointOutcomeSame`. */
  lemma PointParSide<V, A>(ga: GroupedArray<seq<V>>, xreg: Option<GroupedArray<seq<V>>>, n: int, h: nat,
                           level: Option<seq<int>>, e: Entry<V, A>, name: string)
    requires Valid(ga) && XregValid(xreg) && n >= 1 && NGroups(ga) >= 1
    requires xreg.Some? ==> NGroups(xreg.value) == NGroups(ga)
    requires !HasLevel(e.fn, level)
    ensures ForecastMerge(name, ForecastChunks(Pairs(ga, xreg, n).value, h, e, level))
         == Ok(Outcome([(name, Lift(Flatten(PointOutputs(ga, h, e.fn.point, xreg, e.args))))], None))
  {
    var ps := Pairs(ga, xreg, n).value;
    var outs := PointOutputs(ga, h, e.fn.point, xreg, e.args);
    var pieces := PointPieces(ga, xreg, n, h, level, e);
    FlatMerge(name, ForecastChunks(ps, h, e, level), pieces);
    PiecesJoin(outs, SP.ChunkRanges(NGroups(ga), n), pieces);
  }

  /** The chunk calls of a point-mode model all succeed, chunk c with the
      forecasts of section c. */
  lemma PointPieces<V, A>(ga: GroupedArray<seq<V>>, xreg: Option<GroupedArray<seq<V>>>, n: int, h: nat,
                          level: Option<seq<int>>, e: Entry<V, A>)
    returns (pieces: seq<seq<seq<V>>>)
    requires Valid(ga) && XregValid(xreg) && n >= 1 && NGroups(ga) >= 1
    requires xreg.Some? ==> NGroups(xreg.value) == NGroups(ga)
    requires !HasLevel(e.fn, level)
    ensures var ps := Pairs(ga, xreg, n).value;
      var rs := SP.ChunkRanges(NGroups(ga), n);
      && SP.Tiles(rs, 0, NGroups(ga)) && |pieces| == |rs| == |ps| >= 1
      && (forall c :: 0 <= c < |rs| ==>
            0 <= rs[c].0 <= rs[c].1 <= NGroups(ga)
            && pieces[c] == PointOutputs(ga, h, e.fn.point, xreg, e.args)[rs[c].0..rs[c].1])
      && (forall c :: 0 <= c < |ps| ==>
            ForecastChunks(ps, h, e, level)[c] == Ok((Flat(Lift(Flatten(pieces[c]))), None)))
  {
    var ps := Pairs(ga, xreg, n).value;
    var rs := SP.ChunkRanges(NGroups(ga), n);
    SP.ChunkRangesFacts(NGroups(ga), n);
    var f := e.fn.point;
    pieces := seq(|ps|, c requires 0 <= c < |ps| => PointOutputs(ps[c].0, h, f, ps[c].1, e.args));
    forall c | 0 <= c < |ps|
      ensures pieces[c] == PointOutputs(ga, h, f, xreg, e.args)[rs[c].0..rs[c].1]
      ensures ForecastChunks(ps, h, e, level)[c] == Ok((Flat(Lift(Flatten(pieces[c]))), None))
    {
      PointChunk(ga, xreg, n, h, f, e.args, c);
    }
  }

  /** Merging flat, key-less chunk results lays them end to end. */
  lemma FlatMerge<V>(name: string, rs: seq<Result<(Buffer<V>, Option<seq<string>>)>>, pieces: seq<seq<seq<V>>>)
    requires |rs| == |pieces| >= 1
    requires forall c :: 0 <= c < |rs| ==> rs[c] == Ok((Flat(Lift(Flatten(pieces[c]))), None))
    ensures ForecastMerge(name, rs)
         == Ok(Outcome([(name, Flatten(seq(|pieces|, c requires 0 <= c < |pieces| => Lift(Flatten(pieces[c])))))], None))
  {
    var vals := seq(|rs|, c requires 0 <= c < |rs| => rs[c].value.0);
    assert seq(|vals|, c requires 0 <= c < |vals| => Flattened(vals[c]))
        == seq(|pieces|, c requires 0 <= c < |pieces| => Lift(Flatten(pieces[c])));
  }

  /** In cv mode chunk c holds the windows of exactly the groups of its
      section. */
  lemma CvChunk<V, A>(ga: GroupedArray<seq<V>>, n: int, h: nat, testSize: int, f: PointFn<seq<V>, A, V>,
                      inputSize: Option<int>, args: seq<A>, ncols: nat, c: int)
    requires CV.Rectangular(ga, ncols) && n >= 1 && CV.Windows(testSize, h) >= 0
    requires 0 <= c < |SP.Split(ga, n).value|
    ensures c < |SP.ChunkRanges(NGroups(ga), n)|
    ensures var ch := SP.Split(ga, n).value[c];
      var r := SP.ChunkRanges(NGroups(ga), n)[c];
      && 0 <= r.0 <= r.1 <= NGroups(ga) && CV.Rectangular(ch, ncols)
      && CV.PerGroupForecasts(ch, h, testSize, f, inputSize, args, ncols)
         == CV.PerGroupForecasts(ga, h, testSize, f, inputSize, args, ncols)[r.0..r.1]
      && CV.PerGroupTargets(ch, h, testSize, ncols) == CV.PerGroupTargets(ga, h, testSize, ncols)[r.0..r.1]
  {
    var ch := SP.Split(ga, n).value[c];
    var r := SP.ChunkRanges(NGroups(ga), n)[c];
    ChunkGroupsAt(ga, n, c);
    ChunksRectangular(ga, n, ncols);
    SubStore(ga, ch, r.0, h, testSize, f, inputSize, args, ncols);
  }

  /** A store whose groups are groups a, a+1, ... of another has their
      windows. */
  lemma SubStore<V, A>(ga: GroupedArray<seq<V>>, ch: GroupedArray<seq<V>>, a: int, h: nat, testSize: int,
                       f: PointFn<seq<V>, A, V>, inputSize: Option<int>, args: seq<A>, ncols: nat)
    requires CV.Rectangular(ga, ncols) && CV.Rectangular(ch, ncols) && CV.Windows(testSize, h) >= 0
    requires 0 <= a && a + NGroups(ch) <= NGroups(ga)
    requires forall k :: 0 <= k < NGroups(ch) ==> Group(ch, k) == Group(ga, a + k)
    ensures CV.PerGroupForecasts(ch, h, testSize, f, inputSize, args, ncols)
         == CV.PerGroupForecasts(ga, h, testSize, f, inputSize, args, ncols)[a..a + NGroups(ch)]
    ensures CV.PerGroupTargets(ch, h, testSize, ncols) == CV.PerGroupTargets(ga, h, testSize, ncols)[a..a + NGroups(ch)]
  {
    SubStoreForecasts(ga, ch, a, h, testSize, f, inputSize, args, ncols);
    SubStoreTargets(ga, ch, a, h, testSize, f, inputSize, args, ncols);
  }

  lemma SubStoreForecasts<V, A>(ga: GroupedArray<seq<V>>, ch: GroupedArray<seq<V>>, a: int, h: nat, testSize: int,
                                f: PointFn<seq<V>, A, V>, inputSize: Option<int>, args: seq<A>, ncols: nat)
    requires CV.Rectangular(ga, ncols) && CV.Rectangular(ch, ncols) && CV.Windows(testSize, h) >= 0
    requires 0 <= a && a + NGroups(ch) <= NGroups(ga)
    requires forall k :: 0 <= k < NGroups(ch) ==> Group(ch, k) == Group(ga, a + k)
    ensures CV.PerGroupForecasts(ch, h, testSize, f, inputSize, args, ncols)
         == CV.PerGroupForecasts(ga, h, testSize, f, inputSize, args, ncols)[a..a + NGroups(ch)]
  {
    var lf := CV.PerGroupForecasts(ch, h, testSize, f, inputSize, args, ncols);
    var rf := CV.PerGroupForecasts(ga, h, testSize, f, inputSize, args, ncols);
    forall k | 0 <= k < NGroups(ch) ensures lf[k] == rf[a + k] {
      SubStoreForecastAt(ga, ch, a, h, testSize, f, inputSize, args, ncols, k);
    }
  }

  lemma SubStoreForecastAt<V, A>(ga: GroupedArray<seq<V>>, ch: GroupedArray<seq<V>>, a: int, h: nat, testSize: int,
                                 f: PointFn<seq<V>, A, V>, inputSize: Option<int>, args: seq<A>, ncols: nat, k: int)
    requires CV.Rectangular(ga, ncols) && CV.Rectangular(ch, ncols) && CV.Windows(testSize, h) >= 0
    requires 0 <= a && 0 <= k < NGroups(ch) && a + k < NGroups(ga) && Group(ch, k) == Group(ga, a + k)
    ensures CV.PerGroupForecasts(ch, h, testSize, f, inputSize, args, ncols)[k]
         == CV.PerGroupForecasts(ga, h, testSize, f, inputSize, args, ncols)[a + k]
  {
    PerGroupAt(ch, h, testSize, f, inputSize, args, ncols, k);
    PerGroupAt(ga, h, testSize, f, inputSize, args, ncols, a + k);
  }

  lemma SubStoreTargets<V, A>(ga: GroupedArray<seq<V>>, ch: GroupedArray<seq<V>>, a: int, h: nat, testSize: int,
                              f: PointFn<seq<V>, A, V>, inputSize: Option<int>, args: seq<A>, ncols: nat)
    requires CV.Rectangular(ga, ncols) && CV.Rectangular(ch, ncols) && CV.Windows(testSize, h) >= 0
    requires 0 <= a && a + NGroups(ch) <= NGroups(ga)
    requires forall k :: 0 <= k < NGroups(ch) ==> Group(ch, k) == Group(ga, a + k)
    ensures CV.PerGroupTargets(ch, h, testSize, ncols) == CV.PerGroupTargets(ga, h, testSize, ncols)[a..a + NGroups(ch)]
  {
    var lt := CV.PerGroupTargets(ch, h, testSize, ncols);
    var rt := CV.PerGroupTargets(ga, h, testSize, ncols);
    forall k | 0 <= k < NGroups(ch) ensures lt[k] == rt[a + k] {
      PerGroupAt(ch, h, testSize, f, inputSize, args, ncols, k);
      PerGroupAt(ga, h, testSize, f, inputSize, args, ncols, a + k);
    }
  }

  lemma PerGroupAt<V, A>(ga: GroupedArray<seq<V>>, h: nat, testSize: int, f: PointFn<seq<V>, A, V>,
                         inputSize: Option<int>, args: seq<A>, ncols: nat, i: int)
    requires CV.Rectangular(ga, ncols) && CV.Windows(testSize, h) >= 0 && 0 <= i < NGroups(ga)
    ensures CV.RowsOf(Group(ga, i), ncols)
    ensures CV.PerGroupForecasts(ga, h, testSize, f, inputSize, args, ncols)[i]
         == CV.GroupForecasts(Group(ga, i), h, testSize, f, inputSize, args, ncols)
    ensures CV.PerGroupTargets(ga, h, testSize, ncols)[i] == CV.GroupTargets(Group(ga, i), h, testSize, ncols)
  {
    CV.GroupRows(ga, ncols, i);
  }

  /** Cv mode: one model over the chunks stores the forecasts and keeps the
      targets it does over the whole store, including the ValueError of a
      negative window count. */
  lemma CvOutcomeSame<V, A>(ga: GroupedArray<seq<V>>, n: int, h: nat, testSize: int, inputSize: Option<int>,
                            level: Option<seq<int>>, ncols: nat, show: A -> string, e: Entry<V, A>)
    requires CV.Rectangular(ga, ncols) && n >= 1 && NGroups(ga) >= 1
    ensures PairsReady(Pairs(ga, None, n).value, CvMode(testSize, inputSize), ncols)
    ensures ParOutcome(Pairs(ga, None, n).value, h, CvMode(testSize, inputSize), level, ncols, show, e)
         == SeqOutcome(ga, h, CvMode(testSize, inputSize), None, level, ncols, show, e)
  {
    var ps := Pairs(ga, None, n).value;
    PairsReadyHold(ga, CvMode(testSize, inputSize), None, ncols, n);
    var name := ModelName(e, show);
    var f := e.fn.point;
    if CV.Windows(testSize, h) >= 0 {
      CV.CvOk(ga, h, testSize, f, inputSize, e.args, ncols);
    }
    CvParSide(ga, n, h, testSize, inputSize, ncols, e, name);
  }

  /** The parallel half of `CvOutcomeSame`. */
  lemma CvParSide<V, A>(ga: GroupedArray<seq<V>>, n: int, h: nat, testSize: int, inputSize: Option<int>,
                        ncols: nat, e: Entry<V, A>, name: string)
    requires CV.Rectangular(ga, ncols) && n >= 1 && NGroups(ga) >= 1
    ensures PairsReady(Pairs(ga, None, n).value, CvMode(testSize, inputSize), ncols)
    ensures var rs := CvChunks(Pairs(ga, None, n).value, h, testSize, inputSize, ncols, e);
      var f := e.fn.point;
      CvMerge(name, rs)
      == if CV.Windows(testSize, h) < 0 then Err(ValueError)
         else Ok(Outcome([(name, Lift(Flatten(Flatten(CV.PerGroupForecasts(ga, h, testSize, f, inputSize, e.args, ncols)))))],
                         Some(Lift(Flatten(Flatten(CV.PerGroupTargets(ga, h, testSize, ncols)))))))
  {
    PairsReadyHold(ga, CvMode(testSize, inputSize), None, ncols, n);
    if CV.Windows(testSize, h) < 0 {
      var ps := Pairs(ga, None, n).value;
      assert |ps| >= 1 by {
        SP.ChunkRangesFacts(NGroups(ga), n);
      }
      assert CvChunks(ps, h, testSize, inputSize, ncols, e)[0] == Err(ValueError);
    } else {
      CvParOk(ga, n, h, testSize, inputSize, ncols, e, name);
    }
  }

  lemma CvParOk<V, A>(ga: GroupedArray<seq<V>>, n: int, h: nat, testSize: int, inputSize: Option<int>,
                      ncols: nat, e: Entry<V, A>, name: string)
    requires CV.Rectangular(ga, ncols) && n >= 1 && NGroups(ga) >= 1 && CV.Windows(testSize, h) >= 0
    ensures PairsReady(Pairs(ga, None, n).value, CvMode(testSize, inputSize), ncols)
    ensures var rs := CvChunks(Pairs(ga, None, n).value, h, testSize, inputSize, ncols, e);
      var f := e.fn.point;
      CvMerge(name, rs)
      == Ok(Outcome([(name, Lift(Flatten(Flatten(CV.PerGroupForecasts(ga, h, testSize, f, inputSize, e.args, ncols)))))],
                    Some(Lift(Flatten(Flatten(CV.PerGroupTargets(ga, h, testSize, ncols)))))))
  {
    var f := e.fn.point;
    var rs := SP.ChunkRanges(NGroups(ga), n);
    var pf := CV.PerGroupForecasts(ga, h, testSize, f, inputSize, e.args, ncols);
    var pt := CV.PerGroupTargets(ga, h, testSize, ncols);
    var fs, ts := CvPieces(ga, n, h, testSize, inputSize, ncols, e);
    CvMergeOk(name, CvChunks(Pairs(ga, None, n).value, h, testSize, inputSize, ncols, e), fs, ts);
    PiecesJoinDeep(pf, rs, fs);
    PiecesJoinDeep(pt, rs, ts);
  }

  /** The chunk calls of a cv-mode model all succeed for a non-negative
      window count, chunk c with the windows of section c. */
  lemma CvPieces<V, A>(ga: GroupedArray<seq<V>>, n: int, h: nat, testSize: int, inputSize: Option<int>,
                       ncols: nat, e: Entry<V, A>)
    returns (fs: seq<seq<seq<seq<V>>>>, ts: seq<seq<seq<seq<V>>>>)
    requires CV.Rectangular(ga, ncols) && n >= 1 && NGroups(ga) >= 1 && CV.Windows(testSize, h) >= 0
    ensures PairsReady(Pairs(ga, None, n).value, CvMode(testSize, inputSize), ncols)
    ensures var ps := Pairs(ga, None, n).value;
      var rs := SP.ChunkRanges(NGroups(ga), n);
      var pf := CV.PerGroupForecasts(ga, h, testSize, e.fn.point, inputSize, e.args, ncols);
      var pt := CV.PerGroupTargets(ga, h, testSize, ncols);
      && SP.Tiles(rs, 0, NGroups(ga)) && |fs| == |ts| == |rs| == |ps| >= 1
      && (forall c :: 0 <= c < |rs| ==>
            0 <= rs[c].0 <= rs[c].1 <= NGroups(ga) && fs[c] == pf[rs[c].0..rs[c].1] && ts[c] == pt[rs[c].0..rs[c].1])
      && (forall c :: 0 <= c < |ps| ==>
            CvChunks(ps, h, testSize, inputSize, ncols, e)[c]
            == Ok((Lift(Flatten(Flatten(fs[c]))), Lift(Flatten(Flatten(ts[c]))))))
  {
    var ps := Pairs(ga, None, n).value;
    PairsReadyHold(ga, CvMode(testSize, inputSize), None, ncols, n);
    SP.ChunkRangesFacts(NGroups(ga), n);
    var f := e.fn.point;
    fs := seq(|ps|, c requires 0 <= c < |ps| => CV.PerGroupForecasts(ps[c].0, h, testSize, f, inputSize, e.args, ncols));
    ts := seq(|ps|, c requires 0 <= c < |ps| => CV.PerGroupTargets(ps[c].0, h, testSize, ncols));
    var rs := SP.ChunkRanges(NGroups(ga), n);
    var pf := CV.PerGroupForecasts(ga, h, testSize, f, inputSize, e.args, ncols);
    var pt := CV.PerGroupTargets(ga, h, testSize, ncols);
    forall c | 0 <= c < |ps|
      ensures fs[c] == pf[rs[c].0..rs[c].1] && ts[c] == pt[rs[c].0..rs[c].1]
      ensures CvChunks(ps, h, testSize, inputSize, ncols, e)[c]
              == Ok((Lift(Flatten(Flatten(fs[c]))), Lift(Flatten(Flatten(ts[c])))))
    {
      CvChunk(ga, n, h, testSize, f, inputSize, e.args, ncols, c);
      CV.CvOk(ps[c].0, h, testSize, f, inputSize, e.args, ncols);
    }
  }

  /** Merging successful cv chunk results lays both outputs end to end. */
  lemma CvMergeOk<V>(name: string, rs: seq<Result<(Column<V>, Column<V>)>>,
                     fs: seq<seq<seq<seq<V>>>>, ts: seq<seq<seq<seq<V>>>>)
    requires |rs| == |fs| == |ts| >= 1
    requires forall c :: 0 <= c < |rs| ==> rs[c] == Ok((Lift(Flatten(Flatten(fs[c]))), Lift(Flatten(Flatten(ts[c])))))
    ensures CvMerge(name, rs)
         == Ok(Outcome([(name, Flatten(seq(|fs|, c requires 0 <= c < |fs| => Lift(Flatten(Flatten(fs[c]))))))],
                       Some(Flatten(seq(|ts|, c requires 0 <= c < |ts| => Lift(Flatten(Flatten(ts[c]))))))))
  {
    assert seq(|rs|, c requires 0 <= c < |rs| => rs[c].value.0)
        == seq(|fs|, c requires 0 <= c < |fs| => Lift(Flatten(Flatten(fs[c]))));
    assert seq(|rs|, c requires 0 <= c < |rs| => rs[c].value.1)
        == seq(|ts|, c requires 0 <= c < |ts| => Lift(Flatten(Flatten(ts[c]))));
  }

  /** Every group's result names the same series in the same order. */
  ghost predicate UniformKeys<V>(outs: seq<Named<V>>)
  {
    forall i :: 0 <= i < |outs| ==> KeyList(outs[i]) == KeyList(outs[0])
  }

  /** A group with an exogenous block whose result has the keys `ks` raises
      exactly when there are more keys than columns. */
  lemma GroupErrorUniform<R, V>(xreg: Option<GroupedArray<R>>, outs: seq<Named<V>>, ks: seq<string>,
                                width: nat, i: nat)
    requires i < |outs| && XregHas(xreg, i) && KeyList(outs[i]) == ks
    ensures GroupError(xreg, outs, ks, width, i) == if |ks| <= width then None else Some(IndexError)
  {
    OwnKeysColumnError(outs[i], width);
  }

  /** Interval mode on a store whose groups all return the same keys: the
      full blocks under those keys, or IndexError when they outnumber the
      columns. */
  lemma IntervalUniform<R, A, V>(ga: GroupedArray<R>, h: nat, f: IntervalFn<R, A, V>,
                                 xreg: Option<GroupedArray<R>>, args: seq<A>, level: seq<int>)
    requires Valid(ga) && XregValid(xreg) && NGroups(ga) >= 1 && XregCovers(ga, xreg)
    requires UniformKeys(IntervalOutputs(ga, h, f, xreg, args, level))
    ensures var outs := IntervalOutputs(ga, h, f, xreg, args, level);
      var ks := KeyList(outs[0]);
      IntervalForecasts(ga, h, f, xreg, args, level)
      == if |ks| <= Width(level) then Ok((Flatten(FullBlocks(outs, ks, Width(level), h)), Some(ks)))
         else Err(IndexError)
  {
    var outs := IntervalOutputs(ga, h, f, xreg, args, level);
    var ks := KeyList(outs[0]);
    var width := Width(level);
    forall i | 0 <= i < |outs|
      ensures GroupError(xreg, outs, ks, width, i) == if |ks| <= width then None else Some(IndexError)
    {
      GroupErrorUniform(xreg, outs, ks, width, i);
    }
    FirstErrorNone(xreg, outs, ks, width, 0);
  }

  /** In interval mode chunk c calls the function on exactly the groups of
      its section, each with the exogenous block the whole store would pass. */
  lemma IntervalChunk<V, A>(ga: GroupedArray<seq<V>>, xreg: Option<GroupedArray<seq<V>>>, n: int, h: nat,
                            f: IntervalFn<seq<V>, A, V>, args: seq<A>, level: seq<int>, c: int)
    requires Valid(ga) && XregValid(xreg) && n >= 1
    requires xreg.Some? ==> NGroups(xreg.value) == NGroups(ga)
    requires 0 <= c < |Pairs(ga, xreg, n).value|
    ensures c < |SP.ChunkRanges(NGroups(ga), n)|
    ensures var p := Pairs(ga, xreg, n).value[c];
      var r := SP.ChunkRanges(NGroups(ga), n)[c];
      && 0 <= r.0 < r.1 <= NGroups(ga)
      && XregCovers(p.0, p.1) && NGroups(p.0) >= 1
      && IntervalOutputs(p.0, h, f, p.1, args, level) == IntervalOutputs(ga, h, f, xreg, args, level)[r.0..r.1]
  {
    var p := Pairs(ga, xreg, n).value[c];
    var r := SP.ChunkRanges(NGroups(ga), n)[c];
    PairAt(ga, xreg, n, c);
    IntervalSection(ga, xreg, p.0, p.1, r.0, r.1, h, f, args, level);
  }

  /** The interval outputs of a section of a store, each group with the
      block the whole store would pass. */
  lemma IntervalSection<V, A>(ga: GroupedArray<seq<V>>, xreg: Option<GroupedArray<seq<V>>>,
                              sub: GroupedArray<seq<V>>, subx: Option<GroupedArray<seq<V>>>, lo: nat, hi: nat,
                              h: nat, f: IntervalFn<seq<V>, A, V>, args: seq<A>, level: seq<int>)
    requires SectionOf(ga, xreg, sub, subx, lo, hi)
    ensures IntervalOutputs(sub, h, f, subx, args, level) == IntervalOutputs(ga, h, f, xreg, args, level)[lo..hi]
  {
    var lhs := IntervalOutputs(sub, h, f, subx, args, level);
    var rhs := IntervalOutputs(ga, h, f, xreg, args, level)[lo..hi];
    forall k | 0 <= k < |lhs| ensures lhs[k] == rhs[k] {
      assert Group(sub, k) == Group(ga, lo + k);
      assert Xr(subx, k) == Xr(xreg, lo + k);
    }
  }

  /** A section of a store with uniform keys has uniform keys, the same ones. */
  lemma UniformSlice<V>(outs: seq<Named<V>>, lo: nat, hi: nat)
    requires UniformKeys(outs) && lo < hi <= |outs|
    ensures UniformKeys(outs[lo..hi]) && KeyList(outs[lo..hi][0]) == KeyList(outs[0])
  {
    var sub := outs[lo..hi];
    forall k | 0 <= k < |sub| ensures KeyList(sub[k]) == KeyList(sub[0]) {
      assert sub[k] == outs[lo + k];
    }
  }

  /** One interval-mode chunk call under uniform keys: the full blocks of its
      section under the store's keys, or IndexError. */
  lemma IntervalChunkResult<V, A>(ga: GroupedArray<seq<V>>, xreg: Option<GroupedArray<seq<V>>>, n: int, h: nat,
                                  level: Option<seq<int>>, e: Entry<V, A>, c: int)
    requires Valid(ga) && XregValid(xreg) && n >= 1
    requires xreg.Some? ==> NGroups(xreg.value) == NGroups(ga)
    requires HasLevel(e.fn, level)
    requires UniformKeys(IntervalOutputs(ga, h, e.fn.interval, xreg, e.args, level.value))
    requires 0 <= c < |Pairs(ga, xreg, n).value|
    ensures c < |SP.ChunkRanges(NGroups(ga), n)|
    ensures var r := SP.ChunkRanges(NGroups(ga), n)[c];
      var outs := IntervalOutputs(ga, h, e.fn.interval, xreg, e.args, level.value);
      var ks := KeyList(outs[0]);
      var width := Width(level.value);
      && 0 <= r.0 < r.1 <= NGroups(ga)
      && ForecastChunks(Pairs(ga, xreg, n).value, h, e, level)[c]
         == if |ks| <= width then Ok((Table(Flatten(FullBlocks(outs, ks, width, h)[r.0..r.1])), Some(ks)))
            else Err(IndexError)
  {
    var f := e.fn.interval;
    var ps := Pairs(ga, xreg, n).value;
    var r := SP.ChunkRanges(NGroups(ga), n)[c];
    var outs := IntervalOutputs(ga, h, f, xreg, e.args, level.value);
    IntervalChunk(ga, xreg, n, h, f, e.args, level.value, c);
    UniformSlice(outs, r.0, r.1);
    UniformForecasts(ps[c].0, h, e, ps[c].1, level);
    FullBlocksSlice(outs, KeyList(outs[0]), Width(level.value), h, r.0, r.1);
    assert ForecastChunks(ps, h, e, level)[c] == Forecasts(ps[c].0, h, e.fn, ps[c].1, level, e.args);
  }

  /** `compute_forecasts` in interval mode on a store with uniform keys. */
  lemma UniformForecasts<V, A>(ga: GroupedArray<seq<V>>, h: nat, e: Entry<V, A>,
                               xreg: Option<GroupedArray<seq<V>>>, level: Option<seq<int>>)
    requires Valid(ga) && XregValid(xreg) && NGroups(ga) >= 1 && XregCovers(ga, xreg)
    requires HasLevel(e.fn, level)
    requires UniformKeys(IntervalOutputs(ga, h, e.fn.interval, xreg, e.args, level.value))
    ensures var outs := IntervalOutputs(ga, h, e.fn.interval, xreg, e.args, level.value);
      var ks := KeyList(outs[0]);
      var width := Width(level.value);
      Forecasts(ga, h, e.fn, xreg, level, e.args)
      == if |ks| <= width then Ok((Table(Flatten(FullBlocks(outs, ks, width, h))), Some(ks))) else Err(IndexError)
  {
    IntervalUniform(ga, h, e.fn.interval, xreg, e.args, level.value);
  }

  lemma FullBlocksSlice<V>(outs: seq<Named<V>>, ks: seq<string>, width: nat, h: nat, lo: nat, hi: nat)
    requires lo <= hi <= |outs|
    ensures FullBlocks(outs[lo..hi], ks, width, h) == FullBlocks(outs, ks, width, h)[lo..hi]
  {
  }

  /** The chunk calls of an interval-mode model: with uniform keys every
      chunk returns the keys of the whole store and the full blocks of its
      section, or every chunk raises IndexError. */
  lemma IntervalPieces<V, A>(ga: GroupedArray<seq<V>>, xreg: Option<GroupedArray<seq<V>>>, n: int, h: nat,
                             level: Option<seq<int>>, e: Entry<V, A>)
    returns (blocks: seq<seq<seq<seq<Option<V>>>>>)
    requires Valid(ga) && XregValid(xreg) && n >= 1 && NGroups(ga) >= 1
    requires xreg.Some? ==> NGroups(xreg.value) == NGroups(ga)
    requires HasLevel(e.fn, level)
    requires UniformKeys(IntervalOutputs(ga, h, e.fn.interval, xreg, e.args, level.value))
    ensures var ps := Pairs(ga, xreg, n).value;
      var rs := SP.ChunkRanges(NGroups(ga), n);
      var outs := IntervalOutputs(ga, h, e.fn.interval, xreg, e.args, level.value);
      var ks := KeyList(outs[0]);
      var width := Width(level.value);
      && SP.Tiles(rs, 0, NGroups(ga)) && |blocks| == |rs| == |ps| >= 1
      && (forall c :: 0 <= c < |rs| ==>
            0 <= rs[c].0 <= rs[c].1 <= NGroups(ga)
            && blocks[c] == FullBlocks(outs, ks, width, h)[rs[c].0..rs[c].1])
      && (forall c :: 0 <= c < |ps| ==>
            ForecastChunks(ps, h, e, level)[c]
            == if |ks| <= width then Ok((Table(Flatten(blocks[c])), Some(ks))) else Err(IndexError))
  {
    var ps := Pairs(ga, xreg, n).value;
    var rs := SP.ChunkRanges(NGroups(ga), n);
    SP.ChunkRangesFacts(NGroups(ga), n);
    var outs := IntervalOutputs(ga, h, e.fn.interval, xreg, e.args, level.value);
    var ks := KeyList(outs[0]);
    var width := Width(level.value);
    var full := FullBlocks(outs, ks, width, h);
    blocks := seq(|ps|, c requires 0 <= c < |ps| => full[rs[c].0..rs[c].1]);
    forall c | 0 <= c < |ps|
      ensures ForecastChunks(ps, h, e, level)[c]
              == if |ks| <= width then Ok((Table(Flatten(blocks[c])), Some(ks))) else Err(IndexError)
    {
      IntervalChunkResult(ga, xreg, n, h, level, e, c);
    }
  }

  /** Merging table chunk results that share their keys stacks their rows. */
  lemma TableMerge<V>(name: string, rs: seq<Result<(Buffer<V>, Option<seq<string>>)>>,
                      blocks: seq<seq<seq<seq<Option<V>>>>>, ks: seq<string>)
    requires |rs| == |blocks| >= 1
    requires forall c :: 0 <= c < |rs| ==> rs[c] == Ok((Table(Flatten(blocks[c])), Some(ks)))
    ensures ForecastMerge(name, rs) == Ok(Outcome(KeyColumns(name, Flatten(Flatten(blocks)), ks), None))
  {
    var vals := seq(|rs|, c requires 0 <= c < |rs| => rs[c].value.0);
    assert seq(|vals|, c requires 0 <= c < |vals| => Stack(vals[c]))
        == seq(|blocks|, c requires 0 <= c < |blocks| => Flatten(blocks[c]));
    FlattenFlatten(blocks);
  }

  /** Interval mode: when every group returns the same keys in the same
      order, one model over the chunks stores the columns it stores over the
      whole store. */
  lemma IntervalOutcomeSame<V, A>(ga: GroupedArray<seq<V>>, xreg: Option<GroupedArray<seq<V>>>, n: int, h: nat,
                                  level: Option<seq<int>>, ncols: nat, show: A -> string, e: Entry<V, A>)
    requires Valid(ga) && XregValid(xreg) && n >= 1 && NGroups(ga) >= 1
    requires xreg.Some? ==> NGroups(xreg.value) == NGroups(ga)
    requires HasLevel(e.fn, level)
    requires UniformKeys(IntervalOutputs(ga, h, e.fn.interval, xreg, e.args, level.value))
    ensures PairsReady(Pairs(ga, xreg, n).value, ForecastMode, ncols)
    ensures ParOutcome(Pairs(ga, xreg, n).value, h, ForecastMode, level, ncols, show, e)
         == SeqOutcome(ga, h, ForecastMode, xreg, level, ncols, show, e)
  {
    var outs := IntervalOutputs(ga, h, e.fn.interval, xreg, e.args, level.value);
    var ks := KeyList(outs[0]);
    var full := FullBlocks(outs, ks, Width(level.value), h);
    var want := if |ks| <= Width(level.value) then Ok(Outcome(KeyColumns(ModelName(e, show), Flatten(full), ks), None))
                else Err(IndexError);
    assert SeqOutcome(ga, h, ForecastMode, xreg, level, ncols, show, e) == want by {
      IntervalUniform(ga, h, e.fn.interval, xreg, e.args, level.value);
    }
    IntervalParSide(ga, xreg, n, h, level, e, ModelName(e, show));
  }

  /** The parallel half of `IntervalOutcomeSame`. */
  lemma IntervalParSide<V, A>(ga: GroupedArray<seq<V>>, xreg: Option<GroupedArray<seq<V>>>, n: int, h: nat,
                              level: Option<seq<int>>, e: Entry<V, A>, name: string)
    requires Valid(ga) && XregValid(xreg) && n >= 1 && NGroups(ga) >= 1
    requires xreg.Some? ==> NGroups(xreg.value) == NGroups(ga)
    requires HasLevel(e.fn, level)
    requires UniformKeys(IntervalOutputs(ga, h, e.fn.interval, xreg, e.args, level.value))
    ensures var outs := IntervalOutputs(ga, h, e.fn.interval, xreg, e.args, level.value);
      var ks := KeyList(outs[0]);
      var width := Width(level.value);
      ForecastMerge(name, ForecastChunks(Pairs(ga, xreg, n).value, h, e, level))
      == if |ks| <= width then Ok(Outcome(KeyColumns(name, Flatten(FullBlocks(outs, ks, width, h)), ks), None))
         else Err(IndexError)
  {
    var ps := Pairs(ga, xreg, n).value;
    var outs := IntervalOutputs(ga, h, e.fn.interval, xreg, e.args, level.value);
    var ks := KeyList(outs[0]);
    if |ks| <= Width(level.value) {
      IntervalParFits(ga, xreg, n, h, level, e, name);
    } else {
      var blocks := IntervalPieces(ga, xreg, n, h, level, e);
      assert ForecastChunks(ps, h, e, level)[0] == Err(IndexError);
    }
  }

  /** The same when the keys fit the buffer's columns. */
  lemma IntervalParFits<V, A>(ga: GroupedArray<seq<V>>, xreg: Option<GroupedArray<seq<V>>>, n: int, h: nat,
                              level: Option<seq<int>>, e: Entry<V, A>, name: string)
    requires Valid(ga) && XregValid(xreg) && n >= 1 && NGroups(ga) >= 1
    requires xreg.Some? ==> NGroups(xreg.value) == NGroups(ga)
    requires HasLevel(e.fn, level)
    requires UniformKeys(IntervalOutputs(ga, h, e.fn.interval, xreg, e.args, level.value))
    requires |KeyList(IntervalOutputs(ga, h, e.fn.interval, xreg, e.args, level.value)[0])| <= Width(level.value)
    ensures var outs := IntervalOutputs(ga, h, e.fn.interval, xreg, e.args, level.value);
      var ks := KeyList(outs[0]);
      ForecastMerge(name, ForecastChunks(Pairs(ga, xreg, n).value, h, e, level))
      == Ok(Outcome(KeyColumns(name, Flatten(FullBlocks(outs, ks, Width(level.value), h)), ks), None))
  {
    var ps := Pairs(ga, xreg, n).value;
    var outs := IntervalOutputs(ga, h, e.fn.interval, xreg, e.args, level.value);
    var ks := KeyList(outs[0]);
    var width := Width(level.value);
    var blocks := IntervalPieces(ga, xreg, n, h, level, e);
    TiledTableMerge(name, ForecastChunks(ps, h, e, level), blocks, ks, FullBlocks(outs, ks, width, h),
                    SP.ChunkRanges(NGroups(ga), n));
  }

  /** Merging table chunk results cut from one tiled sequence of blocks
      gives the columns of the whole sequence. */
  lemma TiledTableMerge<V>(name: string, rs: seq<Result<(Buffer<V>, Option<seq<string>>)>>,
                           blocks: seq<seq<seq<seq<Option<V>>>>>, ks: seq<string>,
                           full: seq<seq<seq<Option<V>>>>, ranges: seq<(int, int)>)
    requires |rs| == |blocks| == |ranges| >= 1 && SP.Tiles(ranges, 0, |full|)
    requires forall c :: 0 <= c < |ranges| ==>
      0 <= ranges[c].0 <= ranges[c].1 <= |full| && blocks[c] == full[ranges[c].0..ranges[c].1]
    requires forall c :: 0 <= c < |rs| ==> rs[c] == Ok((Table(Flatten(blocks[c])), Some(ks)))
    ensures ForecastMerge(name, rs) == Ok(Outcome(KeyColumns(name, Flatten(full), ks), None))
  {
    TableMerge(name, rs, blocks, ks);
    PiecesTile(full, ranges, blocks);
  }

  /** Split, run every chunk, concatenate in chunk order: the same dict as
      running every model over the whole store, in point mode (with an
      exogenous store of as many groups; in interval mode when every group
      returns the same keys in the same order) and in cv mode, for any
      worker count and any non-empty store. */
  lemma ParallelIsSequential<V, A>(ga: GroupedArray<seq<V>>, h: nat, mode: Mode,
                                       xreg: Option<GroupedArray<seq<V>>>, level: Option<seq<int>>, ncols: nat,
                                       show: A -> string, asModel: A -> Option<Callable<seq<V>, A, V>>,
                                       models: seq<Names.PyValue<A>>, n: int)
    requires Ready(ga, mode, xreg, ncols) && n >= 1 && NGroups(ga) >= 1
    requires mode.ForecastMode? ==> forall m :: 0 <= m < |models| && ToEntry(models[m], asModel).Ok? ==>
      var e := ToEntry(models[m], asModel).value;
      HasLevel(e.fn, level) ==> UniformKeys(IntervalOutputs(ga, h, e.fn.interval, xreg, e.args, level.value))
    requires mode.ForecastMode? && xreg.Some? ==> NGroups(xreg.value) == NGroups(ga)
    requires mode.CvMode? ==> xreg.None?
    ensures Parallel(ga, h, mode, xreg, level, ncols, show, asModel, models, n)
         == Sequential(ga, h, mode, xreg, level, ncols, show, asModel, models)
  {
    var ps := Pairs(ga, xreg, n).value;
    PairsReadyHold(ga, mode, xreg, ncols, n);
    var po := ParOutcomes(ps, h, mode, level, ncols, show, asModel, models);
    var so := SeqOutcomes(ga, h, mode, xreg, level, ncols, show, asModel, models);
    forall m | 0 <= m < |models| ensures po[m] == so[m] {
      var e := ToEntry(models[m], asModel);
      if e.Err? {
      } else if mode.ForecastMode? && HasLevel(e.value.fn, level) {
        IntervalOutcomeSame(ga, xreg, n, h, level, ncols, show, e.value);
      } else if mode.ForecastMode? {
        PointOutcomeSame(ga, xreg, n, h, level, ncols, show, e.value);
      } else {
        CvOutcomeSame(ga, n, h, mode.testSize, mode.inputSize, level, ncols, show, e.value);
      }
    }
    assert po == so;
  }

  /** An empty tuple in `models` makes `_sequential` raise ValueError
      when every entry before it runs. */
  lemma EmptyTupleRaises<V, A>(ga: GroupedArray<seq<V>>, h: nat, mode: Mode,
                               xreg: Option<GroupedArray<seq<V>>>, level: Option<seq<int>>, ncols: nat,
                               show: A -> string, asModel: A -> Option<Callable<seq<V>, A, V>>,
                               models: seq<Names.PyValue<A>>, m: nat)
    requires Ready(ga, mode, xreg, ncols)
    requires m < |models| && models[m] == Names.Tuple([])
    requires forall k :: 0 <= k < m ==> SeqOutcomes(ga, h, mode, xreg, level, ncols, show, asModel, models)[k].Ok?
    ensures Sequential(ga, h, mode, xreg, level, ncols, show, asModel, models) == Err(ValueError)
  {
    var outs := SeqOutcomes(ga, h, mode, xreg, level, ncols, show, asModel, models);
    assert outs[m] == Err(ValueError);
    var f := FirstFailure(outs);
    assert f.Some?;
    var c :| 0 <= c < |outs| && outs[c] == Err(f.value) && forall d :: 0 <= d < c ==> outs[d].Ok?;
    assert c == m;
    RunOutcome(State([], None), outs);
  }

  /** Any worker count below one makes `split` raise ValueError. */
  lemma ParallelNoWorkers<V, A>(ga: GroupedArray<seq<V>>, h: nat, mode: Mode,
                                    xreg: Option<GroupedArray<seq<V>>>, level: Option<seq<int>>, ncols: nat,
                                    show: A -> string, asModel: A -> Option<Callable<seq<V>, A, V>>,
                                    models: seq<Names.PyValue<A>>, n: int)
    requires Ready(ga, mode, xreg, ncols) && n <= 0
    ensures Parallel(ga, h, mode, xreg, level, ncols, show, asModel, models, n) == Err(ValueError)
  {
  }
}
