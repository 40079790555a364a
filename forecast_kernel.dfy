/** `GroupedArray.compute_forecasts`: call the forecasting function once
    per group, in store order, and write its horizon-long result into the
    rows [h*i, h*(i+1)) of a dense buffer; in interval mode the buffer has
    2*len(level)+1 columns, filled in the key order of the first group's
    result. */
module ForecastKernel {
  import opened Wrappers
  import opened Seqs
  import opened Grouped
  import opened Models

  ghost predicate XregValid<R>(xreg: Option<GroupedArray<R>>)
  {
    xreg.Some? ==> Valid(xreg.value)
  }

  /** `xreg[i]` succeeds (or there is no xreg). */
  predicate XregHas<R>(xreg: Option<GroupedArray<R>>, i: int)
  {
    xreg.None? || (0 <= i < NGroups(xreg.value))
  }

  /** The exogenous block passed for group i (None also where `xreg[i]`
      would raise; the kernel never calls with such an i). */
  function Xr<R>(xreg: Option<GroupedArray<R>>, i: int): Option<seq<R>>
    requires XregValid(xreg)
  {
    if xreg.Some? && 0 <= i < NGroups(xreg.value) then Some(Group(xreg.value, i)) else None
  }

  /** Every group has an exogenous block. */
  predicate XregCovers<R>(ga: GroupedArray<R>, xreg: Option<GroupedArray<R>>)
  {
    xreg.None? || NGroups(xreg.value) >= NGroups(ga)
  }

  /** The per-group point forecasts, in group order. */
  function PointOutputs<R, A, V>(ga: GroupedArray<R>, h: nat, f: PointFn<R, A, V>,
                                 xreg: Option<GroupedArray<R>>, args: seq<A>): (outs: seq<seq<V>>)
    requires Valid(ga) && XregValid(xreg)
    ensures |outs| == NGroups(ga)
  {
    seq(NGroups(ga), i requires 0 <= i < NGroups(ga) => f(Group(ga, i), h, Xr(xreg, i), args))
  }

  /** The forecasting function keeps its calling contract: a series of
      length h for every group. */
  ghost predicate PointContract<R, A, V>(ga: GroupedArray<R>, h: nat, f: PointFn<R, A, V>,
                                         xreg: Option<GroupedArray<R>>, args: seq<A>)
    requires Valid(ga) && XregValid(xreg)
  {
    forall i :: 0 <= i < NGroups(ga) ==> |PointOutputs(ga, h, f, xreg, args)[i]| == h
  }

  /** Point-mode result: the groups' forecasts back to back, or the
      IndexError `xreg[i]` raises for the first group without exogenous rows. */
  function PointForecasts<R, A, V>(ga: GroupedArray<R>, h: nat, f: PointFn<R, A, V>,
                                   xreg: Option<GroupedArray<R>>, args: seq<A>): Result<seq<Option<V>>>
    requires Valid(ga) && XregValid(xreg)
  {
    if !XregCovers(ga, xreg) then Err(IndexError)
    else Ok(Lift(Flatten(PointOutputs(ga, h, f, xreg, args))))
  }

  /** The point-mode loop over groups: group i's forecast goes to the rows
      [h*i, h*(i+1)) of a buffer of h * n_groups rows, and a group without
      exogenous rows stops the loop with the IndexError of `xreg[i]`. */
  method ComputePointForecasts<R, A, V>(ga: GroupedArray<R>, h: nat, f: PointFn<R, A, V>,
                                        xreg: Option<GroupedArray<R>>, args: seq<A>)
    returns (r: Result<seq<Option<V>>>)
    requires Valid(ga) && XregValid(xreg)
    requires PointContract(ga, h, f, xreg, args)
    ensures r == PointForecasts(ga, h, f, xreg, args)
  {
    var n := NGroups(ga);
    ghost var outs := PointOutputs(ga, h, f, xreg, args);
    ghost var total := |Flatten(outs)|;
    FlattenUniform(outs, h);
    var out := new Option<V>[h * n](_ => None);
    var pos := 0;
    for i := 0 to n
      invariant pos == |Flatten(outs[..i])| <= total == out.Length
      invariant out[..] == Lift(Flatten(outs[..i])) + Nones(total - pos)
      invariant xreg.Some? ==> i <= NGroups(xreg.value)
    {
      var ok := PointGroup(out, ga, h, f, xreg, args, i, pos, outs);
      if !ok {
        return Err(IndexError);
      }
      pos := pos + h;
    }
    assert outs[..n] == outs;
    assert Nones<V>(total - pos) == [];
    assert out[..] == Lift(Flatten(outs));
    r := Ok(out[..]);
  }

  /** One pass of the point-mode loop: fetch `xreg[i]`, call the function
      and write its forecast after those of groups 0 .. i-1. */
  method PointGroup<R, A, V>(out: array<Option<V>>, ga: GroupedArray<R>, h: nat, f: PointFn<R, A, V>,
                             xreg: Option<GroupedArray<R>>, args: seq<A>, i: nat, pos: nat,
                             ghost outs: seq<seq<V>>)
    returns (ok: bool)
    requires Valid(ga) && XregValid(xreg) && i < NGroups(ga)
    requires outs == PointOutputs(ga, h, f, xreg, args) && PointContract(ga, h, f, xreg, args)
    requires pos == |Flatten(outs[..i])| <= |Flatten(outs)| == out.Length
    requires out[..] == Lift(Flatten(outs[..i])) + Nones(|Flatten(outs)| - pos)
    modifies out
    ensures ok <==> XregHas(xreg, i)
    ensures ok ==> pos + h == |Flatten(outs[..i + 1])| <= |Flatten(outs)|
    ensures ok ==> out[..] == Lift(Flatten(outs[..i + 1])) + Nones(|Flatten(outs)| - (pos + h))
  {
    var got := FetchXreg(xreg, i);
    if got.Err? {
      return false;
    }
    var res := f(Group(ga, i), h, got.value, args);
    assert res == outs[i];
    ghost var buf := out[..];
    BlockStep(outs, i, pos, buf);
    WriteRun(out, pos, Lift(res));
    assert out[..] == buf[..pos] + Lift(outs[i]) + buf[pos + |outs[i]|..];
    return true;
  }

  /** The elements `a[k, c]` of a 2-D buffer as rows. */
  function Rows<T>(a: array2<T>): (rows: seq<seq<T>>)
    reads a
    ensures |rows| == a.Length0
    ensures forall r :: 0 <= r < a.Length0 ==> |rows[r]| == a.Length1
  {
    seq(a.Length0, r requires 0 <= r < a.Length0 reads a =>
      seq(a.Length1, c requires 0 <= c < a.Length1 reads a => a[r, c]))
  }

  /** `m` unwritten rows of `width` columns. */
  function Blank<V>(m: nat, width: nat): (rows: seq<seq<Option<V>>>)
    ensures |rows| == m
  {
    seq(m, _ => seq(width, _ => None))
  }

  /** `rows[:, j] = vals`. */
  function SetCol<V>(rows: seq<seq<Option<V>>>, j: nat, vals: seq<V>): (r: seq<seq<Option<V>>>)
    ensures |r| == |rows|
  {
    seq(|rows|, t requires 0 <= t < |rows| =>
      if t < |vals| && j < |rows[t]| then rows[t][j := Some(vals[t])] else rows[t])
  }

  /** The buffer's number of columns: the mean and both bounds of every level. */
  function Width(level: seq<int>): nat
  {
    2 * |level| + 1
  }

  /** The per-group interval-mode results, in group order. */
  function IntervalOutputs<R, A, V>(ga: GroupedArray<R>, h: nat, f: IntervalFn<R, A, V>,
                                    xreg: Option<GroupedArray<R>>, args: seq<A>, level: seq<int>)
    : (outs: seq<Named<V>>)
    requires Valid(ga) && XregValid(xreg)
    ensures |outs| == NGroups(ga)
  {
    seq(NGroups(ga), i requires 0 <= i < NGroups(ga) => f(Group(ga, i), h, Xr(xreg, i), args, level))
  }

  /** The column names: the keys of the first group's result, if any. */
  function FirstKeys<V>(outs: seq<Named<V>>): seq<string>
  {
    if outs == [] then [] else KeyList(outs[0])
  }

  /** The forecasting function keeps its calling contract: every series it
      names is h long. */
  ghost predicate IntervalContract<V>(outs: seq<Named<V>>, h: nat)
  {
    forall i, kv :: 0 <= i < |outs| && kv in outs[i] ==> |kv.1| == h
  }

  /** What writing the columns `ks[j..]` of one result raises: KeyError for
      a key the result lacks, IndexError for a column past the buffer,
      whichever the first offending key meets first. */
  function ColumnError<V>(res: Named<V>, ks: seq<string>, width: nat, j: nat): Option<Error>
    decreases |ks| - j
  {
    if j >= |ks| then None
    else if Lookup(res, ks[j]).None? then Some(KeyError)
    else if j >= width then Some(IndexError)
    else ColumnError(res, ks, width, j + 1)
  }

  /** What group i raises: `xreg[i]` first, then the column writes. */
  function GroupError<R, V>(xreg: Option<GroupedArray<R>>, outs: seq<Named<V>>, ks: seq<string>,
                            width: nat, i: nat): Option<Error>
    requires i < |outs|
  {
    if !XregHas(xreg, i) then Some(IndexError) else ColumnError(outs[i], ks, width, 0)
  }

  /** The error of the first group from k on that raises one. */
  function FirstError<R, V>(xreg: Option<GroupedArray<R>>, outs: seq<Named<V>>, ks: seq<string>,
                            width: nat, k: nat): Option<Error>
    decreases |outs| - k
  {
    if k >= |outs| then None
    else if GroupError(xreg, outs, ks, width, k).Some? then GroupError(xreg, outs, ks, width, k)
    else FirstError(xreg, outs, ks, width, k + 1)
  }

  /** Cell (t, c) of a group's block once the columns before j are written. */
  function Cell<V>(res: Named<V>, ks: seq<string>, j: nat, t: nat, c: nat): Option<V>
  {
    if c < j && c < |ks| && Lookup(res, ks[c]).Some? && t < |Lookup(res, ks[c]).value|
    then Some(Lookup(res, ks[c]).value[t])
    else None
  }

  /** A group's h rows once the columns before j are written. */
  function Block<V>(res: Named<V>, ks: seq<string>, width: nat, h: nat, j: nat): (rows: seq<seq<Option<V>>>)
    ensures |rows| == h
  {
    seq(h, t requires 0 <= t < h => seq(width, c requires 0 <= c < width => Cell(res, ks, j, t, c)))
  }

  /** Every group's block with all of its columns written. */
  function FullBlocks<V>(outs: seq<Named<V>>, ks: seq<string>, width: nat, h: nat)
    : (blocks: seq<seq<seq<Option<V>>>>)
    ensures |blocks| == |outs|
  {
    seq(|outs|, i requires 0 <= i < |outs| => Block(outs[i], ks, width, h, |ks|))
  }

  /** Interval-mode result: the buffer and the column names, or the first
      error raised. */
  function IntervalForecasts<R, A, V>(ga: GroupedArray<R>, h: nat, f: IntervalFn<R, A, V>,
                                      xreg: Option<GroupedArray<R>>, args: seq<A>, level: seq<int>)
    : Result<(seq<seq<Option<V>>>, Option<seq<string>>)>
    requires Valid(ga) && XregValid(xreg)
  {
    var outs := IntervalOutputs(ga, h, f, xreg, args, level);
    var ks := FirstKeys(outs);
    var err := FirstError(xreg, outs, ks, Width(level), 0);
    if err.Some? then Err(err.value)
    else Ok((Flatten(FullBlocks(outs, ks, Width(level), h)), if outs == [] then None else Some(ks)))
  }

  /** `out[pos : pos + len(vals), j] = vals`. */
  method WriteColumn<V>(out: array2<Option<V>>, pos: nat, j: nat, vals: seq<V>)
    requires pos + |vals| <= out.Length0 && j < out.Length1
    modifies out
    ensures Rows(out) == old(Rows(out))[..pos] + SetCol(old(Rows(out))[pos..pos + |vals|], j, vals)
                         + old(Rows(out))[pos + |vals|..]
  {
    for t := 0 to |vals|
      invariant forall r, c :: 0 <= r < out.Length0 && 0 <= c < out.Length1 ==>
        out[r, c] == if pos <= r < pos + t && c == j then Some(vals[r - pos]) else old(out[r, c])
    {
      out[pos + t, j] := Some(vals[t]);
    }
    ghost var want := old(Rows(out))[..pos] + SetCol(old(Rows(out))[pos..pos + |vals|], j, vals)
                      + old(Rows(out))[pos + |vals|..];
    forall r | 0 <= r < out.Length0
      ensures Rows(out)[r] == want[r]
    {
      if pos <= r < pos + |vals| {
        assert want[r] == old(Rows(out))[r][j := Some(vals[r - pos])];
      } else {
        assert want[r] == old(Rows(out))[r];
      }
    }
  }

  /** Writing column j of a result into a block whose earlier columns are
      written yields the block with column j written too. */
  lemma ColumnStep<V>(res: Named<V>, ks: seq<string>, width: nat, h: nat, j: nat)
    requires j < |ks| && j < width
    requires Lookup(res, ks[j]).Some? && |Lookup(res, ks[j]).value| == h
    ensures SetCol(Block(res, ks, width, h, j), j, Lookup(res, ks[j]).value) == Block(res, ks, width, h, j + 1)
  {
    var vals := Lookup(res, ks[j]).value;
    var a := SetCol(Block(res, ks, width, h, j), j, vals);
    var b := Block(res, ks, width, h, j + 1);
    forall t | 0 <= t < h
      ensures a[t] == b[t]
    {
      assert a[t] == Block(res, ks, width, h, j)[t][j := Some(vals[t])];
    }
  }

  /** The column loop for one group's result: writes the columns named by
      `ks` into the rows [pos, pos + h), or stops with KeyError / IndexError. */
  method WriteGroup<V>(out: array2<Option<V>>, pos: nat, res: Named<V>, ks: seq<string>, h: nat)
    returns (err: Option<Error>)
    requires pos + h <= out.Length0
    requires forall kv :: kv in res ==> |kv.1| == h
    requires Rows(out)[pos..pos + h] == Block(res, ks, out.Length1, h, 0)
    modifies out
    ensures err == ColumnError(res, ks, out.Length1, 0)
    ensures err.None? ==>
      Rows(out) == old(Rows(out))[..pos] + Block(res, ks, out.Length1, h, |ks|) + old(Rows(out))[pos + h..]
  {
    ghost var before := Rows(out);
    assert before == before[..pos] + before[pos..pos + h] + before[pos + h..];
    for j := 0 to |ks|
      invariant ColumnError(res, ks, out.Length1, 0) == ColumnError(res, ks, out.Length1, j)
      invariant Rows(out) == before[..pos] + Block(res, ks, out.Length1, h, j) + before[pos + h..]
    {
      var col := Lookup(res, ks[j]);
      if col.None? {
        return Some(KeyError);
      }
      if j >= out.Length1 {
        return Some(IndexError);
      }
      LookupKeys(res, ks[j]);
      ColumnStep(res, ks, out.Length1, h, j);
      SpliceParts(before[..pos], Block(res, ks, out.Length1, h, j), before[pos + h..]);
      WriteColumn(out, pos, j, col.value);
    }
    return None;
  }

  /** The three parts of a splice read back by slicing. */
  lemma SpliceParts<T>(pre: seq<T>, mid: seq<T>, post: seq<T>)
    ensures (pre + mid + post)[..|pre|] == pre
    ensures (pre + mid + post)[|pre|..|pre| + |mid|] == mid
    ensures (pre + mid + post)[|pre| + |mid|..] == post
  {
  }

  /** A block with no column written is blank. */
  lemma BlockEmpty<V>(res: Named<V>, ks: seq<string>, width: nat, h: nat)
    ensures Block(res, ks, width, h, 0) == Blank(h, width)
  {
    forall t | 0 <= t < h
      ensures Block(res, ks, width, h, 0)[t] == Blank<V>(h, width)[t]
    {
      assert Block(res, ks, width, h, 0)[t] == seq(width, _ => None);
    }
  }

  /** The buffer holds blocks 0 .. i-1 in its first `pos` rows and blank
      rows after them. */
  ghost predicate Filled<V>(rows: seq<seq<Option<V>>>, blocks: seq<seq<seq<Option<V>>>>, i: nat, pos: nat,
                            width: nat)
  {
    i <= |blocks| && pos == |Flatten(blocks[..i])| <= |Flatten(blocks)|
    && rows == Flatten(blocks[..i]) + Blank(|Flatten(blocks)| - pos, width)
  }

  /** Before any block, the blank buffer; after the last, the whole layout. */
  lemma FilledNone<V>(blocks: seq<seq<seq<Option<V>>>>, width: nat)
    ensures Filled(Blank(|Flatten(blocks)|, width), blocks, 0, 0, width)
  {
    assert blocks[..0] == [];
  }

  lemma FilledAll<V>(rows: seq<seq<Option<V>>>, blocks: seq<seq<seq<Option<V>>>>, pos: nat, width: nat)
    requires Filled(rows, blocks, |blocks|, pos, width)
    ensures rows == Flatten(blocks)
  {
    assert blocks[..|blocks|] == blocks;
    assert Blank<V>(|Flatten(blocks)| - pos, width) == [];
  }

  /** Writing block i after the first i blocks leaves the first i + 1 done. */
  lemma RowsStep<V>(blocks: seq<seq<seq<Option<V>>>>, i: nat, pos: nat, width: nat,
                    buf: seq<seq<Option<V>>>)
    requires i < |blocks| && pos == |Flatten(blocks[..i])| <= |Flatten(blocks)|
    requires buf == Flatten(blocks[..i]) + Blank(|Flatten(blocks)| - pos, width)
    ensures |Flatten(blocks[..i + 1])| == pos + |blocks[i]| <= |Flatten(blocks)| == |buf|
    ensures buf[pos..pos + |blocks[i]|] == Blank(|blocks[i]|, width)
    ensures buf[..pos] + blocks[i] + buf[pos + |blocks[i]|..]
            == Flatten(blocks[..i + 1]) + Blank(|Flatten(blocks)| - (pos + |blocks[i]|), width)
  {
    var pre := Flatten(blocks[..i]);
    var h := |blocks[i]|;
    assert blocks[..i + 1][..i] == blocks[..i];
    assert Flatten(blocks[..i + 1]) == pre + blocks[i];
    FlattenAppend(blocks[..i + 1], blocks[i + 1..]);
    assert blocks[..i + 1] + blocks[i + 1..] == blocks;
    assert buf[..pos] == pre;
    assert buf[pos + h..] == Blank(|Flatten(blocks)| - (pos + h), width);
  }

  /** `xreg[i]` for the kernel loop: the group's exogenous rows, None when
      there is no xreg, and the IndexError of a missing group. */
  method FetchXreg<R>(xreg: Option<GroupedArray<R>>, i: nat) returns (r: Result<Option<seq<R>>>)
    requires XregValid(xreg)
    ensures r.Err? <==> !XregHas(xreg, i)
    ensures r.Err? ==> r.error == IndexError
    ensures r.Ok? ==> r.value == Xr(xreg, i)
  {
    if xreg.None? {
      return Ok(None);
    }
    var got := Get(xreg.value, i);
    if got.Err? {
      return Err(IndexError);
    }
    return Ok(Some(got.value));
  }

  /** Group i's column loop over a buffer holding blocks 0 .. i-1. */
  method StoreGroup<V>(out: array2<Option<V>>, pos: nat, res: Named<V>, ks: seq<string>, h: nat,
                       ghost blocks: seq<seq<seq<Option<V>>>>, ghost i: nat)
    returns (err: Option<Error>)
    requires i < |blocks| && Filled(Rows(out), blocks, i, pos, out.Length1)
    requires blocks[i] == Block(res, ks, out.Length1, h, |ks|)
    requires forall kv :: kv in res ==> |kv.1| == h
    modifies out
    ensures err == ColumnError(res, ks, out.Length1, 0)
    ensures err.None? ==> Filled(Rows(out), blocks, i + 1, pos + h, out.Length1)
  {
    RowsStep(blocks, i, pos, out.Length1, Rows(out));
    BlockEmpty(res, ks, out.Length1, h);
    err := WriteGroup(out, pos, res, ks, h);
  }

  /** One pass of the interval-mode loop: fetch `xreg[i]`, call the
      function, take the column names from the first group, write the block. */
  method IntervalGroup<R, A, V>(out: array2<Option<V>>, ga: GroupedArray<R>, h: nat, f: IntervalFn<R, A, V>,
                                xreg: Option<GroupedArray<R>>, args: seq<A>, level: seq<int>,
                                i: nat, pos: nat, keys: Option<seq<string>>,
                                ghost outs: seq<Named<V>>, ghost blocks: seq<seq<seq<Option<V>>>>)
    returns (err: Option<Error>, ks: seq<string>)
    requires Valid(ga) && XregValid(xreg) && i < NGroups(ga)
    requires outs == IntervalOutputs(ga, h, f, xreg, args, level) && IntervalContract(outs, h)
    requires blocks == FullBlocks(outs, FirstKeys(outs), Width(level), h)
    requires out.Length1 == Width(level) && Filled(Rows(out), blocks, i, pos, Width(level))
    requires keys == if i == 0 then None else Some(FirstKeys(outs))
    modifies out
    ensures err == GroupError(xreg, outs, FirstKeys(outs), Width(level), i)
    ensures err.Some? ==> FirstError(xreg, outs, FirstKeys(outs), Width(level), i) == err
    ensures err.None? ==> FirstError(xreg, outs, FirstKeys(outs), Width(level), i)
                          == FirstError(xreg, outs, FirstKeys(outs), Width(level), i + 1)
    ensures err.None? ==> ks == FirstKeys(outs)
    ensures err.None? ==> Filled(Rows(out), blocks, i + 1, pos + h, Width(level))
  {
    var got := FetchXreg(xreg, i);
    if got.Err? {
      return Some(IndexError), [];
    }
    var res := f(Group(ga, i), h, got.value, args, level);
    assert res == outs[i];
    ks := if keys.None? then KeyList(res) else keys.value;
    err := StoreGroup(out, pos, res, ks, h, blocks, i);
  }

  /** `compute_forecasts` in interval mode (`func` called with `level`):
      a buffer of h * n_groups rows and 2 * len(level) + 1 columns, and the
      column names, or the first error a group raises. */
  method ComputeIntervalForecasts<R, A, V>(ga: GroupedArray<R>, h: nat, f: IntervalFn<R, A, V>,
                                           xreg: Option<GroupedArray<R>>, args: seq<A>, level: seq<int>)
    returns (r: Result<(seq<seq<Option<V>>>, Option<seq<string>>)>)
    requires Valid(ga) && XregValid(xreg)
    requires IntervalContract(IntervalOutputs(ga, h, f, xreg, args, level), h)
    ensures r == IntervalForecasts(ga, h, f, xreg, args, level)
  {
    var n := NGroups(ga);
    var width := 2 * |level| + 1;
    ghost var outs := IntervalOutputs(ga, h, f, xreg, args, level);
    ghost var blocks := FullBlocks(outs, FirstKeys(outs), width, h);
    FlattenUniform(blocks, h);
    var out := new Option<V>[h * n, width]((_, _) => None);
    forall k | 0 <= k < out.Length0
      ensures Rows(out)[k] == Blank<V>(out.Length0, width)[k]
    {
      assert Rows(out)[k] == seq(width, _ => None);
    }
    var err, keys := FillIntervals(out, ga, h, f, xreg, args, level, outs, blocks);
    if err.Some? {
      return Err(err.value);
    }
    r := Ok((Rows(out), keys));
  }

  /** The loop over groups of interval mode, on a blank buffer. */
  method FillIntervals<R, A, V>(out: array2<Option<V>>, ga: GroupedArray<R>, h: nat, f: IntervalFn<R, A, V>,
                                xreg: Option<GroupedArray<R>>, args: seq<A>, level: seq<int>,
                                ghost outs: seq<Named<V>>, ghost blocks: seq<seq<seq<Option<V>>>>)
    returns (err: Option<Error>, keys: Option<seq<string>>)
    requires Valid(ga) && XregValid(xreg)
    requires outs == IntervalOutputs(ga, h, f, xreg, args, level) && IntervalContract(outs, h)
    requires blocks == FullBlocks(outs, FirstKeys(outs), Width(level), h)
    requires out.Length0 == |Flatten(blocks)| && out.Length1 == Width(level)
    requires Rows(out) == Blank(out.Length0, Width(level))
    modifies out
    ensures err == FirstError(xreg, outs, FirstKeys(outs), Width(level), 0)
    ensures err.None? ==> Rows(out) == Flatten(blocks)
    ensures err.None? ==> keys == if outs == [] then None else Some(FirstKeys(outs))
  {
    ghost var ks0 := FirstKeys(outs);
    ghost var width := Width(level);
    FilledNone<V>(blocks, width);
    keys := None;
    var pos: nat := 0;
    for i := 0 to NGroups(ga)
      invariant Filled(Rows(out), blocks, i, pos, width)
      invariant keys == if i == 0 then None else Some(ks0)
      invariant FirstError(xreg, outs, ks0, width, 0) == FirstError(xreg, outs, ks0, width, i)
    {
      var e, ks := IntervalGroup(out, ga, h, f, xreg, args, level, i, pos, keys, outs, blocks);
      if e.Some? {
        return e, None;
      }
      keys := Some(ks);
      pos := pos + h;
    }
    FilledAll(Rows(out), blocks, pos, width);
    err := None;
  }

  /** Point mode fails exactly when some group has no exogenous block, and
      otherwise row h*i + k holds step k of group i's forecast, computed
      from group i and its own exogenous block. */
  lemma PointLayout<R, A, V>(ga: GroupedArray<R>, h: nat, f: PointFn<R, A, V>,
                             xreg: Option<GroupedArray<R>>, args: seq<A>, i: nat, k: nat)
    requires Valid(ga) && XregValid(xreg) && PointContract(ga, h, f, xreg, args)
    requires i < NGroups(ga) && k < h
    ensures PointForecasts(ga, h, f, xreg, args).Ok? <==> XregCovers(ga, xreg)
    ensures XregCovers(ga, xreg) && xreg.Some? ==> Xr(xreg, i) == Some(Group(xreg.value, i))
    ensures |f(Group(ga, i), h, Xr(xreg, i), args)| == h
    ensures PointForecasts(ga, h, f, xreg, args).Ok? ==>
      && |PointForecasts(ga, h, f, xreg, args).value| == h * NGroups(ga)
      && 0 <= h * i + k < h * NGroups(ga)
      && PointForecasts(ga, h, f, xreg, args).value[h * i + k] == Some(f(Group(ga, i), h, Xr(xreg, i), args)[k])
  {
    var outs := PointOutputs(ga, h, f, xreg, args);
    assert outs[i] == f(Group(ga, i), h, Xr(xreg, i), args);
    if XregCovers(ga, xreg) {
      FlattenUniform(outs, h);
      FlattenUniformAt(outs, h, i, k);
    }
  }

  /** Every key from j on names a series of `res` and has a column below
      `width`. */
  ghost predicate KeysWritten<V>(res: Named<V>, ks: seq<string>, width: nat, j: nat)
  {
    forall m :: j <= m < |ks| ==> Lookup(res, ks[m]).Some? && m < width
  }

  /** The column writes of one result succeed exactly when every key from
      j on is in the result and has a column. */
  lemma {:induction false} ColumnErrorNone<V>(res: Named<V>, ks: seq<string>, width: nat, j: nat)
    ensures ColumnError(res, ks, width, j).None? <==> KeysWritten(res, ks, width, j)
    decreases |ks| - j
  {
    if j < |ks| {
      ColumnErrorNone(res, ks, width, j + 1);
      if KeysWritten(res, ks, width, j) {
        assert Lookup(res, ks[j]).Some? && j < width;
        assert KeysWritten(res, ks, width, j + 1);
      } else if Lookup(res, ks[j]).Some? && j < width {
        var m :| j <= m < |ks| && !(Lookup(res, ks[m]).Some? && m < width);
        assert j + 1 <= m;
        assert !KeysWritten(res, ks, width, j + 1) by {
          assert !(Lookup(res, ks[m]).Some? && m < width);
        }
      }
    }
  }

  /** The first group writes its own keys, so it never raises KeyError: it
      fails only when it returns more series than the buffer has columns. */
  lemma OwnKeysColumnError<V>(res: Named<V>, width: nat)
    ensures ColumnError(res, KeyList(res), width, 0) == if |res| <= width then None else Some(IndexError)
  {
    var ks := KeyList(res);
    forall m | 0 <= m < |ks| ensures Lookup(res, ks[m]).Some? {
      assert ks[m] in ks;
      LookupKeys(res, ks[m]);
    }
    OwnKeysFrom(res, width, 0);
  }

  lemma {:induction false} OwnKeysFrom<V>(res: Named<V>, width: nat, j: nat)
    requires forall m :: 0 <= m < |KeyList(res)| ==> Lookup(res, KeyList(res)[m]).Some?
    ensures ColumnError(res, KeyList(res), width, j)
            == if |res| <= width || |res| <= j then None else Some(IndexError)
    decreases |res| - j
  {
    if j < |res| && j < width {
      OwnKeysFrom(res, width, j + 1);
    }
  }

  /** No group from k on raises exactly when the loop from k on finishes. */
  lemma {:induction false} FirstErrorNone<R, V>(xreg: Option<GroupedArray<R>>, outs: seq<Named<V>>, ks: seq<string>,
                                                width: nat, k: nat)
    ensures FirstError(xreg, outs, ks, width, k).None?
        <==> forall i :: k <= i < |outs| ==> GroupError(xreg, outs, ks, width, i).None?
    decreases |outs| - k
  {
    if k < |outs| {
      FirstErrorNone(xreg, outs, ks, width, k + 1);
    }
  }

  /** Group g passes exactly when it has an exogenous block and a written
      column for every key. */
  lemma GroupErrorNone<R, V>(xreg: Option<GroupedArray<R>>, outs: seq<Named<V>>, ks: seq<string>,
                             width: nat, g: nat)
    requires g < |outs|
    ensures GroupError(xreg, outs, ks, width, g).None? <==> XregHas(xreg, g) && KeysWritten(outs[g], ks, width, 0)
  {
    ColumnErrorNone(outs[g], ks, width, 0);
  }

  /** Interval mode succeeds exactly when every group has an exogenous
      block and holds every key of the first group, with a column for each
      key. */
  lemma IntervalOk<R, A, V>(ga: GroupedArray<R>, h: nat, f: IntervalFn<R, A, V>,
                            xreg: Option<GroupedArray<R>>, args: seq<A>, level: seq<int>)
    requires Valid(ga) && XregValid(xreg) && NGroups(ga) >= 1
    ensures var outs := IntervalOutputs(ga, h, f, xreg, args, level);
      var ks := KeyList(outs[0]);
      IntervalForecasts(ga, h, f, xreg, args, level).Ok?
      <==> XregCovers(ga, xreg) && |ks| <= Width(level)
           && forall g, m :: 0 <= g < |outs| && 0 <= m < |ks| ==> Lookup(outs[g], ks[m]).Some?
  {
    var outs := IntervalOutputs(ga, h, f, xreg, args, level);
    var ks := FirstKeys(outs);
    var width := Width(level);
    FirstErrorNone(xreg, outs, ks, width, 0);
    forall g | 0 <= g < |outs|
      ensures GroupError(xreg, outs, ks, width, g).None? <==> XregHas(xreg, g) && KeysWritten(outs[g], ks, width, 0)
    {
      GroupErrorNone(xreg, outs, ks, width, g);
    }
    if IntervalForecasts(ga, h, f, xreg, args, level).Ok? {
      assert XregHas(xreg, |outs| - 1);
      if |ks| > 0 {
        assert GroupError(xreg, outs, ks, width, 0).None?;
        assert Lookup(outs[0], ks[|ks| - 1]).Some? && |ks| - 1 < width;
      }
    }
  }

  /** On success, row h*i + t, column c holds step t of group i's series
      named by the c-th key of the first group, the columns after the keys
      stay unwritten, and those keys are returned with the buffer. */
  lemma IntervalCells<R, A, V>(ga: GroupedArray<R>, h: nat, f: IntervalFn<R, A, V>,
                               xreg: Option<GroupedArray<R>>, args: seq<A>, level: seq<int>,
                               i: nat, t: nat, c: nat)
    requires Valid(ga) && XregValid(xreg)
    requires IntervalContract(IntervalOutputs(ga, h, f, xreg, args, level), h)
    requires IntervalForecasts(ga, h, f, xreg, args, level).Ok?
    requires i < NGroups(ga) && t < h && c < Width(level)
    ensures var outs := IntervalOutputs(ga, h, f, xreg, args, level);
      var ks := KeyList(outs[0]);
      var r := IntervalForecasts(ga, h, f, xreg, args, level).value;
      && r.1 == Some(ks)
      && |r.0| == h * NGroups(ga)
      && 0 <= h * i + t < h * NGroups(ga)
      && |r.0[h * i + t]| == Width(level)
      && (c < |ks| ==> Lookup(outs[i], ks[c]).Some? && |Lookup(outs[i], ks[c]).value| == h
                       && r.0[h * i + t][c] == Some(Lookup(outs[i], ks[c]).value[t]))
      && (c >= |ks| ==> r.0[h * i + t][c] == None)
  {
    var outs := IntervalOutputs(ga, h, f, xreg, args, level);
    var ks := FirstKeys(outs);
    var width := Width(level);
    IntervalOk(ga, h, f, xreg, args, level);
    var blocks := FullBlocks(outs, ks, width, h);
    FlattenUniform(blocks, h);
    FlattenUniformAt(blocks, h, i, t);
    assert Flatten(blocks)[h * i + t] == Block(outs[i], ks, width, h, |ks|)[t];
    if c < |ks| {
      assert Lookup(outs[i], ks[c]).Some?;
      LookupKeys(outs[i], ks[c]);
      assert (ks[c], Lookup(outs[i], ks[c]).value) in outs[i];
    }
  }

  /** The buffer `compute_forecasts` returns: one column of h * n_groups
      cells, or h * n_groups rows of 2 * len(level) + 1 cells. */
  datatype Buffer<V> = Flat(cells: seq<Option<V>>) | Table(rows: seq<seq<Option<V>>>)

  /** `has_level`: the function declares `level` and a level was given. */
  predicate HasLevel<R, A, V>(fn: Callable<R, A, V>, level: Option<seq<int>>)
  {
    fn.acceptsLevel && level.Some?
  }

  /** The calling contract of the mode `compute_forecasts` picks. */
  ghost predicate KernelContract<R, A, V>(ga: GroupedArray<R>, h: nat, fn: Callable<R, A, V>,
                                          xreg: Option<GroupedArray<R>>, level: Option<seq<int>>, args: seq<A>)
    requires Valid(ga) && XregValid(xreg)
  {
    if HasLevel(fn, level) then IntervalContract(IntervalOutputs(ga, h, fn.interval, xreg, args, level.value), h)
    else PointContract(ga, h, fn.point, xreg, args)
  }

  /** `compute_forecasts(h, func, xreg, level, *args)`: the buffer and the
      column names (None in point mode). */
  function Forecasts<R, A, V>(ga: GroupedArray<R>, h: nat, fn: Callable<R, A, V>,
                              xreg: Option<GroupedArray<R>>, level: Option<seq<int>>, args: seq<A>)
    : (r: Result<(Buffer<V>, Option<seq<string>>)>)
    requires Valid(ga) && XregValid(xreg)
    ensures r.Ok? && !HasLevel(fn, level) ==> r.value.0.Flat? && r.value.1.None?
    ensures r.Ok? && HasLevel(fn, level) ==> r.value.0.Table? && (r.value.1.Some? <==> NGroups(ga) >= 1)
  {
    if HasLevel(fn, level) then
      match IntervalForecasts(ga, h, fn.interval, xreg, args, level.value)
      case Err(e) => Err(e)
      case Ok(v) => Ok((Table(v.0), v.1))
    else
      match PointForecasts(ga, h, fn.point, xreg, args)
      case Err(e) => Err(e)
      case Ok(v) => Ok((Flat(v), None))
  }

  method ComputeForecasts<R, A, V>(ga: GroupedArray<R>, h: nat, fn: Callable<R, A, V>,
                                   xreg: Option<GroupedArray<R>>, level: Option<seq<int>>, args: seq<A>)
    returns (r: Result<(Buffer<V>, Option<seq<string>>)>)
    requires Valid(ga) && XregValid(xreg) && KernelContract(ga, h, fn, xreg, level, args)
    ensures r == Forecasts(ga, h, fn, xreg, level, args)
  {
    if fn.acceptsLevel && level.Some? {
      var res := ComputeIntervalForecasts(ga, h, fn.interval, xreg, args, level.value);
      if res.Err? {
        return Err(res.error);
      }
      r := Ok((Table(res.value.0), res.value.1));
    } else {
      var res := ComputePointForecasts(ga, h, fn.point, xreg, args);
      if res.Err? {
        return Err(res.error);
      }
      r := Ok((Flat(res.value), None));
    }
  }
}
