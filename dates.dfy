/** Timestamps of the output tables, on integer timestamps with step 1:
    the `ds` column of `forecast` (statsforecast/core.py, `last_date_f`) and
    the (ds, cutoff) rows of `_cv_dates`. */
module Dates {
  import opened Wrappers
  import opened Seqs
  import CV = CrossValidation

  /** `np.arange(last + 1, last + 1 + h)`: the h timestamps after `last`. */
  function ForecastDates(last: int, h: nat): (ds: seq<int>)
    ensures |ds| == h
  {
    seq(h, k requires 0 <= k < h => last + 1 + k)
  }

  /** `len(np.unique(s)) == 1`. */
  predicate OneValue(s: seq<int>)
  {
    |s| >= 1 && forall i :: 0 <= i < |s| ==> s[i] == s[0]
  }

  /** `n` copies of `x` laid end to end (`np.tile`). */
  function Tile<T>(x: seq<T>, n: nat): (r: seq<T>)
  {
    Flatten(seq(n, _ => x))
  }

  /** The `ds` column of `forecast`: one tiled range when every group ends
      at the same timestamp, else the ranges of the groups stacked with
      `np.hstack`, which raises ValueError for no groups. */
  function ForecastDs(lasts: seq<int>, h: nat): (r: Result<seq<int>>)
  {
    if OneValue(lasts) then Ok(Tile(ForecastDates(lasts[0], h), |lasts|))
    else if lasts == [] then Err(ValueError)
    else Ok(Flatten(GroupRanges(lasts, h)))
  }

  /** Every group's forecast timestamps, group by group. */
  function GroupRanges(lasts: seq<int>, h: nat): (per: seq<seq<int>>)
    ensures |per| == |lasts| && forall i :: 0 <= i < |lasts| ==> |per[i]| == h
  {
    seq(|lasts|, i requires 0 <= i < |lasts| => ForecastDates(lasts[i], h))
  }

  /** The column exists for every non-empty store and row h*i + k of it is
      the k-th step after group i's last timestamp, whichever branch built it. */
  lemma ForecastDsLayout(lasts: seq<int>, h: nat, i: nat, k: nat)
    requires i < |lasts| && k < h
    ensures ForecastDs(lasts, h).Ok?
    ensures |ForecastDs(lasts, h).value| == h * |lasts|
    ensures 0 <= h * i + k < h * |lasts|
    ensures ForecastDs(lasts, h).value[h * i + k] == lasts[i] + 1 + k
  {
    var per := GroupRanges(lasts, h);
    if OneValue(lasts) {
      assert seq(|lasts|, _ => ForecastDates(lasts[0], h)) == per;
    }
    FlattenUniform(per, h);
    FlattenUniformAt(per, h, i, k);
  }

  /** An empty store has no `ds` column: `np.hstack([])` raises. */
  lemma ForecastDsEmpty(h: nat)
    ensures ForecastDs([], h) == Err(ValueError)
  {
  }

  /** `pd.date_range(end=last, periods=n)`: the n timestamps ending at `last`. */
  function DateRangeEnd(last: int, n: nat): (ds: seq<int>)
    ensures |ds| == n
  {
    seq(n, k requires 0 <= k < n => last - n + 1 + k)
  }

  /** The h (ds, cutoff) rows of window w: the dates `total[w : w + h]`
      and the cutoff `total[w] - 1` on each of them. */
  function WindowRows(total: seq<int>, w: nat, h: nat): (rows: seq<(int, int)>)
    requires w + h <= |total| && w < |total|
    ensures |rows| == h
  {
    seq(h, k requires 0 <= k < h => (total[w + k], total[w] - 1))
  }

  /** The rows of every window, window by window. */
  function WindowBlocks(last: int, h: nat, testSize: int): (blocks: seq<seq<(int, int)>>)
    requires h >= 1 && CV.Windows(testSize, h) >= 0
    ensures |blocks| == CV.Windows(testSize, h)
    ensures forall w :: 0 <= w < |blocks| ==> |blocks[w]| == h
  {
    var total := DateRangeEnd(last, testSize);
    seq(CV.Windows(testSize, h), w requires 0 <= w < CV.Windows(testSize, h) => WindowRows(total, w, h))
  }

  /** `_cv_dates` for one last date, on integer timestamps: h rows per
      window; a negative window count makes the buffer shape invalid
      (ValueError). */
  function CvBlock(last: int, h: nat, testSize: int): (r: Result<seq<(int, int)>>)
    requires h >= 1
  {
    if CV.Windows(testSize, h) < 0 then Err(ValueError) else Ok(Flatten(WindowBlocks(last, h, testSize)))
  }

  /** The window loop of `_cv_dates`, on a buffer of h * n_windows rows
      (`np.empty`, whose initial content is never read). */
  method CvBlockRows(last: int, h: nat, testSize: int) returns (r: Result<seq<(int, int)>>)
    requires h >= 1
    ensures r == CvBlock(last, h, testSize)
  {
    var nw := testSize - h + 1;
    if nw < 0 {
      return Err(ValueError);
    }
    ghost var blocks := WindowBlocks(last, h, testSize);
    FlattenUniform(blocks, h);
    var out := new Option<(int, int)>[h * nw](_ => None);
    FillWindows(out, last, h, testSize, blocks);
    var cells := out[..];
    r := Ok(seq(|cells|, k requires 0 <= k < |cells| => cells[k].value));
    assert r.value == Flatten(blocks);
  }

  method FillWindows(out: array<Option<(int, int)>>, last: int, h: nat, testSize: int,
                     ghost blocks: seq<seq<(int, int)>>)
    requires h >= 1 && CV.Windows(testSize, h) >= 0 && blocks == WindowBlocks(last, h, testSize)
    requires out.Length == |Flatten(blocks)| && out[..] == Nones(out.Length)
    modifies out
    ensures out[..] == Lift(Flatten(blocks))
  {
    var nw := testSize - h + 1;
    var pos := 0;
    assert blocks[..0] == [];
    for w := 0 to nw
      invariant pos == |Flatten(blocks[..w])| <= |Flatten(blocks)|
      invariant out[..] == Lift(Flatten(blocks[..w])) + Nones(|Flatten(blocks)| - pos)
    {
      WriteWindow(out, last, h, testSize, w, pos, blocks);
      pos := pos + h;
    }
    assert blocks[..nw] == blocks;
    assert Nones<(int, int)>(|Flatten(blocks)| - pos) == [];
  }

  /** One pass of the window loop: the rows of window w after those of
      windows 0 .. w-1. */
  method WriteWindow(out: array<Option<(int, int)>>, last: int, h: nat, testSize: int, w: nat, pos: nat,
                     ghost blocks: seq<seq<(int, int)>>)
    requires h >= 1 && w < CV.Windows(testSize, h) && blocks == WindowBlocks(last, h, testSize)
    requires pos == |Flatten(blocks[..w])| <= |Flatten(blocks)| == out.Length
    requires out[..] == Lift(Flatten(blocks[..w])) + Nones(|Flatten(blocks)| - pos)
    modifies out
    ensures pos + h == |Flatten(blocks[..w + 1])| <= |Flatten(blocks)|
    ensures out[..] == Lift(Flatten(blocks[..w + 1])) + Nones(|Flatten(blocks)| - (pos + h))
  {
    var rows := WindowRows(DateRangeEnd(last, testSize), w, h);
    WindowBlockAt(last, h, testSize, w);
    ghost var buf := out[..];
    BlockStep(blocks, w, pos, buf);
    WriteRun(out, pos, Lift(rows));
    assert out[..] == buf[..pos] + Lift(blocks[w]) + buf[pos + |blocks[w]|..];
  }

  lemma WindowBlockAt(last: int, h: nat, testSize: int, w: nat)
    requires h >= 1 && w < CV.Windows(testSize, h)
    ensures WindowBlocks(last, h, testSize)[w] == WindowRows(DateRangeEnd(last, testSize), w, h)
  {
  }

  /** Row h*w + k of one group's block: date `last - test_size + 1 + w + k`
      and cutoff `last - test_size + w`, so the cutoff grows with the window
      and lies just before the window's first date. */
  lemma CvBlockLayout(last: int, h: nat, testSize: int, w: nat, k: nat)
    requires h >= 1 && w < CV.Windows(testSize, h) && k < h
    ensures CvBlock(last, h, testSize).Ok?
    ensures |CvBlock(last, h, testSize).value| == h * CV.Windows(testSize, h)
    ensures 0 <= h * w + k < h * CV.Windows(testSize, h)
    ensures CvBlock(last, h, testSize).value[h * w + k] == (last - testSize + 1 + w + k, last - testSize + w)
  {
    var blocks := WindowBlocks(last, h, testSize);
    FlattenUniform(blocks, h);
    FlattenUniformAt(blocks, h, w, k);
  }

  /** Cutoffs strictly increase from window to window. */
  lemma CvCutoffsIncrease(last: int, h: nat, testSize: int, w: nat, v: nat, k: nat, l: nat)
    requires h >= 1 && w < v < CV.Windows(testSize, h) && k < h && l < h
    ensures CvBlock(last, h, testSize).Ok?
    ensures 0 <= h * w + k < h * v + l < |CvBlock(last, h, testSize).value|
    ensures CvBlock(last, h, testSize).value[h * w + k].1 < CvBlock(last, h, testSize).value[h * v + l].1
  {
    CvBlockLayout(last, h, testSize, w, k);
    CvBlockLayout(last, h, testSize, v, l);
    BlockBefore(h, w, k, v);
  }

  /** `_cv_dates(last_dates, ...)`: the single block tiled once per group
      when every group ends at the same timestamp, else the groups' blocks
      concatenated (`pd.concat` of no frames raises ValueError). */
  function CvDates(lasts: seq<int>, h: nat, testSize: int): (r: Result<seq<(int, int)>>)
    requires h >= 1
  {
    if OneValue(lasts) then
      match CvBlock(lasts[0], h, testSize)
      case Err(e) => Err(e)
      case Ok(b) => Ok(Tile(b, |lasts|))
    else if lasts == [] then Err(ValueError)
    else if CV.Windows(testSize, h) < 0 then Err(ValueError)
    else Ok(Flatten(seq(|lasts|, i requires 0 <= i < |lasts| => CvBlock(lasts[i], h, testSize).value)))
  }

  /** Whichever branch builds them, the rows are the groups' blocks in
      group order; there are none for no groups or a negative window count. */
  lemma CvDatesPerGroup(lasts: seq<int>, h: nat, testSize: int)
    requires h >= 1
    ensures CvDates(lasts, h, testSize).Ok? <==> lasts != [] && CV.Windows(testSize, h) >= 0
    ensures CvDates(lasts, h, testSize).Ok? ==>
      CvDates(lasts, h, testSize).value
      == Flatten(seq(|lasts|, i requires 0 <= i < |lasts| => CvBlock(lasts[i], h, testSize).value))
  {
    if OneValue(lasts) && CV.Windows(testSize, h) >= 0 {
      var per := seq(|lasts|, i requires 0 <= i < |lasts| => CvBlock(lasts[i], h, testSize).value);
      assert seq(|lasts|, _ => CvBlock(lasts[0], h, testSize).value) == per;
    }
  }
}
