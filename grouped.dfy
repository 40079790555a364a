/** The ragged-array store `GroupedArray` (statsforecast/core.py): one flat
    row buffer `data` and an offset vector `indptr`, group i occupying
    data[indptr[i] .. indptr[i+1]). The store is never mutated after it is
    built, so it is a value here; a slice is a new, independent value. */
module Grouped {
  import opened Wrappers
  import opened Seqs

  datatype GroupedArray<R> = GroupedArray(data: seq<R>, indptr: seq<int>)

  /** The store invariant: offsets start at 0, never decrease and end at the
      length of the buffer, so the groups tile the buffer in order. */
  ghost predicate Valid<R>(ga: GroupedArray<R>)
  {
    && |ga.indptr| >= 1
    && ga.indptr[0] == 0
    && ga.indptr[|ga.indptr| - 1] == |ga.data|
    && forall i, j :: 0 <= i <= j < |ga.indptr| ==> ga.indptr[i] <= ga.indptr[j]
  }

  /** `n_groups = indptr.size - 1`, also `len(ga)`. */
  function NGroups<R>(ga: GroupedArray<R>): int
  {
    |ga.indptr| - 1
  }

  /** The rows of group i. */
  function Group<R>(ga: GroupedArray<R>, i: int): (g: seq<R>)
    requires Valid(ga) && 0 <= i < NGroups(ga)
    ensures |g| == ga.indptr[i + 1] - ga.indptr[i]
  {
    ga.data[ga.indptr[i]..ga.indptr[i + 1]]
  }

  /** All groups, in store order. */
  function GroupsOf<R>(ga: GroupedArray<R>): (gs: seq<seq<R>>)
    requires Valid(ga)
    ensures |gs| == NGroups(ga)
  {
    seq(NGroups(ga), i requires 0 <= i < NGroups(ga) => Group(ga, i))
  }

  /** `ga[idx]` for an integer idx: both offsets are read with numpy's
      integer indexing (negative positions count from the end) and the rows
      between them are sliced out. */
  function Get<R>(ga: GroupedArray<R>, idx: int): (r: Result<seq<R>>)
    requires Valid(ga)
    ensures r.Ok? <==> -NGroups(ga) - 1 <= idx < NGroups(ga)
    ensures 0 <= idx < NGroups(ga) ==> r == Ok(Group(ga, idx))
    ensures idx == -1 ==> r == Ok([])
    ensures -NGroups(ga) - 1 <= idx <= -2 ==> r == Ok(Group(ga, NGroups(ga) + 1 + idx))
  {
    match (PyIndex(ga.indptr, idx), PyIndex(ga.indptr, idx + 1))
    case (Ok(a), Ok(b)) => Ok(PySlice(ga.data, Some(a), Some(b)))
    case _ => Err(IndexError)
  }

  /** `for grp in ga`: the class has no `__iter__`, so Python calls
      `ga[0]`, `ga[1]`, ... until one raises IndexError. */
  method Iterate<R>(ga: GroupedArray<R>) returns (groups: seq<seq<R>>)
    requires Valid(ga)
    ensures groups == GroupsOf(ga)
  {
    groups := [];
    var i := 0;
    var next := Get(ga, 0);
    while next.Ok?
      invariant 0 <= i <= NGroups(ga)
      invariant next == Get(ga, i)
      invariant groups == GroupsOf(ga)[..i]
      decreases NGroups(ga) - i
    {
      groups := groups + [next.value];
      i := i + 1;
      next := Get(ga, i);
    }
  }

  /** Offsets shifted so that the first one is zero. */
  function Rebase(sel: seq<int>): (r: seq<int>)
    requires |sel| >= 1
    ensures |r| == |sel|
  {
    seq(|sel|, k requires 0 <= k < |sel| => sel[k] - sel[0])
  }

  /** `ga[start:stop]`: the offsets `indptr[start : stop + 1]` (one more
      entry than groups), the rows they span, and the offsets rebased to
      zero. An empty offset selection fails on reading its first entry. */
  function SliceStore<R>(ga: GroupedArray<R>, start: int, stop: int): (r: Result<GroupedArray<R>>)
    requires Valid(ga)
    ensures r.Ok? ==> Valid(r.value)
    ensures 0 <= stop < start ==> r == Err(IndexError)
    ensures 0 <= start <= stop <= NGroups(ga) ==>
      && r.Ok?
      && NGroups(r.value) == stop - start
      && r.value.data == ga.data[ga.indptr[start]..ga.indptr[stop]]
      && forall k :: 0 <= k < stop - start ==> Group(r.value, k) == Group(ga, start + k)
  {
    var sel := PySlice(ga.indptr, Some(start), Some(stop + 1));
    if |sel| == 0 then Err(IndexError)
    else
      SliceStoreFacts(ga, start, stop);
      Ok(GroupedArray(PySlice(ga.data, Some(sel[0]), Some(sel[|sel| - 1])), Rebase(sel)))
  }

  lemma SliceStoreFacts<R>(ga: GroupedArray<R>, start: int, stop: int)
    requires Valid(ga)
    requires |PySlice(ga.indptr, Some(start), Some(stop + 1))| > 0
    ensures var sel := PySlice(ga.indptr, Some(start), Some(stop + 1));
      var r := GroupedArray(PySlice(ga.data, Some(sel[0]), Some(sel[|sel| - 1])), Rebase(sel));
      && Valid(r)
      && (0 <= start <= stop <= NGroups(ga) ==>
           && NGroups(r) == stop - start
           && r.data == ga.data[ga.indptr[start]..ga.indptr[stop]]
           && forall k :: 0 <= k < stop - start ==> Group(r, k) == Group(ga, start + k))
  {
    var ip := ga.indptr;
    var sel := PySlice(ip, Some(start), Some(stop + 1));
    var lo, hi := Lo(ip, Some(start)), Hi(ip, Some(stop + 1));
    assert sel == ip[lo..hi];
    assert 0 <= sel[0] <= sel[|sel| - 1] <= |ga.data| by {
      assert sel[0] == ip[lo] && sel[|sel| - 1] == ip[hi - 1];
    }
    var d := PySlice(ga.data, Some(sel[0]), Some(sel[|sel| - 1]));
    assert d == ga.data[sel[0]..sel[|sel| - 1]];
    var r := GroupedArray(d, Rebase(sel));
    assert Valid(r);
    if 0 <= start <= stop <= NGroups(ga) {
      assert lo == start && hi == stop + 1;
      forall k | 0 <= k < stop - start
        ensures Group(r, k) == Group(ga, start + k)
      {
        SliceGroupAt(ga, start, stop, k, r);
      }
    }
  }

  lemma SliceGroupAt<R>(ga: GroupedArray<R>, start: int, stop: int, k: int, r: GroupedArray<R>)
    requires Valid(ga) && Valid(r) && 0 <= start <= stop <= NGroups(ga) && 0 <= k < stop - start
    requires r.data == ga.data[ga.indptr[start]..ga.indptr[stop]]
    requires r.indptr == Rebase(ga.indptr[start..stop + 1])
    ensures Group(r, k) == Group(ga, start + k)
  {
    var ip := ga.indptr;
    var a, b := ip[start + k] - ip[start], ip[start + k + 1] - ip[start];
    assert r.indptr[k] == a && r.indptr[k + 1] == b;
    assert ip[start] <= ip[start + k] <= ip[start + k + 1] <= ip[stop];
    SliceOfSlice(ga.data, ip[start], ip[stop], a, b);
  }

  /** `ga[start:stop]` holds groups start .. stop-1 of `ga`, in order. */
  lemma SliceGroups<R>(ga: GroupedArray<R>, start: int, stop: int)
    requires Valid(ga) && 0 <= start <= stop <= NGroups(ga)
    ensures SliceStore(ga, start, stop).Ok?
    ensures GroupsOf(SliceStore(ga, start, stop).value) == GroupsOf(ga)[start..stop]
  {
    var r := SliceStore(ga, start, stop).value;
    var gs, hs := GroupsOf(r), GroupsOf(ga)[start..stop];
    forall k | 0 <= k < stop - start ensures gs[k] == hs[k] {
      assert gs[k] == Group(r, k) == Group(ga, start + k);
    }
  }

  /** The in-place version: copy the selected offsets into a fresh buffer and
      subtract the first offset from every entry (`new_indptr -= new_indptr[0]`). */
  method SliceCopy<R>(ga: GroupedArray<R>, start: int, stop: int) returns (r: Result<GroupedArray<R>>)
    requires Valid(ga)
    ensures r == SliceStore(ga, start, stop)
  {
    var sel := PySlice(ga.indptr, Some(start), Some(stop + 1));
    if |sel| == 0 {
      return Err(IndexError);
    }
    var newIndptr := new int[|sel|](k requires 0 <= k < |sel| => sel[k]);
    assert newIndptr[..] == sel;
    var newData := PySlice(ga.data, Some(newIndptr[0]), Some(newIndptr[newIndptr.Length - 1]));
    RebaseInPlace(newIndptr);
    r := Ok(GroupedArray(newData, newIndptr[..]));
  }

  /** `a -= a[0]` on an offsets buffer. */
  method RebaseInPlace(a: array<int>)
    requires a.Length >= 1
    modifies a
    ensures a[..] == Rebase(old(a[..]))
  {
    var base := a[0];
    for k := 0 to a.Length
      invariant forall m :: 0 <= m < k ==> a[m] == old(a[m]) - base
      invariant forall m :: k <= m < a.Length ==> a[m] == old(a[m])
    {
      a[k] := a[k] - base;
    }
  }

  /** `ga == other`: the model compares values exactly. */
  function Equal<R(==)>(a: GroupedArray<R>, b: GroupedArray<R>): (eq: bool)
    ensures eq <==> a == b
  {
    a.data == b.data && a.indptr == b.indptr
  }

  /** `np.append(0, sizes.cumsum())`: starts at 0 and steps by each size. */
  function PrefixSums(sizes: seq<nat>): (r: seq<int>)
    ensures |r| == |sizes| + 1 && r[0] == 0
    ensures forall i {:trigger sizes[i]} :: 0 <= i < |sizes| ==> r[i + 1] == r[i] + sizes[i]
  {
    if sizes == [] then [0]
    else
      var n := |sizes| - 1;
      var p := PrefixSums(sizes[..n]);
      assert forall i :: 0 <= i < n ==> sizes[..n][i] == sizes[i];
      p + [p[n] + sizes[n]]
  }

  /** Entry i is the total size of the first i groups. */
  lemma {:induction false} PrefixSumsIsSum(sizes: seq<nat>, i: nat)
    requires i <= |sizes|
    ensures PrefixSums(sizes)[i] == Sum(sizes[..i])
  {
    if i > 0 {
      PrefixSumsIsSum(sizes, i - 1);
      SumStep(sizes, i - 1);
    }
  }

  lemma {:induction false} PrefixSumsMonotoneAt(sizes: seq<nat>, i: nat, j: nat)
    requires i <= j <= |sizes|
    ensures PrefixSums(sizes)[i] <= PrefixSums(sizes)[j]
    decreases j
  {
    if i < j {
      PrefixSumsMonotoneAt(sizes, i, j - 1);
      assert PrefixSums(sizes)[j] == PrefixSums(sizes)[j - 1] + sizes[j - 1];
    }
  }

  lemma PrefixSumsMonotone(sizes: seq<nat>)
    ensures forall i, j :: 0 <= i <= j <= |sizes| ==> PrefixSums(sizes)[i] <= PrefixSums(sizes)[j]
  {
    forall i, j | 0 <= i <= j <= |sizes| ensures PrefixSums(sizes)[i] <= PrefixSums(sizes)[j] {
      PrefixSumsMonotoneAt(sizes, i, j);
    }
  }

  /** `.astype(np.int32)`: the value modulo 2^32, read as a signed 32-bit
      integer. */
  function Int32(x: int): (r: int)
    ensures -0x8000_0000 <= r < 0x8000_0000
    ensures (x - r) % 0x1_0000_0000 == 0
    ensures -0x8000_0000 <= x < 0x8000_0000 ==> r == x
  {
    (x + 0x8000_0000) % 0x1_0000_0000 - 0x8000_0000
  }

  /** The offsets as `_grouped_array_from_df` stores them:
      `np.append(0, cum_sizes).astype(np.int32)`. */
  function Int32Offsets(sizes: seq<nat>): (r: seq<int>)
    ensures |r| == |sizes| + 1
  {
    seq(|sizes| + 1, i requires 0 <= i <= |sizes| => Int32(PrefixSums(sizes)[i]))
  }

  /** Below 2^31 rows the cast keeps every offset, so the exact offsets
      `Build` uses are the stored ones. */
  lemma CastKeepsOffsets(sizes: seq<nat>)
    requires Sum(sizes) < 0x8000_0000
    ensures Int32Offsets(sizes) == PrefixSums(sizes)
  {
    PrefixSumsFacts(sizes);
  }

  /** From 2^31 rows on, the stored final offset wraps negative and no
      longer matches the row count. */
  lemma CastWrapsPast(sizes: seq<nat>)
    requires 0x8000_0000 <= Sum(sizes) < 0x1_0000_0000
    ensures Int32Offsets(sizes)[|sizes|] == Sum(sizes) - 0x1_0000_0000 < 0
  {
    PrefixSumsFacts(sizes);
    Int32Wraps(PrefixSums(sizes)[|sizes|]);
  }

  lemma Int32Wraps(x: int)
    requires 0x8000_0000 <= x < 0x1_0000_0000
    ensures Int32(x) == x - 0x1_0000_0000
  {
    var y := x + 0x8000_0000;
    assert y % 0x1_0000_0000 == y - 0x1_0000_0000;
  }

  /** The store built from rows already sorted by (group, time) and the row
      count of each group: `GroupedArray(data, np.append(0, cumsum(sizes)))`. */
  function Build<R>(data: seq<R>, sizes: seq<nat>): GroupedArray<R>
  {
    GroupedArray(data, PrefixSums(sizes))
  }

  /** The timestamp of each group's final row, `ds[cum_sizes - 1]`. */
  function LastDates(ds: seq<int>, sizes: seq<nat>): (last: seq<int>)
    requires |ds| == Sum(sizes)
    requires forall i :: 0 <= i < |sizes| ==> sizes[i] >= 1
    ensures |last| == |sizes|
  {
    seq(|sizes|, i requires 0 <= i < |sizes| => LastDate(ds, sizes, i))
  }

  function LastDate(ds: seq<int>, sizes: seq<nat>, i: nat): int
    requires |ds| == Sum(sizes)
    requires i < |sizes| && sizes[i] >= 1
  {
    GroupEnd(sizes, i);
    ds[PrefixSums(sizes)[i + 1] - 1]
  }

  /** A non-empty group ends after row 0 and by the last row. */
  lemma GroupEnd(sizes: seq<nat>, i: nat)
    requires i < |sizes| && sizes[i] >= 1
    ensures 1 <= PrefixSums(sizes)[i + 1] <= Sum(sizes)
  {
    var p := PrefixSums(sizes);
    assert p[i + 1] == p[i] + sizes[i];
    PrefixSumsMonotoneAt(sizes, 0, i);
    PrefixSumsMonotoneAt(sizes, i + 1, |sizes|);
    PrefixSumsIsSum(sizes, |sizes|);
    assert sizes[..|sizes|] == sizes;
  }

  lemma PrefixSumsFacts(sizes: seq<nat>)
    ensures PrefixSums(sizes)[|sizes|] == Sum(sizes)
    ensures forall i :: 0 <= i <= |sizes| ==> 0 <= PrefixSums(sizes)[i] <= PrefixSums(sizes)[|sizes|]
  {
    forall i | 0 <= i <= |sizes|
      ensures 0 <= PrefixSums(sizes)[i] <= PrefixSums(sizes)[|sizes|]
    {
      PrefixSumsMonotoneAt(sizes, 0, i);
      PrefixSumsMonotoneAt(sizes, i, |sizes|);
    }
    PrefixSumsIsSum(sizes, |sizes|);
    assert sizes[..|sizes|] == sizes;
  }

  lemma SumStep(s: seq<nat>, i: nat)
    requires i < |s|
    ensures Sum(s[..i + 1]) == Sum(s[..i]) + s[i]
  {
    assert s[..i + 1][..i] == s[..i];
  }

  /** Building from sizes gives a valid store whose group i has sizes[i] rows. */
  lemma BuildValid<R>(data: seq<R>, sizes: seq<nat>)
    requires |data| == Sum(sizes)
    ensures Valid(Build(data, sizes))
    ensures NGroups(Build(data, sizes)) == |sizes|
    ensures forall i :: 0 <= i < |sizes| ==> |Group(Build(data, sizes), i)| == sizes[i]
  {
    PrefixSumsFacts(sizes);
    PrefixSumsMonotone(sizes);
  }

  /** Each group's reported last date is the timestamp of its final row. */
  lemma LastDatesAreGroupEnds(ds: seq<int>, sizes: seq<nat>, i: int)
    requires |ds| == Sum(sizes)
    requires forall i :: 0 <= i < |sizes| ==> sizes[i] >= 1
    requires 0 <= i < |sizes|
    ensures Valid(Build(ds, sizes))
    ensures |Group(Build(ds, sizes), i)| == sizes[i]
    ensures LastDates(ds, sizes)[i] == Group(Build(ds, sizes), i)[sizes[i] - 1]
  {
    BuildValid(ds, sizes);
    var p := PrefixSums(sizes);
    assert p[i + 1] == p[i] + sizes[i];
    GroupEnd(sizes, i);
    assert LastDates(ds, sizes)[i] == ds[p[i + 1] - 1];
  }

  /** Group sizes of a sequence of groups. */
  function Lengths<R>(gs: seq<seq<R>>): (ls: seq<nat>)
    ensures |ls| == |gs|
    ensures forall i :: 0 <= i < |gs| ==> ls[i] == |gs[i]|
  {
    seq(|gs|, i requires 0 <= i < |gs| => |gs[i]|)
  }

  /** The store holding the given groups in order. */
  function FromGroups<R>(gs: seq<seq<R>>): GroupedArray<R>
  {
    Build(Flatten(gs), Lengths(gs))
  }

  /** Building a store from groups and reading its groups back is the identity. */
  lemma FromGroupsRoundTrip<R>(gs: seq<seq<R>>)
    ensures Valid(FromGroups(gs))
    ensures GroupsOf(FromGroups(gs)) == gs
  {
    FromGroupsValid(gs);
    forall i | 0 <= i < |gs| ensures Group(FromGroups(gs), i) == gs[i] {
      FromGroupsAt(gs, i);
    }
  }

  lemma FromGroupsValid<R>(gs: seq<seq<R>>)
    ensures Valid(FromGroups(gs)) && NGroups(FromGroups(gs)) == |gs|
    ensures forall i :: 0 <= i < |gs| ==> |Group(FromGroups(gs), i)| == |gs[i]|
  {
    FlattenLength(gs, Lengths(gs));
    BuildValid(Flatten(gs), Lengths(gs));
  }

  lemma FromGroupsAt<R>(gs: seq<seq<R>>, i: int)
    requires 0 <= i < |gs|
    ensures Valid(FromGroups(gs)) && NGroups(FromGroups(gs)) == |gs|
    ensures Group(FromGroups(gs), i) == gs[i]
  {
    FromGroupsValid(gs);
    var ls := Lengths(gs);
    var p := PrefixSums(ls);
    var pre, post := Flatten(gs[..i]), Flatten(gs[i + 1..]);
    assert |pre| == p[i] by {
      FlattenLength(gs[..i], ls[..i]);
      PrefixSumsIsSum(ls, i);
    }
    assert p[i + 1] == p[i] + |gs[i]| by {
      assert |Group(FromGroups(gs), i)| == |gs[i]|;
    }
    assert Flatten(gs) == pre + gs[i] + post by {
      FlattenSplitAt(gs, i);
    }
    assert (pre + gs[i] + post)[|pre|..|pre| + |gs[i]|] == gs[i];
    var ga := FromGroups(gs);
    assert ga.data == Flatten(gs) && ga.indptr == p;
    assert Group(ga, i) == Flatten(gs)[p[i]..p[i + 1]];
  }

  /** A valid store is determined by its groups: rebuilding it from them
      reproduces both the buffer and the offsets. */
  lemma GroupsDetermineStore<R>(ga: GroupedArray<R>)
    requires Valid(ga)
    ensures FromGroups(GroupsOf(ga)) == ga
  {
    var gs := GroupsOf(ga);
    var ls := Lengths(gs);
    var n := NGroups(ga);
    GroupsPrefix(ga, n);
    assert gs[..n] == gs && ls[..n] == ls;
    var p := PrefixSums(ls);
    forall i | 0 <= i <= n ensures p[i] == ga.indptr[i] {
      GroupsPrefix(ga, i);
      PrefixSumsIsSum(ls, i);
    }
    assert ga.data[..ga.indptr[n]] == ga.data;
  }

  /** `ga == other` holds exactly when the two valid stores hold the same
      groups in the same order. */
  lemma EqualIffSameGroups<R>(a: GroupedArray<R>, b: GroupedArray<R>)
    requires Valid(a) && Valid(b)
    ensures Equal(a, b) <==> GroupsOf(a) == GroupsOf(b)
  {
    if GroupsOf(a) == GroupsOf(b) {
      GroupsDetermineStore(a);
      GroupsDetermineStore(b);
    }
  }

  lemma {:induction false} GroupsPrefix<R>(ga: GroupedArray<R>, i: nat)
    requires Valid(ga) && i <= NGroups(ga)
    ensures Flatten(GroupsOf(ga)[..i]) == ga.data[..ga.indptr[i]]
    ensures Sum(Lengths(GroupsOf(ga))[..i]) == ga.indptr[i]
  {
    var gs := GroupsOf(ga);
    if i > 0 {
      GroupsPrefix(ga, i - 1);
      assert gs[..i][..i - 1] == gs[..i - 1];
      assert Lengths(gs)[..i][..i - 1] == Lengths(gs)[..i - 1];
      assert ga.data[..ga.indptr[i]] == ga.data[..ga.indptr[i - 1]] + Group(ga, i - 1);
    }
  }
}
