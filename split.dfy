/** `GroupedArray.split`: numpy.array_split over range(n_groups) into
    n sections, one slice of the store per non-empty section. */
module Split {
  import opened Wrappers
  import opened Seqs
  import opened Grouped

  /** Section sizes of numpy.array_split(range(total), n): the first
      total % n sections hold one element more than the others. */
  function ChunkSizes(total: nat, n: nat): (sizes: seq<nat>)
    requires n >= 1
    ensures |sizes| == n
  {
    seq(n, c requires 0 <= c < n => if c < total % n then total / n + 1 else total / n)
  }

  /** The non-empty sections as half-open group ranges, the first one
      starting at `start`; an empty section is dropped (`if x.size`). */
  function RangesFrom(sizes: seq<nat>, start: int): seq<(int, int)>
  {
    if sizes == [] then []
    else
      (if sizes[0] > 0 then [(start, start + sizes[0])] else [])
      + RangesFrom(sizes[1..], start + sizes[0])
  }

  function ChunkRanges(total: nat, n: nat): seq<(int, int)>
    requires n >= 1
  {
    RangesFrom(ChunkSizes(total, n), 0)
  }

  /** `rs` lists non-empty ranges that cover [lo, hi) one after another. */
  ghost predicate Tiles(rs: seq<(int, int)>, lo: int, hi: int)
    decreases |rs|
  {
    if rs == [] then lo == hi
    else rs[0].0 == lo && rs[0].0 < rs[0].1 && Tiles(rs[1..], rs[0].1, hi)
  }

  /** `ga.split(n)`: self[x[0] : x[-1] + 1] for every non-empty section x. */
  function Split<R>(ga: GroupedArray<R>, n: int): (r: Result<seq<GroupedArray<R>>>)
    requires Valid(ga)
    ensures n <= 0 ==> r == Err(ValueError)
    ensures n >= 1 ==> r.Ok? && |r.value| == Min(n, NGroups(ga))
    ensures r.Ok? ==> forall c :: 0 <= c < |r.value| ==>
      && Valid(r.value[c])
      && 1 <= NGroups(r.value[c])
      && NGroups(ga) / n <= NGroups(r.value[c]) <= NGroups(ga) / n + 1
  {
    if n <= 0 then Err(ValueError)
    else
      var rs := ChunkRanges(NGroups(ga), n);
      ChunkRangesFacts(NGroups(ga), n);
      var chunks := seq(|rs|, c requires 0 <= c < |rs| => SliceStore(ga, rs[c].0, rs[c].1).value);
      ChunkFacts(ga, n, chunks);
      Ok(chunks)
  }

  lemma ChunkFacts<R>(ga: GroupedArray<R>, n: int, chunks: seq<GroupedArray<R>>)
    requires Valid(ga) && n >= 1
    requires InBounds(ChunkRanges(NGroups(ga), n), NGroups(ga))
    requires |chunks| == |ChunkRanges(NGroups(ga), n)|
    requires forall c :: 0 <= c < |chunks| ==>
      chunks[c] == SliceStore(ga, ChunkRanges(NGroups(ga), n)[c].0, ChunkRanges(NGroups(ga), n)[c].1).value
    ensures forall c :: 0 <= c < |chunks| ==>
      && Valid(chunks[c])
      && 1 <= NGroups(chunks[c])
      && NGroups(ga) / n <= NGroups(chunks[c]) <= NGroups(ga) / n + 1
  {
    var rs := ChunkRanges(NGroups(ga), n);
    ChunkRangesFacts(NGroups(ga), n);
    forall c | 0 <= c < |chunks|
      ensures Valid(chunks[c]) && NGroups(chunks[c]) == rs[c].1 - rs[c].0
    {
      SliceInRange(ga, rs[c].0, rs[c].1);
    }
  }

  lemma SliceInRange<R>(ga: GroupedArray<R>, a: int, b: int)
    requires Valid(ga) && 0 <= a <= b <= NGroups(ga)
    ensures SliceStore(ga, a, b).Ok?
    ensures Valid(SliceStore(ga, a, b).value) && NGroups(SliceStore(ga, a, b).value) == b - a
  {
  }

  function Min(a: int, b: int): int { if a < b then a else b }

  /** What the sections look like: as many as min(n, total), each of size
      total / n or one more, tiling [0, total). */
  lemma ChunkRangesFacts(total: nat, n: nat)
    requires n >= 1
    ensures |ChunkRanges(total, n)| == Min(n, total)
    ensures Tiles(ChunkRanges(total, n), 0, total)
    ensures InBounds(ChunkRanges(total, n), total)
    ensures forall c :: 0 <= c < |ChunkRanges(total, n)| ==>
      ChunkRanges(total, n)[c].0 < ChunkRanges(total, n)[c].1
    ensures forall c :: 0 <= c < |ChunkRanges(total, n)| ==>
      total / n <= ChunkRanges(total, n)[c].1 - ChunkRanges(total, n)[c].0 <= total / n + 1
  {
    var sizes := ChunkSizes(total, n);
    ChunkSizesSum(total, n);
    RangesFromTiles(sizes, 0);
    RangesFromLengths(sizes, 0, total / n, total / n + 1);
    TilesBounds(ChunkRanges(total, n), 0, total);
    ChunkCount(total, n);
  }

  lemma ChunkCount(total: nat, n: nat)
    requires n >= 1
    ensures |ChunkRanges(total, n)| == Min(n, total)
  {
    var sizes := ChunkSizes(total, n);
    if total >= n {
      RangesFromCount(sizes, 0, n);
    } else {
      RangesFromCount(sizes, 0, total);
    }
  }

  lemma {:induction false} ChunkSizesSum(total: nat, n: nat)
    requires n >= 1
    ensures Sum(ChunkSizes(total, n)) == total
  {
    var sizes := ChunkSizes(total, n);
    var q, r := total / n, total % n;
    SumChunkPrefix(total, n, n);
    assert sizes[..n] == sizes;
    assert n * q + r == total;
  }

  lemma {:induction false} SumChunkPrefix(total: nat, n: nat, c: nat)
    requires 1 <= n && c <= n
    ensures Sum(ChunkSizes(total, n)[..c]) == c * (total / n) + Min(c, total % n)
  {
    var sizes := ChunkSizes(total, n);
    if c > 0 {
      SumChunkPrefix(total, n, c - 1);
      SumStep(sizes, c - 1);
      assert c * (total / n) == (c - 1) * (total / n) + total / n;
    }
  }

  lemma {:induction false} SumCons(s: seq<nat>)
    requires s != []
    ensures Sum(s) == s[0] + Sum(s[1..])
    decreases |s|
  {
    if |s| > 1 {
      var n := |s| - 1;
      SumCons(s[..n]);
      assert s[..n][1..] == s[1..][..n - 1];
      assert s[..n][0] == s[0];
    } else {
      assert s[1..] == [];
      assert s[..0] == [];
    }
  }

  lemma {:induction false} RangesFromTiles(sizes: seq<nat>, start: int)
    ensures Tiles(RangesFrom(sizes, start), start, start + Sum(sizes))
    decreases |sizes|
  {
    if sizes != [] {
      SumCons(sizes);
      RangesFromTiles(sizes[1..], start + sizes[0]);
      var rest := RangesFrom(sizes[1..], start + sizes[0]);
      if sizes[0] > 0 {
        assert RangesFrom(sizes, start) == [(start, start + sizes[0])] + rest;
        assert RangesFrom(sizes, start)[1..] == rest;
      } else {
        assert RangesFrom(sizes, start) == rest;
      }
    }
  }

  lemma {:induction false} RangesFromLengths(sizes: seq<nat>, start: int, lo: nat, hi: nat)
    requires forall c :: 0 <= c < |sizes| ==> sizes[c] == 0 || lo <= sizes[c] <= hi
    ensures forall c :: 0 <= c < |RangesFrom(sizes, start)| ==>
      lo <= RangesFrom(sizes, start)[c].1 - RangesFrom(sizes, start)[c].0 <= hi
    decreases |sizes|
  {
    if sizes != [] {
      RangesFromLengths(sizes[1..], start + sizes[0], lo, hi);
    }
  }

  /** With the first p sizes positive and the rest zero there are p ranges. */
  lemma {:induction false} RangesFromCount(sizes: seq<nat>, start: int, p: nat)
    requires p <= |sizes|
    requires forall c :: 0 <= c < p ==> sizes[c] >= 1
    requires forall c :: p <= c < |sizes| ==> sizes[c] == 0
    ensures |RangesFrom(sizes, start)| == p
    decreases |sizes|
  {
    if sizes != [] {
      RangesFromCount(sizes[1..], start + sizes[0], if p > 0 then p - 1 else 0);
    }
  }

  lemma {:induction false} TilesBounds(rs: seq<(int, int)>, lo: int, hi: int)
    requires Tiles(rs, lo, hi)
    ensures lo <= hi
    ensures forall c :: 0 <= c < |rs| ==> lo <= rs[c].0 < rs[c].1 <= hi
    ensures forall c :: 0 <= c < |rs| - 1 ==> rs[c].1 == rs[c + 1].0
    decreases |rs|
  {
    if rs != [] {
      TilesBounds(rs[1..], rs[0].1, hi);
    }
  }

  ghost predicate InBounds(rs: seq<(int, int)>, n: int)
  {
    forall c :: 0 <= c < |rs| ==> 0 <= rs[c].0 <= rs[c].1 <= n
  }

  /** The pieces of `s` that the ranges select. */
  function Pieces<T>(s: seq<T>, rs: seq<(int, int)>): (ps: seq<seq<T>>)
    requires InBounds(rs, |s|)
    ensures |ps| == |rs|
  {
    seq(|rs|, c requires 0 <= c < |rs| => s[rs[c].0..rs[c].1])
  }

  lemma PiecesCons<T>(s: seq<T>, rs: seq<(int, int)>)
    requires InBounds(rs, |s|) && rs != []
    ensures InBounds(rs[1..], |s|)
    ensures Pieces(s, rs) == [s[rs[0].0..rs[0].1]] + Pieces(s, rs[1..])
  {
    var ps := Pieces(s, rs);
    var qs := [s[rs[0].0..rs[0].1]] + Pieces(s, rs[1..]);
    forall c | 0 <= c < |rs| ensures ps[c] == qs[c] {
      if c > 0 {
        assert rs[1..][c - 1] == rs[c];
      }
    }
  }

  /** Concatenating the pieces of `s` that tiling ranges select gives back the
      tiled part of `s`. */
  lemma {:induction false} TilesFlatten<T>(s: seq<T>, rs: seq<(int, int)>, lo: int, hi: int)
    requires Tiles(rs, lo, hi) && 0 <= lo && hi <= |s|
    ensures lo <= hi
    ensures InBounds(rs, |s|)
    ensures Flatten(Pieces(s, rs)) == s[lo..hi]
    decreases |rs|
  {
    TilesBounds(rs, lo, hi);
    if rs != [] {
      var rest := rs[1..];
      var m := rs[0].1;
      TilesFlatten(s, rest, m, hi);
      assert Pieces(s, rs) == [s[lo..m]] + Pieces(s, rest) by {
        PiecesCons(s, rs);
      }
      FlattenCons(s[lo..m], Pieces(s, rest));
      SliceConcat(s, lo, m, hi);
    }
  }

  /** The groups of each chunk, chunk by chunk. */
  function ChunkGroups<R>(cs: seq<GroupedArray<R>>): (gss: seq<seq<seq<R>>>)
    requires forall c :: 0 <= c < |cs| ==> Valid(cs[c])
    ensures |gss| == |cs|
  {
    seq(|cs|, c requires 0 <= c < |cs| => GroupsOf(cs[c]))
  }

  /** Chunk c holds exactly the groups of range c, in order. */
  lemma SplitChunkGroups<R>(ga: GroupedArray<R>, n: int)
    requires Valid(ga) && n >= 1
    ensures InBounds(ChunkRanges(NGroups(ga), n), NGroups(ga))
    ensures ChunkGroups(Split(ga, n).value) == Pieces(GroupsOf(ga), ChunkRanges(NGroups(ga), n))
  {
    var rs := ChunkRanges(NGroups(ga), n);
    ChunkRangesFacts(NGroups(ga), n);
    var cs := Split(ga, n).value;
    forall c | 0 <= c < |cs| ensures GroupsOf(cs[c]) == GroupsOf(ga)[rs[c].0..rs[c].1] {
      assert cs[c] == SliceStore(ga, rs[c].0, rs[c].1).value;
      SliceGroups(ga, rs[c].0, rs[c].1);
    }
  }

  /** Splitting loses and reorders nothing: the chunks' groups in chunk order
      are the store's groups, their buffers laid end to end are the store's
      buffer, and the store rebuilt from the chunks' groups has the original
      offsets as well. */
  lemma SplitRoundTrip<R>(ga: GroupedArray<R>, n: int)
    requires Valid(ga) && n >= 1
    ensures Flatten(ChunkGroups(Split(ga, n).value)) == GroupsOf(ga)
    ensures var cs := Split(ga, n).value;
      Flatten(seq(|cs|, c requires 0 <= c < |cs| => cs[c].data)) == ga.data
    ensures FromGroups(Flatten(ChunkGroups(Split(ga, n).value))) == ga
  {
    SplitGroupsRoundTrip(ga, n);
    GroupsDetermineStore(ga);
    var cs := Split(ga, n).value;
    var gss := ChunkGroups(cs);
    var datas := seq(|cs|, c requires 0 <= c < |cs| => cs[c].data);
    assert datas == seq(|gss|, c requires 0 <= c < |gss| => Flatten(gss[c])) by {
      forall c | 0 <= c < |cs| ensures datas[c] == Flatten(gss[c]) {
        GroupsDetermineStore(cs[c]);
      }
    }
    FlattenFlatten(gss);
  }

  lemma SplitGroupsRoundTrip<R>(ga: GroupedArray<R>, n: int)
    requires Valid(ga) && n >= 1
    ensures Flatten(ChunkGroups(Split(ga, n).value)) == GroupsOf(ga)
  {
    var rs := ChunkRanges(NGroups(ga), n);
    ChunkRangesFacts(NGroups(ga), n);
    SplitChunkGroups(ga, n);
    TilesFlatten(GroupsOf(ga), rs, 0, NGroups(ga));
    assert GroupsOf(ga)[0..NGroups(ga)] == GroupsOf(ga);
  }
}
