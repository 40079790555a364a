/** Python's slicing and indexing of sequences, concatenation of a
    sequence of sequences (numpy's hstack / vstack / flatten of blocks), and
    slice assignment into a buffer filled block by block. */
module Seqs {
  import opened Wrappers

  /** Position a slice bound `i` denotes in a sequence of length `n`:
      negative bounds count from the end, then the bound is clamped to [0, n]. */
  function Bound(i: int, n: nat): (b: nat)
    ensures b <= n
    ensures 0 <= i <= n ==> b == i
    ensures i < 0 && 0 <= i + n ==> b == n + i
  {
    if i < 0 then (if i + n < 0 then 0 else i + n) else if i > n then n else i
  }

  function Lo<T>(s: seq<T>, start: Option<int>): nat {
    if start.Some? then Bound(start.value, |s|) else 0
  }

  function Hi<T>(s: seq<T>, stop: Option<int>): nat {
    if stop.Some? then Bound(stop.value, |s|) else |s|
  }

  /** `s[start:stop]` with step 1; `None` is an omitted bound. */
  function PySlice<T>(s: seq<T>, start: Option<int>, stop: Option<int>): (r: seq<T>)
    ensures Lo(s, start) < Hi(s, stop) ==> r == s[Lo(s, start)..Hi(s, stop)]
    ensures Hi(s, stop) <= Lo(s, start) ==> r == []
  {
    if Lo(s, start) < Hi(s, stop) then s[Lo(s, start)..Hi(s, stop)] else []
  }

  lemma PySliceInRange<T>(s: seq<T>, a: int, b: int)
    requires 0 <= a <= b <= |s|
    ensures PySlice(s, Some(a), Some(b)) == s[a..b]
  {
  }

  /** A slice of a slice is a slice of the original. */
  lemma SliceOfSlice<T>(s: seq<T>, lo: int, hi: int, a: int, b: int)
    requires 0 <= lo <= hi <= |s| && 0 <= a <= b <= hi - lo
    ensures s[lo..hi][a..b] == s[lo + a..lo + b]
  {
    var t := s[lo..hi];
    forall j | 0 <= j < b - a
      ensures t[a..b][j] == s[lo + a..lo + b][j]
    {
      assert t[a..b][j] == t[a + j] == s[lo + a + j];
    }
  }

  /** Adjacent slices join into one. */
  lemma SliceConcat<T>(s: seq<T>, lo: int, mid: int, hi: int)
    requires 0 <= lo <= mid <= hi <= |s|
    ensures s[lo..mid] + s[mid..hi] == s[lo..hi]
  {
    var t := s[lo..mid] + s[mid..hi];
    forall j | 0 <= j < hi - lo
      ensures t[j] == s[lo..hi][j]
    {
      if j < mid - lo {
        assert t[j] == s[lo + j];
      } else {
        assert t[j] == s[mid..hi][j - (mid - lo)] == s[lo + j];
      }
    }
  }

  /** `s[i]` for an integer i: negative indices count from the end. */
  function PyIndex<T>(s: seq<T>, i: int): (r: Result<T>)
    ensures r.Ok? <==> -|s| <= i < |s|
    ensures 0 <= i < |s| ==> r == Ok(s[i])
    ensures -|s| <= i < 0 ==> r == Ok(s[|s| + i])
  {
    if 0 <= i < |s| then Ok(s[i])
    else if -|s| <= i < 0 then Ok(s[|s| + i])
    else Err(IndexError)
  }

  /** A sequence is its elements before i, element i and those after. */
  lemma Decompose<T>(s: seq<T>, i: nat)
    requires i < |s|
    ensures s == s[..i] + [s[i]] + s[i + 1..]
  {
  }

  /** The blocks of `ss` laid end to end. */
  function Flatten<T>(ss: seq<seq<T>>): seq<T>
  {
    if ss == [] then [] else Flatten(ss[..|ss| - 1]) + ss[|ss| - 1]
  }

  lemma {:induction false} FlattenAppend<T>(a: seq<seq<T>>, b: seq<seq<T>>)
    ensures Flatten(a + b) == Flatten(a) + Flatten(b)
    decreases |b|
  {
    if b == [] {
      assert a + b == a;
    } else {
      var b' := b[..|b| - 1];
      assert (a + b)[..|a + b| - 1] == a + b';
      FlattenAppend(a, b');
    }
  }

  lemma FlattenCons<T>(x: seq<T>, rest: seq<seq<T>>)
    ensures Flatten([x] + rest) == x + Flatten(rest)
  {
    FlattenAppend([x], rest);
    assert [x][..0] == [];
  }

  /** Blocks of a common length h: the flattening has h * |ss| elements. */
  lemma {:induction false} FlattenUniform<T>(ss: seq<seq<T>>, h: nat)
    requires forall i :: 0 <= i < |ss| ==> |ss[i]| == h
    ensures |Flatten(ss)| == h * |ss|
  {
    if ss != [] {
      var n := |ss| - 1;
      FlattenUniform(ss[..n], h);
      assert h * |ss| == h * n + h;
    }
  }

  /** Element h * i + k of the flattening is element k of block i. */
  lemma {:induction false} FlattenUniformAt<T>(ss: seq<seq<T>>, h: nat, i: nat, k: nat)
    requires forall j :: 0 <= j < |ss| ==> |ss[j]| == h
    requires i < |ss| && k < h
    ensures 0 <= h * i + k < |Flatten(ss)|
    ensures Flatten(ss)[h * i + k] == ss[i][k]
    decreases |ss|
  {
    var n := |ss| - 1;
    var init := ss[..n];
    FlattenUniform(init, h);
    FlattenUniform(ss, h);
    assert Flatten(ss) == Flatten(init) + ss[n];
    if i < n {
      BlockBefore(h, i, k, n);
      FlattenUniformAt(init, h, i, k);
      assert init[i] == ss[i];
    } else {
      assert h * i + k == h * n + k;
    }
  }

  /** Flattening blocks of blocks of a common shape keeps the inner
      blocks' common length. */
  lemma {:induction false} FlattenKeepsUniform<T>(per: seq<seq<seq<T>>>, nw: nat, h: nat)
    requires forall i :: 0 <= i < |per| ==> |per[i]| == nw
    requires forall i, w :: 0 <= i < |per| && 0 <= w < nw ==> |per[i][w]| == h
    ensures forall b :: 0 <= b < |Flatten(per)| ==> |Flatten(per)[b]| == h
    decreases |per|
  {
    if per != [] {
      var n := |per| - 1;
      FlattenKeepsUniform(per[..n], nw, h);
      assert Flatten(per) == Flatten(per[..n]) + per[n];
    }
  }

  /** Element h * (nw * i + w) + k of the twice-flattened blocks is element
      k of block w of group i. */
  lemma FlattenTwiceAt<T>(per: seq<seq<seq<T>>>, nw: nat, h: nat, i: nat, w: nat, k: nat)
    requires forall i :: 0 <= i < |per| ==> |per[i]| == nw
    requires forall i, w :: 0 <= i < |per| && 0 <= w < nw ==> |per[i][w]| == h
    requires i < |per| && w < nw && k < h
    ensures |Flatten(Flatten(per))| == h * (nw * |per|)
    ensures 0 <= h * (nw * i + w) + k < |Flatten(Flatten(per))|
    ensures Flatten(Flatten(per))[h * (nw * i + w) + k] == per[i][w][k]
  {
    FlattenUniform(per, nw);
    FlattenUniformAt(per, nw, i, w);
    FlattenKeepsUniform(per, nw, h);
    FlattenUniform(Flatten(per), h);
    FlattenUniformAt(Flatten(per), h, nw * i + w, k);
  }

  /** The same position once every element is marked as written. */
  lemma LiftTwiceAt<T>(per: seq<seq<seq<T>>>, nw: nat, h: nat, i: nat, w: nat, k: nat)
    requires forall i :: 0 <= i < |per| ==> |per[i]| == nw
    requires forall i, w :: 0 <= i < |per| && 0 <= w < nw ==> |per[i][w]| == h
    requires i < |per| && w < nw && k < h
    ensures |Lift(Flatten(Flatten(per)))| == h * (nw * |per|)
    ensures 0 <= h * (nw * i + w) + k < |Lift(Flatten(Flatten(per)))|
    ensures Lift(Flatten(Flatten(per)))[h * (nw * i + w) + k] == Some(per[i][w][k])
  {
    FlattenTwiceAt(per, nw, h, i, w, k);
  }

  /** Element k of block i lies before block n when i < n. */
  lemma BlockBefore(h: nat, i: nat, k: nat, n: nat)
    requires i < n && k < h
    ensures h * i + k < h * n
    decreases n - i
  {
    assert h * (i + 1) == h * i + h;
    if i + 1 < n {
      BlockBefore(h, i + 1, k, n);
    }
  }

  /** Lengths add up under concatenation. */
  lemma {:induction false} FlattenLength<T>(ss: seq<seq<T>>, lens: seq<nat>)
    requires |lens| == |ss| && forall i :: 0 <= i < |ss| ==> |ss[i]| == lens[i]
    ensures |Flatten(ss)| == Sum(lens)
  {
    if ss != [] {
      FlattenLength(ss[..|ss| - 1], lens[..|lens| - 1]);
    }
  }

  function Sum(s: seq<nat>): nat
  {
    if s == [] then 0 else Sum(s[..|s| - 1]) + s[|s| - 1]
  }

  /** Flattening block-wise and then joining equals joining twice. */
  lemma {:induction false} FlattenFlatten<T>(xss: seq<seq<seq<T>>>)
    ensures Flatten(seq(|xss|, c requires 0 <= c < |xss| => Flatten(xss[c]))) == Flatten(Flatten(xss))
  {
    var lhs := seq(|xss|, c requires 0 <= c < |xss| => Flatten(xss[c]));
    if xss != [] {
      var n := |xss| - 1;
      var init := xss[..n];
      FlattenFlatten(init);
      assert lhs[..n] == seq(|init|, c requires 0 <= c < |init| => Flatten(init[c]));
      FlattenAppend(Flatten(init), xss[n]);
    }
  }

  /** Every element marked as written (numpy's NaN fill is `None`). */
  function Lift<T>(s: seq<T>): (r: seq<Option<T>>)
    ensures |r| == |s|
    ensures forall k :: 0 <= k < |s| ==> r[k] == Some(s[k])
  {
    seq(|s|, k requires 0 <= k < |s| => Some(s[k]))
  }

  /** Marking blocks as written and laying them end to end is laying them
      end to end and marking the result. */
  lemma {:induction false} FlattenLift<T>(xs: seq<seq<T>>)
    ensures Flatten(seq(|xs|, c requires 0 <= c < |xs| => Lift(xs[c]))) == Lift(Flatten(xs))
  {
    if xs != [] {
      var n := |xs| - 1;
      var ls := seq(|xs|, c requires 0 <= c < |xs| => Lift(xs[c]));
      FlattenLift(xs[..n]);
      assert ls[..n] == seq(n, c requires 0 <= c < n => Lift(xs[..n][c]));
      assert Lift(Flatten(xs[..n]) + xs[n]) == Lift(Flatten(xs[..n])) + Lift(xs[n]);
    }
  }

  /** `n` unwritten cells (numpy's NaN fill). */
  function Nones<V>(n: nat): (r: seq<Option<V>>)
    ensures |r| == n
  {
    seq(n, _ => None)
  }

  /** `out[start : start + len(vals)] = vals`. */
  method WriteRun<T>(out: array<T>, start: nat, vals: seq<T>)
    requires start + |vals| <= out.Length
    modifies out
    ensures out[..] == old(out[..])[..start] + vals + old(out[..])[start + |vals|..]
  {
    ghost var before := out[..];
    for k := 0 to |vals|
      invariant forall r :: 0 <= r < out.Length ==>
        out[r] == if start <= r < start + k then vals[r - start] else before[r]
    {
      out[start + k] := vals[k];
    }
    ghost var want := before[..start] + vals + before[start + |vals|..];
    forall r | 0 <= r < out.Length
      ensures out[r] == want[r]
    {
      if r < start {
        assert want[r] == before[r];
      } else if r < start + |vals| {
        assert want[r] == vals[r - start];
      } else {
        assert want[r] == before[r];
      }
    }
  }

  /** Writing block i into a buffer whose first i blocks are done and whose
      rest is unwritten leaves the first i + 1 blocks done. */
  lemma BlockStep<V>(outs: seq<seq<V>>, i: nat, pos: nat, buf: seq<Option<V>>)
    requires i < |outs| && pos == |Flatten(outs[..i])| <= |Flatten(outs)|
    requires buf == Lift(Flatten(outs[..i])) + Nones(|Flatten(outs)| - pos)
    ensures |Flatten(outs[..i + 1])| == pos + |outs[i]| <= |Flatten(outs)| == |buf|
    ensures buf[..pos] + Lift(outs[i]) + buf[pos + |outs[i]|..]
            == Lift(Flatten(outs[..i + 1])) + Nones(|Flatten(outs)| - (pos + |outs[i]|))
  {
    var pre := Flatten(outs[..i]);
    var h := |outs[i]|;
    assert outs[..i + 1][..i] == outs[..i];
    assert Flatten(outs[..i + 1]) == pre + outs[i];
    FlattenAppend(outs[..i + 1], outs[i + 1..]);
    assert outs[..i + 1] + outs[i + 1..] == outs;
    assert buf[..pos] == Lift(pre);
    assert buf[pos + h..] == Nones(|Flatten(outs)| - (pos + h));
    assert Lift(pre + outs[i]) == Lift(pre) + Lift(outs[i]);
  }

  lemma FlattenSplitAt<T>(gs: seq<seq<T>>, i: nat)
    requires i < |gs|
    ensures Flatten(gs) == Flatten(gs[..i]) + gs[i] + Flatten(gs[i + 1..])
  {
    var a, b := gs[..i], gs[i + 1..];
    Decompose(gs, i);
    FlattenAppend(a + [gs[i]], b);
    FlattenAppend(a, [gs[i]]);
    assert Flatten([gs[i]]) == gs[i] by { assert [gs[i]][..0] == []; }
  }

  /** Element w of block i sits right after the blocks before i. */
  lemma FlattenAt<T>(ss: seq<seq<T>>, i: nat, w: nat)
    requires i < |ss| && w < |ss[i]|
    ensures |Flatten(ss[..i])| + w < |Flatten(ss)|
    ensures Flatten(ss)[|Flatten(ss[..i])| + w] == ss[i][w]
  {
    FlattenSplitAt(ss, i);
  }

  /** The first i + 1 blocks are the first i followed by block i. */
  lemma FlattenStep<T>(ss: seq<seq<T>>, i: nat)
    requires i < |ss|
    ensures Flatten(ss[..i + 1]) == Flatten(ss[..i]) + ss[i]
    ensures |Flatten(ss[..i + 1])| <= |Flatten(ss)|
  {
    assert ss[..i + 1][..i] == ss[..i];
    FlattenAppend(ss[..i + 1], ss[i + 1..]);
    assert ss[..i + 1] + ss[i + 1..] == ss;
  }

  /** A buffer holding blocks 0 .. b-1 in its first `pos` cells and
      nothing written after them. */
  ghost predicate Written<V>(buf: seq<Option<V>>, blocks: seq<seq<V>>, b: nat, pos: nat)
  {
    b <= |blocks| && pos == |Flatten(blocks[..b])| <= |Flatten(blocks)|
    && buf == Lift(Flatten(blocks[..b])) + Nones(|Flatten(blocks)| - pos)
  }

  lemma WrittenStep<V>(buf: seq<Option<V>>, blocks: seq<seq<V>>, b: nat, pos: nat)
    requires Written(buf, blocks, b, pos) && b < |blocks|
    ensures pos + |blocks[b]| <= |buf|
    ensures Written(buf[..pos] + Lift(blocks[b]) + buf[pos + |blocks[b]|..], blocks, b + 1, pos + |blocks[b]|)
  {
    BlockStep(blocks, b, pos, buf);
  }

  lemma WrittenNone<V>(blocks: seq<seq<V>>)
    ensures Written(Nones(|Flatten(blocks)|), blocks, 0, 0)
  {
    assert blocks[..0] == [];
  }

  lemma WrittenAll<V>(buf: seq<Option<V>>, blocks: seq<seq<V>>, pos: nat)
    requires Written(buf, blocks, |blocks|, pos)
    ensures buf == Lift(Flatten(blocks))
  {
    assert blocks[..|blocks|] == blocks;
    assert pos == |Flatten(blocks)|;
    var none: seq<Option<V>> := Nones(0);
    assert none == [];
    assert buf == Lift(Flatten(blocks)) + none;
  }
}
