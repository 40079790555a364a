/** A registered forecasting callable, with what the source reads off it
    by introspection made explicit: its name, the declared parameters after
    (series, horizon, exogenous), and whether it declares `level`. The
    forecasting itself is opaque: two total functions, one per calling mode. */
module Models {
  import opened Wrappers

  /** A declared parameter; `default` is None when it has no default. */
  datatype Param<A> = Param(name: string, default: Option<A>)

  /** func(y, h, xreg, *args) in point mode. */
  type PointFn<!R, !A, V> = (seq<R>, nat, Option<seq<R>>, seq<A>) -> seq<V>

  /** A dict from names to series, in insertion order. */
  type Named<V> = seq<(string, seq<V>)>

  /** func(y, h, xreg, *args, level=level): named series in insertion order. */
  type IntervalFn<!R, !A, V> = (seq<R>, nat, Option<seq<R>>, seq<A>, seq<int>) -> Named<V>

  /** `list(d.keys())`. */
  function KeyList<V>(d: Named<V>): (ks: seq<string>)
    ensures |ks| == |d| && forall j :: 0 <= j < |d| ==> ks[j] == d[j].0
  {
    seq(|d|, j requires 0 <= j < |d| => d[j].0)
  }

  /** `d[key]`, None where it raises KeyError; the first entry wins. */
  function Lookup<V>(d: Named<V>, key: string): Option<seq<V>>
  {
    if d == [] then None
    else if d[0].0 == key then Some(d[0].1)
    else Lookup(d[1..], key)
  }

  /** `d[key]` succeeds exactly for the keys `d` lists, and returns a series
      stored under that key. */
  lemma {:induction false} LookupKeys<V>(d: Named<V>, key: string)
    ensures Lookup(d, key).Some? <==> key in KeyList(d)
    ensures Lookup(d, key).Some? ==> (key, Lookup(d, key).value) in d
    decreases |d|
  {
    if d != [] && d[0].0 != key {
      LookupKeys(d[1..], key);
      assert KeyList(d) == [d[0].0] + KeyList(d[1..]);
    }
  }

  datatype Callable<!R, !A, V> = Callable(
    name: string,
    params: seq<Param<A>>,
    acceptsLevel: bool,
    point: PointFn<R, A, V>,
    interval: IntervalFn<R, A, V>)
}
