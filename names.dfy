/** The small helpers of statsforecast/core.py: the display name of a model
    with its arguments (`_build_forecast_name`), `_as_tuple`, and the
    worker-count rule of `_get_n_jobs`. */
module Names {
  import opened Wrappers
  import opened Models

  /** `f'{name}-{value}'` for one changed argument; `show` is Python's
      `str` on argument values. */
  function Entry<A>(p: Param<A>, value: A, show: A -> string): string
  {
    p.name + "-" + show(value)
  }

  /** `zip(args, func_args)` stops at the shorter of the two. */
  function Paired<A>(params: seq<Param<A>>, args: seq<A>): nat
  {
    if |params| < |args| then |params| else |args|
  }

  /** `arg.default != value`: a parameter without a default differs from
      every value. */
  predicate Differs<A(==)>(params: seq<Param<A>>, args: seq<A>, k: int)
    requires 0 <= k < |params| && k < |args|
  {
    params[k].default != Some(args[k])
  }

  /** The positions, from k on, of the arguments that differ from their
      defaults, in argument order. */
  function DiffsFrom<A(==)>(params: seq<Param<A>>, args: seq<A>, k: nat): (ds: seq<nat>)
    decreases |args| - k
  {
    if k >= Paired(params, args) then []
    else if Differs(params, args, k) then [k] + DiffsFrom(params, args, k + 1)
    else DiffsFrom(params, args, k + 1)
  }

  /** `'_'.join(parts)`. */
  function Join(sep: string, parts: seq<string>): string
  {
    if parts == [] then "" else if |parts| == 1 then parts[0] else parts[0] + sep + Join(sep, parts[1..])
  }

  /** `changed_params`: one `name-value` entry per differing argument. */
  function ChangedParams<A(==)>(params: seq<Param<A>>, args: seq<A>, show: A -> string): (cs: seq<string>)
  {
    var ds := DiffsFrom(params, args, 0);
    seq(|ds|, m requires 0 <= m < |ds| =>
      DiffsBelow(params, args, 0, m);
      Entry(params[ds[m]], args[ds[m]], show))
  }

  /** `_build_forecast_name(model, *args)`: the model's name, followed by
      `_` and the changed parameters joined by `_` when there are any. */
  function ForecastName<A(==)>(model: string, params: seq<Param<A>>, args: seq<A>, show: A -> string): string
  {
    var changed := ChangedParams(params, args, show);
    if changed != [] then model + "_" + Join("_", changed) else model
  }

  /** The positions listed from k on lie in [k, Paired). */
  lemma {:induction false} DiffsBelow<A>(params: seq<Param<A>>, args: seq<A>, k: nat, m: int)
    requires 0 <= m < |DiffsFrom(params, args, k)|
    ensures k <= DiffsFrom(params, args, k)[m] < Paired(params, args)
    decreases |args| - k
  {
    var ds := DiffsFrom(params, args, k);
    if Differs(params, args, k) {
      if m > 0 {
        DiffsBelow(params, args, k + 1, m - 1);
      }
    } else {
      DiffsBelow(params, args, k + 1, m);
    }
  }

  /** The listed positions are exactly the differing ones from k on, and
      they are listed in increasing order. */
  lemma {:induction false} DiffsFromExact<A>(params: seq<Param<A>>, args: seq<A>, k: nat)
    ensures forall p :: p in DiffsFrom(params, args, k) <==>
      k <= p < Paired(params, args) && Differs(params, args, p)
    ensures forall a, b :: 0 <= a < b < |DiffsFrom(params, args, k)| ==>
      DiffsFrom(params, args, k)[a] < DiffsFrom(params, args, k)[b]
    decreases |args| - k
  {
    if k < Paired(params, args) {
      DiffsFromExact(params, args, k + 1);
      var rest := DiffsFrom(params, args, k + 1);
      if Differs(params, args, k) {
        forall b | 0 <= b < |rest| ensures k < rest[b] {
          assert rest[b] in rest;
        }
      }
    }
  }

  /** The name is the bare model name exactly when every passed argument
      equals its declared default. */
  lemma BareNameIffDefaults<A>(model: string, params: seq<Param<A>>, args: seq<A>, show: A -> string)
    ensures ForecastName(model, params, args, show) == model
        <==> forall k :: 0 <= k < Paired(params, args) ==> params[k].default == Some(args[k])
  {
    DiffsFromExact(params, args, 0);
    var ds := DiffsFrom(params, args, 0);
    if ds != [] {
      DiffsBelow(params, args, 0, 0);
      assert ds[0] in ds;
      assert |ForecastName(model, params, args, show)| > |model|;
    } else {
      forall k | 0 <= k < Paired(params, args) ensures params[k].default == Some(args[k]) {
        assert k !in ds;
      }
    }
  }

  /** Otherwise the suffix lists, in argument order, an entry for exactly
      the arguments that differ from their defaults. */
  lemma ChangedParamsExact<A>(params: seq<Param<A>>, args: seq<A>, show: A -> string)
    ensures |ChangedParams(params, args, show)| == |DiffsFrom(params, args, 0)|
    ensures forall m :: 0 <= m < |DiffsFrom(params, args, 0)| ==>
      DiffsFrom(params, args, 0)[m] < Paired(params, args)
      && ChangedParams(params, args, show)[m]
         == Entry(params[DiffsFrom(params, args, 0)[m]], args[DiffsFrom(params, args, 0)[m]], show)
    ensures forall p :: p in DiffsFrom(params, args, 0) <==> 0 <= p < Paired(params, args) && Differs(params, args, p)
    ensures forall a, b :: 0 <= a < b < |DiffsFrom(params, args, 0)| ==>
      DiffsFrom(params, args, 0)[a] < DiffsFrom(params, args, 0)[b]
  {
    DiffsFromExact(params, args, 0);
    forall m | 0 <= m < |DiffsFrom(params, args, 0)| ensures DiffsFrom(params, args, 0)[m] < Paired(params, args) {
      DiffsBelow(params, args, 0, m);
    }
  }

  /** Setting an argument back to its default removes its entry and keeps
      every other one. */
  lemma ResetRemovesEntry<A>(params: seq<Param<A>>, args: seq<A>, k: nat, d: A)
    requires k < |params| && k < |args| && params[k].default == Some(d)
    ensures k !in DiffsFrom(params, args[k := d], 0)
    ensures forall p :: p != k ==> (p in DiffsFrom(params, args[k := d], 0) <==> p in DiffsFrom(params, args, 0))
  {
    DiffsFromExact(params, args, 0);
    DiffsFromExact(params, args[k := d], 0);
  }

  /** A Python value as `_as_tuple` sees it: a tuple or anything else. */
  datatype PyValue<T> = Atom(x: T) | Tuple(items: seq<T>)

  /** `_as_tuple(x)`: a tuple is returned unchanged, any other value is
      wrapped in a one-element tuple. */
  function AsTuple<T>(v: PyValue<T>): (t: seq<T>)
    ensures v.Tuple? ==> t == v.items
    ensures v.Atom? ==> t == [v.x]
  {
    match v
    case Atom(x) => [x]
    case Tuple(items) => items
  }

  /** `model, *args = t`: the first item and the rest; unpacking the empty
      tuple raises ValueError. */
  function Unpack<T>(t: seq<T>): (r: Result<(T, seq<T>)>)
    ensures r.Err? <==> t == []
    ensures r.Err? ==> r.error == ValueError
    ensures r.Ok? ==> [r.value.0] + r.value.1 == t
  {
    if t == [] then Err(ValueError) else Ok((t[0], t[1..]))
  }

  /** A bare value unpacks to itself with no arguments; a tuple unpacks to
      its first item and the rest, and fails exactly when it is empty;
      `_as_tuple` leaves its own result unchanged. */
  lemma AsTupleUnpack<T>(v: PyValue<T>)
    ensures v.Atom? ==> Unpack(AsTuple(v)) == Ok((v.x, []))
    ensures v.Tuple? ==> (Unpack(AsTuple(v)).Err? <==> v.items == [])
    ensures v.Tuple? && v.items != [] ==> Unpack(AsTuple(v)) == Ok((v.items[0], v.items[1..]))
    ensures AsTuple(Tuple(AsTuple(v))) == AsTuple(v)
  {
  }

  /** The worker count asked for: `n_jobs`, or `cpu_count()` for -1 or None. */
  function Requested(nJobs: Option<int>, cpuCount: nat): int
  {
    if nJobs.None? || nJobs.value == -1 then cpuCount else nJobs.value
  }

  /** `_get_n_jobs` without a ray address: never more workers than groups
      nor than asked for, and one of the two. */
  function NJobs(nGroups: int, nJobs: Option<int>, cpuCount: nat): (r: int)
    ensures r <= nGroups && r <= Requested(nJobs, cpuCount)
    ensures r == nGroups || r == Requested(nJobs, cpuCount)
  {
    var actual := Requested(nJobs, cpuCount);
    if nGroups < actual then nGroups else actual
  }
}
