/** Decoded JSON values as the Python code sees them after `resp.json()`,
    with the few Python operations the projections apply to them: truth
    value, `dict.get`, indexing and `sum`. Floating-point numbers are not
    part of this model. */
module Json {
  import opened Wrappers

  /** A decoded JSON value. An object keeps its keys in insertion order, as
      a Python `dict` does. */
  datatype Json =
    | JNull
    | JBool(b: bool)
    | JInt(i: int)
    | JStr(s: string)
    | JList(items: seq<Json>)
    | JObj(fields: seq<(string, Json)>)

  /** The outcome of evaluating a Python expression that may raise. */
  datatype Eval<+T> = Value(v: T) | Raised

  /** Python's `bool(x)` for a decoded JSON value. */
  predicate Truthy(j: Json) {
    match j
    case JNull => false
    case JBool(b) => b
    case JInt(i) => i != 0
    case JStr(s) => s != []
    case JList(items) => items != []
    case JObj(fields) => fields != []
  }

  /** The keys of an insertion-ordered dictionary, in order. */
  function Keys<V>(d: seq<(string, V)>): (ks: seq<string>)
    ensures |ks| == |d|
    ensures forall i :: 0 <= i < |d| ==> ks[i] == d[i].0
  {
    if d == [] then [] else [d[0].0] + Keys(d[1..])
  }

  /** A Python dict never holds the same key twice. */
  predicate DistinctKeys<V>(d: seq<(string, V)>) {
    forall i, j :: 0 <= i < j < |d| ==> d[i].0 != d[j].0
  }

  /** `d[k]` if `k` is a key of `d`, `None` otherwise. */
  function Lookup<V>(d: seq<(string, V)>, k: string): (r: Option<V>)
    ensures r.None? <==> k !in Keys(d)
    ensures r.Some? ==> exists i :: 0 <= i < |d| && d[i] == (k, r.value)
    ensures DistinctKeys(d) ==> forall i :: 0 <= i < |d| && d[i].0 == k ==> r == Some(d[i].1)
  {
    if d == [] then None
    else if d[0].0 == k then Some(d[0].1)
    else
      var r := Lookup(d[1..], k);
      assert forall i :: 0 < i < |d| ==> d[1..][i - 1] == d[i];
      r
  }

  /** Python's `x.get(k, default)`: an object answers with the value under
      `k` or `default`; any other value has no `get` and raises. */
  function Get(x: Json, k: string, default: Json): (r: Eval<Json>)
    ensures r.Raised? <==> !x.JObj?
    ensures x.JObj? && k !in Keys(x.fields) ==> r == Value(default)
  {
    match x
    case JObj(fields) => Value(Lookup(fields, k).GetOr(default))
    case _ => Raised
  }

  /** Python's `x[k]` with an integer index: a list or a string answers
      when `k` is in range; anything else raises. */
  function At(x: Json, k: nat): (r: Eval<Json>)
    ensures x.JList? && k < |x.items| ==> r == Value(x.items[k])
    ensures r.Raised? <==> !((x.JList? && k < |x.items|) || (x.JStr? && k < |x.s|))
  {
    match x
    case JList(items) => if k < |items| then Value(items[k]) else Raised
    case JStr(s) => if k < |s| then Value(JStr([s[k]])) else Raised
    case _ => Raised
  }

  /** A term Python's `sum` can add: an int, or a bool counted as 0 or 1. */
  function Summand(x: Json): Eval<int> {
    match x
    case JInt(i) => Value(i)
    case JBool(b) => Value(if b then 1 else 0)
    case _ => Raised
  }

  /** Python's `sum(items)`: raises as soon as one term is not a number. */
  function SumItems(items: seq<Json>): (r: Eval<int>)
    ensures r.Raised? <==> exists i :: 0 <= i < |items| && Summand(items[i]).Raised?
  {
    if items == [] then Value(0)
    else
      var head := Summand(items[0]);
      var rest := SumItems(items[1..]);
      assert forall i :: 0 < i < |items| ==> items[1..][i - 1] == items[i];
      if head.Raised? || rest.Raised? then Raised else Value(head.v + rest.v)
  }

  /** The integers of a list of JSON integers. */
  function Ints(xs: seq<int>): (r: seq<Json>)
    ensures |r| == |xs| && forall i :: 0 <= i < |xs| ==> r[i] == JInt(xs[i])
  {
    seq(|xs|, i requires 0 <= i < |xs| => JInt(xs[i]))
  }

  function Total(xs: seq<int>): int {
    if xs == [] then 0 else xs[0] + Total(xs[1..])
  }

  /** Summing a list of JSON integers gives their arithmetic total. */
  lemma {:induction false} SumOfInts(xs: seq<int>)
    ensures SumItems(Ints(xs)) == Value(Total(xs))
  {
    if xs != [] {
      assert Ints(xs)[1..] == Ints(xs[1..]);
      SumOfInts(xs[1..]);
    }
  }
}
