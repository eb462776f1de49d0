/** The row projections that both the standalone bridge (`_process_*` in
    clublog-ha-bridge.py) and the integration's sensors (`attr_fn` in
    sensor.py) apply to decoded ClubLog responses: the first twenty
    expeditions or livestreams reduced to a few named columns, the first
    ten most-wanted entries, and the per-band activity totals. */
module Projections {
  import opened Json

  /** At most this many expeditions or livestreams appear in attributes. */
  const RowLimit := 20

  /** `top_10` holds at most this many most-wanted entries. */
  const TopLimit := 10

  function Min(a: nat, b: nat): nat {
    if a <= b then a else b
  }

  /** An attribute name and the list position it is read from. */
  datatype Column = Column(name: string, index: nat)

  /** `{"call": e[0], "date": e[1], "qso_count": e[2]}`. */
  const ExpeditionColumns: seq<Column> := [Column("call", 0), Column("date", 1), Column("qso_count", 2)]

  /** `{"call": s[0], "dxcc": s[1], "url": s[3]}`: position 2 is skipped. */
  const LivestreamColumns: seq<Column> := [Column("call", 0), Column("dxcc", 1), Column("url", 3)]

  /** The dict display for one row: `{name: x[index], ...}`. */
  function Row(x: Json, cols: seq<Column>): Eval<seq<(string, Json)>> {
    if cols == [] then Value([])
    else
      var head := At(x, cols[0].index);
      var rest := Row(x, cols[1..]);
      if head.Raised? || rest.Raised? then Raised
      else Value([(cols[0].name, head.v)] + rest.v)
  }

  /** A row raises as soon as one position is missing, and otherwise holds
      one entry per column, in order. */
  lemma {:induction false} RowShape(x: Json, cols: seq<Column>)
    ensures var r := Row(x, cols);
            && (r.Value? <==> forall i :: 0 <= i < |cols| ==> At(x, cols[i].index).Value?)
            && (r.Value? ==> |r.v| == |cols|
                             && forall i :: 0 <= i < |cols| ==> r.v[i] == (cols[i].name, At(x, cols[i].index).v))
  {
    if cols != [] {
      RowShape(x, cols[1..]);
      assert forall i :: 0 < i < |cols| ==> cols[1..][i - 1] == cols[i];
    }
  }

  /** The list comprehension over `xs`: it raises when some row does, and
      otherwise keeps one row per element, in order. */
  function Rows(xs: seq<Json>, cols: seq<Column>): (r: Eval<seq<Json>>)
    ensures r.Value? <==> forall i :: 0 <= i < |xs| ==> Row(xs[i], cols).Value?
    ensures r.Value? ==> |r.v| == |xs|
    ensures r.Value? ==> forall i :: 0 <= i < |xs| ==> r.v[i] == JObj(Row(xs[i], cols).v)
  {
    if xs == [] then Value([])
    else
      var head := Row(xs[0], cols);
      var rest := Rows(xs[1..], cols);
      assert forall i :: 0 < i < |xs| ==> xs[1..][i - 1] == xs[i];
      if head.Raised? || rest.Raised? then Raised
      else Value([JObj(head.v)] + rest.v)
  }

  /** `[... for e in xs[:20]] if xs else []`. */
  function FirstRows(xs: seq<Json>, cols: seq<Column>): Eval<seq<Json>> {
    if xs == [] then Value([]) else Rows(xs[..Min(RowLimit, |xs|)], cols)
  }

  /** The rows describe the first `min(20, n)` elements, in order, each
      reduced to the given columns; nothing past the twentieth element is
      ever read, so it cannot make the projection raise. */
  lemma FirstRowsShape(xs: seq<Json>, cols: seq<Column>)
    ensures var r := FirstRows(xs, cols);
            && (r.Value? <==> forall i :: 0 <= i < Min(RowLimit, |xs|) ==> Row(xs[i], cols).Value?)
            && (r.Value? ==> |r.v| == Min(RowLimit, |xs|)
                             && forall i :: 0 <= i < |r.v| ==> r.v[i] == JObj(Row(xs[i], cols).v))
  {
    if xs != [] {
      var p := xs[..Min(RowLimit, |xs|)];
      assert forall i :: 0 <= i < |p| ==> p[i] == xs[i];
    }
  }

  /** Rows past the twentieth never change the projection. */
  lemma FirstRowsIgnoresTail(xs: seq<Json>, more: seq<Json>, cols: seq<Column>)
    requires |xs| >= RowLimit
    ensures FirstRows(xs + more, cols) == FirstRows(xs, cols)
  {
    assert (xs + more)[..RowLimit] == xs[..RowLimit];
  }

  /** `dict(list(d.items())[:10])`: the first ten entries in insertion
      order. */
  function TopTen(d: seq<(string, Json)>): (r: seq<(string, Json)>)
    ensures |r| == Min(TopLimit, |d|)
    ensures r <= d
  {
    d[..Min(TopLimit, |d|)]
  }

  /** `"Yes" if flag else "No"`. */
  function YesNo(b: bool): string {
    if b then "Yes" else "No"
  }

  /** `sum(hours) if isinstance(hours, list) else hours`. */
  function BandTotal(hours: Json): Eval<Json> {
    if hours.JList? then
      var t := SumItems(hours.items);
      if t.Raised? then Raised else Value(JInt(t.v))
    else Value(hours)
  }

  /** `{f"band_{band}": ... for band, hours in activity.items()}`. */
  function BandTotals(activity: seq<(string, Json)>): (r: Eval<seq<(string, Json)>>)
    ensures r.Value? <==> forall i :: 0 <= i < |activity| ==> BandTotal(activity[i].1).Value?
    ensures r.Value? ==> |r.v| == |activity|
    ensures r.Value? ==> forall i :: 0 <= i < |activity| ==>
                           r.v[i] == ("band_" + activity[i].0, BandTotal(activity[i].1).v)
  {
    if activity == [] then Value([])
    else
      var head := BandTotal(activity[0].1);
      var rest := BandTotals(activity[1..]);
      assert forall i :: 0 < i < |activity| ==> activity[1..][i - 1] == activity[i];
      if head.Raised? || rest.Raised? then Raised
      else Value([("band_" + activity[0].0, head.v)] + rest.v)
  }

  lemma PrefixCancels(p: string, a: string, b: string)
    requires p + a == p + b
    ensures a == b
  {
    assert forall i :: 0 <= i < |a| ==> a[i] == (p + a)[|p| + i];
  }

  /** Distinct bands give distinct attribute names, so the comprehension
      keeps one entry per band. */
  lemma BandKeysDistinct(activity: seq<(string, Json)>)
    requires DistinctKeys(activity) && BandTotals(activity).Value?
    ensures DistinctKeys(BandTotals(activity).v)
  {
    var r := BandTotals(activity).v;
    forall i, j | 0 <= i < j < |r| ensures r[i].0 != r[j].0 {
      if r[i].0 == r[j].0 {
        PrefixCancels("band_", activity[i].0, activity[j].0);
      }
    }
  }

  /** A band given as a list of hours reports their sum; a single number
      passes through unchanged. */
  lemma BandTotalOfHours(hours: seq<int>, n: int)
    ensures BandTotal(JList(Ints(hours))) == Value(JInt(Total(hours)))
    ensures BandTotal(JInt(n)) == Value(JInt(n))
  {
    SumOfInts(hours);
  }
}
