/** The integration's twelve sensors (custom_components/clublog/sensor.py):
    each description pairs a `value_fn` giving the state with an `attr_fn`
    giving the extra attributes, both read from the coordinator's data, and
    the entity answers None for both while that data is None. */
module Sensor {
  import opened Wrappers
  import opened Json
  import opened Projections
  import opened Health

  /** The fields of the coordinator's data that the sensors read. Every
      dict keeps its insertion order. `most_wanted` is read with
      `.items()`, so it is taken to be a dict of entity name to details. */
  datatype SensorData = SensorData(
    dxccWorkedTotal: int,
    dxccConfirmedTotal: int,
    dxccVerifiedTotal: int,
    expeditions: seq<Json>,
    mostWanted: seq<(string, Json)>,
    watch: seq<(string, Json)>,
    livestreams: seq<Json>,
    activity: seq<(string, Json)>,
    consecutiveErrors: seq<(string, int)>)

  /** One constructor per entry of `SENSOR_DESCRIPTIONS`, in order. */
  datatype SensorKey =
    | DxccWorkedTotal
    | DxccConfirmedTotal
    | DxccVerifiedTotal
    | ActiveExpeditions
    | MostWantedCount
    | WatchTotalQsos
    | WatchIsExpedition
    | WatchHasOqrs
    | WatchLastUpload
    | ActiveLivestreams
    | BandActivity
    | ApiConsecutiveErrors

  /** An attribute dict, in insertion order. */
  type Attrs = seq<(string, Json)>

  /** `watch.get("clublog_info", {})`. */
  function ClubLogInfo(watch: seq<(string, Json)>): Json {
    Lookup(watch, "clublog_info").GetOr(JObj([]))
  }

  /** `watch.get("clublog_info", {}).get(field) if watch else None`. */
  function InfoField(watch: seq<(string, Json)>, field: string): Eval<Json> {
    if watch == [] then Value(JNull) else Get(ClubLogInfo(watch), field, JNull)
  }

  /** `("Yes" if watch.get(k) else "No") if watch else None`. */
  function Flag(watch: seq<(string, Json)>, k: string): Json {
    if watch == [] then JNull else JStr(YesNo(Truthy(Lookup(watch, k).GetOr(JNull))))
  }

  /** The values of the error counter dict, in order. */
  function Counts(ce: seq<(string, int)>): (r: seq<int>)
    ensures |r| == |ce| && forall i :: 0 <= i < |ce| ==> r[i] == ce[i].1
  {
    seq(|ce|, i requires 0 <= i < |ce| => ce[i].1)
  }

  /** `{f"{ep}_errors": count for ep, count in ... if count > 0}`. */
  function NonzeroErrors(ce: seq<(string, int)>): Attrs {
    if ce == [] then []
    else
      (if ce[0].1 > 0 then [(KeyText(ErrorsOf(ce[0].0)), JInt(ce[0].1))] else [])
      + NonzeroErrors(ce[1..])
  }

  /** `value_fn`: the state of each sensor; Python's None is `JNull`. */
  function ValueFn(key: SensorKey, data: SensorData): Eval<Json> {
    match key
    case DxccWorkedTotal => Value(JInt(data.dxccWorkedTotal))
    case DxccConfirmedTotal => Value(JInt(data.dxccConfirmedTotal))
    case DxccVerifiedTotal => Value(JInt(data.dxccVerifiedTotal))
    case ActiveExpeditions => Value(JInt(|data.expeditions|))
    case MostWantedCount => Value(JInt(|data.mostWanted|))
    case WatchTotalQsos => InfoField(data.watch, "total_qsos")
    case WatchIsExpedition => Value(Flag(data.watch, "is_expedition"))
    case WatchHasOqrs => Value(Flag(data.watch, "has_oqrs"))
    case WatchLastUpload => InfoField(data.watch, "last_clublog_upload")
    case ActiveLivestreams => Value(JInt(|data.livestreams|))
    case BandActivity => Value(JInt(if data.activity != [] then |data.activity| else 0))
    case ApiConsecutiveErrors => Value(JInt(Total(Counts(data.consecutiveErrors))))
  }

  /** A dict with one list-valued entry, or the error the rows raised. */
  function ListAttr(name: string, rows: Eval<seq<Json>>): Eval<Option<Attrs>> {
    if rows.Raised? then Raised else Value(Some([(name, JList(rows.v))]))
  }

  /** `attr_fn`: the extra attributes of each sensor, None where the
      description has no `attr_fn` or it answers None. */
  function AttrFn(key: SensorKey, data: SensorData): Eval<Option<Attrs>> {
    match key
    case ActiveExpeditions => ListAttr("expeditions", FirstRows(data.expeditions, ExpeditionColumns))
    case MostWantedCount =>
      if data.mostWanted != [] then Value(Some([("top_10", JObj(TopTen(data.mostWanted)))])) else Value(None)
    case ActiveLivestreams => ListAttr("livestreams", FirstRows(data.livestreams, LivestreamColumns))
    case BandActivity =>
      if data.activity == [] then Value(None)
      else
        var t := BandTotals(data.activity);
        if t.Raised? then Raised else Value(Some(t.v))
    case ApiConsecutiveErrors =>
      var a := NonzeroErrors(data.consecutiveErrors);
      Value(if a == [] then None else Some(a))
    case _ => Value(None)
  }

  /** `native_value`: None while the coordinator has no data. */
  function NativeValue(key: SensorKey, data: Option<SensorData>): Eval<Json> {
    if data.None? then Value(JNull) else ValueFn(key, data.value)
  }

  /** `extra_state_attributes`: None while the coordinator has no data. */
  function ExtraStateAttributes(key: SensorKey, data: Option<SensorData>): Eval<Option<Attrs>> {
    if data.None? then Value(None) else AttrFn(key, data.value)
  }

  /** Without coordinator data every sensor is unknown and has no
      attributes; nothing is read, so nothing can raise. */
  lemma NoDataNoState(key: SensorKey)
    ensures NativeValue(key, None) == Value(JNull)
    ensures ExtraStateAttributes(key, None) == Value(None)
  {
  }

  /** The expeditions sensor counts every expedition, and its one attribute
      lists the first `min(20, n)` of them, each reduced to call, date and
      QSO count; with no expeditions the list is empty rather than absent. */
  lemma ExpeditionsSensor(data: SensorData)
    ensures ValueFn(ActiveExpeditions, data) == Value(JInt(|data.expeditions|))
    ensures data.expeditions == [] ==> AttrFn(ActiveExpeditions, data) == Value(Some([("expeditions", JList([]))]))
    ensures var a := AttrFn(ActiveExpeditions, data);
            a.Value? ==> a.v.Some? && |a.v.value| == 1 && a.v.value[0].0 == "expeditions"
                         && a.v.value[0].1.JList?
                         && |a.v.value[0].1.items| == Min(RowLimit, |data.expeditions|)
                         && forall i :: 0 <= i < |a.v.value[0].1.items| ==>
                              a.v.value[0].1.items[i] == JObj(Row(data.expeditions[i], ExpeditionColumns).v)
  {
    FirstRowsShape(data.expeditions, ExpeditionColumns);
  }

  /** An expedition given as a list of at least three values keeps its
      first three under `call`, `date` and `qso_count`. */
  lemma ExpeditionRowFields(e: seq<Json>)
    requires |e| >= 3
    ensures Row(JList(e), ExpeditionColumns) == Value([("call", e[0]), ("date", e[1]), ("qso_count", e[2])])
  {
    var cols := ExpeditionColumns;
    RowShape(JList(e), cols);
    assert cols[0].index == 0 && cols[1].index == 1 && cols[2].index == 2;
    var r := Row(JList(e), cols);
    assert r.Value? && |r.v| == |cols| == 3;
    assert r.v == [(cols[0].name, e[0]), (cols[1].name, e[1]), (cols[2].name, e[2])];
  }

  /** A livestream keeps positions 0, 1 and 3 under `call`, `dxcc` and
      `url`, so a stream given with only three values makes the projection
      raise. */
  lemma LivestreamRowFields(s: seq<Json>)
    ensures |s| >= 4 ==> Row(JList(s), LivestreamColumns) == Value([("call", s[0]), ("dxcc", s[1]), ("url", s[3])])
    ensures |s| == 3 ==> Row(JList(s), LivestreamColumns).Raised?
  {
    var cols := LivestreamColumns;
    RowShape(JList(s), cols);
    assert cols[0].index == 0 && cols[1].index == 1 && cols[2].index == 3;
    if |s| >= 4 {
      var r := Row(JList(s), cols);
      assert r.Value? && |r.v| == |cols| == 3;
      assert r.v == [(cols[0].name, s[0]), (cols[1].name, s[1]), (cols[2].name, s[3])];
    } else if |s| == 3 {
      assert At(JList(s), cols[2].index).Raised?;
    }
  }

  /** The livestreams sensor counts every stream and lists the first
      `min(20, n)` of them reduced to call, DXCC and URL. */
  lemma LivestreamsSensor(data: SensorData)
    ensures ValueFn(ActiveLivestreams, data) == Value(JInt(|data.livestreams|))
    ensures var a := AttrFn(ActiveLivestreams, data);
            a.Value? ==> a.v.Some? && |a.v.value| == 1 && a.v.value[0].1.JList?
                         && |a.v.value[0].1.items| == Min(RowLimit, |data.livestreams|)
                         && forall i :: 0 <= i < |a.v.value[0].1.items| ==>
                              a.v.value[0].1.items[i] == JObj(Row(data.livestreams[i], LivestreamColumns).v)
    ensures AttrFn(ActiveLivestreams, data).Raised? <==>
              exists i :: 0 <= i < Min(RowLimit, |data.livestreams|) && Row(data.livestreams[i], LivestreamColumns).Raised?
  {
    FirstRowsShape(data.livestreams, LivestreamColumns);
  }

  /** The most-wanted sensor counts the entries; `top_10` holds the first
      `min(10, n)` of them in insertion order, and there are no attributes
      at all when the dict is empty. */
  lemma MostWantedSensor(data: SensorData)
    ensures ValueFn(MostWantedCount, data) == Value(JInt(|data.mostWanted|))
    ensures var a := AttrFn(MostWantedCount, data);
            && a.Value?
            && (a.v.None? <==> data.mostWanted == [])
            && (a.v.Some? ==> |a.v.value| == 1 && a.v.value[0].1.JObj?
                              && a.v.value[0].1.fields <= data.mostWanted
                              && |a.v.value[0].1.fields| == Min(TopLimit, |data.mostWanted|))
  {
  }

  /** With empty watch data all four watch sensors are unknown. */
  lemma WatchEmpty(data: SensorData)
    requires data.watch == []
    ensures ValueFn(WatchTotalQsos, data) == Value(JNull)
    ensures ValueFn(WatchIsExpedition, data) == Value(JNull)
    ensures ValueFn(WatchHasOqrs, data) == Value(JNull)
    ensures ValueFn(WatchLastUpload, data) == Value(JNull)
  {
  }

  /** A watch flag reports "Yes" exactly when the flag is truthy, and "No"
      otherwise, a missing flag included. */
  lemma FlagYesIffTruthy(watch: seq<(string, Json)>, k: string)
    requires watch != []
    ensures Flag(watch, k) == JStr("Yes") <==> Lookup(watch, k).Some? && Truthy(Lookup(watch, k).value)
    ensures Flag(watch, k) in {JStr("Yes"), JStr("No")}
  {
    var y, n := "Yes", "No";
    assert y != n by { assert y[0] != n[0]; }
  }

  /** The two watch flags read `is_expedition` and `has_oqrs`. */
  lemma WatchFlags(data: SensorData)
    ensures ValueFn(WatchIsExpedition, data) == Value(Flag(data.watch, "is_expedition"))
    ensures ValueFn(WatchHasOqrs, data) == Value(Flag(data.watch, "has_oqrs"))
  {
  }

  /** Without a `clublog_info` entry a field of it is unknown; with one
      that is not a dict, reading it raises; inside a dict it is the
      field's value, or unknown when absent. */
  lemma InfoFieldCases(watch: seq<(string, Json)>, field: string)
    requires watch != []
    ensures "clublog_info" !in Keys(watch) ==> InfoField(watch, field) == Value(JNull)
    ensures InfoField(watch, field).Raised? <==> !ClubLogInfo(watch).JObj?
    ensures ClubLogInfo(watch).JObj? ==>
              InfoField(watch, field) == Value(Lookup(ClubLogInfo(watch).fields, field).GetOr(JNull))
  {
    var k := "clublog_info";
    if k !in Keys(watch) {
      assert Lookup(watch, k) == None;
      var none: seq<(string, Json)> := [];
      assert Keys(none) == [];
    }
  }

  /** The total is read from `total_qsos` and the upload time from
      `last_clublog_upload`, both inside `clublog_info`. */
  lemma WatchInfo(data: SensorData)
    ensures ValueFn(WatchTotalQsos, data) == InfoField(data.watch, "total_qsos")
    ensures ValueFn(WatchLastUpload, data) == InfoField(data.watch, "last_clublog_upload")
  {
  }

  /** The band-activity sensor counts the bands (0 when there are none),
      names each attribute `band_<band>` after its band with that band's
      total, and has no attributes when there is no activity. */
  lemma BandActivitySensor(data: SensorData)
    ensures ValueFn(BandActivity, data) == Value(JInt(|data.activity|))
    ensures data.activity == [] ==> AttrFn(BandActivity, data) == Value(None)
    ensures var a := AttrFn(BandActivity, data);
            data.activity != [] && a.Value? ==>
              a.v.Some? && |a.v.value| == |data.activity|
              && forall i :: 0 <= i < |data.activity| ==>
                   a.v.value[i] == ("band_" + data.activity[i].0, BandTotal(data.activity[i].1).v)
    ensures (DistinctKeys(data.activity) && AttrFn(BandActivity, data).Value?
             && AttrFn(BandActivity, data).v.Some?) ==> DistinctKeys(AttrFn(BandActivity, data).v.value)
  {
    if data.activity != [] && DistinctKeys(data.activity) && BandTotals(data.activity).Value? {
      BandKeysDistinct(data.activity);
    }
  }

  /** Every attribute of the error sensor names the errors of an endpoint
      whose count is positive, with that count. */
  lemma {:induction false} NonzeroErrorsSound(ce: seq<(string, int)>, p: (string, Json))
    requires p in NonzeroErrors(ce)
    ensures exists i :: 0 <= i < |ce| && ce[i].1 > 0 && p == (KeyText(ErrorsOf(ce[i].0)), JInt(ce[i].1))
  {
    var head := if ce[0].1 > 0 then [(KeyText(ErrorsOf(ce[0].0)), JInt(ce[0].1))] else [];
    if p !in head {
      NonzeroErrorsSound(ce[1..], p);
      var i :| 0 <= i < |ce[1..]| && ce[1..][i].1 > 0 && p == (KeyText(ErrorsOf(ce[1..][i].0)), JInt(ce[1..][i].1));
      assert ce[1..][i] == ce[i + 1];
    }
  }

  /** Every endpoint with a positive count appears, with that count. */
  lemma {:induction false} NonzeroErrorsComplete(ce: seq<(string, int)>, i: nat)
    requires i < |ce| && ce[i].1 > 0
    ensures (KeyText(ErrorsOf(ce[i].0)), JInt(ce[i].1)) in NonzeroErrors(ce)
  {
    if i > 0 {
      NonzeroErrorsComplete(ce[1..], i - 1);
    }
  }

  /** No attribute exactly when no count is positive. */
  lemma {:induction false} NonzeroErrorsEmpty(ce: seq<(string, int)>)
    ensures NonzeroErrors(ce) == [] <==> forall i :: 0 <= i < |ce| ==> ce[i].1 <= 0
  {
    if ce != [] {
      NonzeroErrorsEmpty(ce[1..]);
      assert forall i :: 0 < i < |ce| ==> ce[1..][i - 1] == ce[i];
    }
  }

  /** A sum of counters that are never negative is zero exactly when every
      counter is. */
  lemma {:induction false} TotalZeroIff(xs: seq<int>)
    requires forall i :: 0 <= i < |xs| ==> xs[i] >= 0
    ensures Total(xs) >= 0
    ensures Total(xs) == 0 <==> forall i :: 0 <= i < |xs| ==> xs[i] == 0
  {
    if xs != [] {
      TotalZeroIff(xs[1..]);
      assert forall i :: 0 < i < |xs| ==> xs[1..][i - 1] == xs[i];
    }
  }

  /** The error sensor's state is the sum of the counters; its attributes
      hold `<ep>_errors` for exactly the endpoints with a positive count,
      and are None when no count is positive. */
  lemma ErrorsSensor(data: SensorData)
    ensures ValueFn(ApiConsecutiveErrors, data) == Value(JInt(Total(Counts(data.consecutiveErrors))))
    ensures var a := AttrFn(ApiConsecutiveErrors, data);
            && a.Value?
            && (a.v.None? <==> forall i :: 0 <= i < |data.consecutiveErrors| ==> data.consecutiveErrors[i].1 <= 0)
            && (a.v.Some? ==> forall p :: p in a.v.value ==>
                  exists i :: 0 <= i < |data.consecutiveErrors| && data.consecutiveErrors[i].1 > 0
                              && p == (KeyText(ErrorsOf(data.consecutiveErrors[i].0)), JInt(data.consecutiveErrors[i].1)))
            && (forall i :: 0 <= i < |data.consecutiveErrors| && data.consecutiveErrors[i].1 > 0 ==>
                  a.v.Some? && (KeyText(ErrorsOf(data.consecutiveErrors[i].0)), JInt(data.consecutiveErrors[i].1)) in a.v.value)
  {
    var ce := data.consecutiveErrors;
    NonzeroErrorsEmpty(ce);
    forall p | p in NonzeroErrors(ce)
      ensures exists i :: 0 <= i < |ce| && ce[i].1 > 0 && p == (KeyText(ErrorsOf(ce[i].0)), JInt(ce[i].1))
    {
      NonzeroErrorsSound(ce, p);
    }
    forall i | 0 <= i < |ce| && ce[i].1 > 0
      ensures (KeyText(ErrorsOf(ce[i].0)), JInt(ce[i].1)) in NonzeroErrors(ce)
    {
      NonzeroErrorsComplete(ce, i);
    }
  }

  /** Counters are never negative, so the error sensor has attributes
      exactly when its state is not zero. */
  lemma ErrorsQuietIffZero(data: SensorData)
    requires forall i :: 0 <= i < |data.consecutiveErrors| ==> data.consecutiveErrors[i].1 >= 0
    ensures (AttrFn(ApiConsecutiveErrors, data) == Value(None)) <==> (ValueFn(ApiConsecutiveErrors, data) == Value(JInt(0)))
  {
    var ce := data.consecutiveErrors;
    var xs := Counts(ce);
    TotalZeroIff(xs);
    NonzeroErrorsEmpty(ce);
    assert (forall i :: 0 <= i < |xs| ==> xs[i] == 0) <==> (forall i :: 0 <= i < |ce| ==> ce[i].1 <= 0);
  }
}
