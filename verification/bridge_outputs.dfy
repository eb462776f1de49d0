/** What the standalone bridge publishes: the `_process_*` function of
    each endpoint, called once its fetch has returned, and the two health
    entities published at the end of every wake cycle. A projection that
    raises publishes nothing: every value is computed before the first
    publish of its function. */
module BridgeOutputs {
  import opened Wrappers
  import opened Json
  import opened DxccStats
  import opened Projections
  import opened Mqtt
  import opened Health
  import opened Scheduler
  import opened BridgeStatus

  function Style(unit: string, icon: string, stateClass: string): SensorStyle {
    SensorStyle(Some(unit), Some(icon), Some(stateClass), None)
  }

  function IconOnly(icon: string): SensorStyle {
    SensorStyle(None, Some(icon), None, None)
  }

  /** A Python dict built from its entries in order: a later entry for
      the same key wins. */
  function ToMap(d: seq<(string, Json)>): (m: map<string, Json>)
    ensures forall k :: k in m <==> k in Keys(d)
  {
    if d == [] then map[]
    else
      var m := ToMap(d[..|d| - 1]);
      assert Keys(d) == Keys(d[..|d| - 1]) + [d[|d| - 1].0];
      m[d[|d| - 1].0 := d[|d| - 1].1]
  }

  /** The key of entry `i`, when no later entry has it, holds that
      entry's value. */
  lemma {:induction false} ToMapLastAt(d: seq<(string, Json)>, i: nat)
    requires i < |d| && forall j :: i < j < |d| ==> d[j].0 != d[i].0
    ensures d[i].0 in ToMap(d) && ToMap(d)[d[i].0] == d[i].1
  {
    var front := d[..|d| - 1];
    if i < |front| {
      assert front[i] == d[i];
      assert forall j :: i < j < |front| ==> front[j] == d[j];
      ToMapLastAt(front, i);
      assert d[|d| - 1].0 != d[i].0;
    }
  }

  /** The dict has exactly the keys of the entries, and each key holds the
      value of its last entry. */
  lemma ToMapShape(d: seq<(string, Json)>)
    ensures forall k :: k in ToMap(d) <==> k in Keys(d)
    ensures forall i :: 0 <= i < |d| && (forall j :: i < j < |d| ==> d[j].0 != d[i].0) ==>
                          ToMap(d)[d[i].0] == d[i].1
  {
    forall i | 0 <= i < |d| && (forall j :: i < j < |d| ==> d[j].0 != d[i].0)
      ensures ToMap(d)[d[i].0] == d[i].1
    {
      ToMapLastAt(d, i);
    }
  }

  // ---------------------------------------------------------------------
  // _process_matrix
  // ---------------------------------------------------------------------

  function ProcessMatrix(d: Discovery, m: Matrix): seq<Message> {
    var t := BridgeTotals(m);
    PublishSensor(d, "dxcc_worked_total", "DXCC Worked", JInt(t.worked),
                  Style("entities", "mdi:earth", "total"), None)
    + PublishSensor(d, "dxcc_confirmed_total", "DXCC Confirmed", JInt(t.confirmed),
                    Style("entities", "mdi:earth-plus", "total"), None)
    + PublishSensor(d, "dxcc_verified_total", "DXCC Verified", JInt(t.verified),
                    Style("entities", "mdi:earth-arrow-right", "total"), None)
  }

  /** The matrix publishes six retained messages and no attributes; its
      three states are the worked, confirmed and verified totals, in that
      order, and they never increase from one to the next. */
  lemma MatrixStates(d: Discovery, m: Matrix)
    ensures var log := ProcessMatrix(d, m);
            var t := BridgeTotals(m);
            && |log| == 6
            && log[1].payload == Str(JInt(t.worked))
            && log[3].payload == Str(JInt(t.confirmed))
            && log[5].payload == Str(JInt(t.verified))
            && t.verified <= t.confirmed <= t.worked
  {
    BridgeTotalsOrdered(m);
  }

  // ---------------------------------------------------------------------
  // _process_most_wanted
  // ---------------------------------------------------------------------

  function ProcessMostWanted(d: Discovery, wanted: seq<(string, Json)>): seq<Message> {
    var top := if wanted != [] then TopTen(wanted) else [];
    PublishSensor(d, "most_wanted_count", "Most Wanted Entities", JInt(|wanted|),
                  Style("entities", "mdi:star", "measurement"), Some(map["top_10" := JObj(top)]))
  }

  /** The count is the number of entries; `top_10` is always published,
      holding the first ten entries in order (none for an empty answer). */
  lemma MostWantedOutput(d: Discovery, wanted: seq<(string, Json)>)
    ensures var log := ProcessMostWanted(d, wanted);
            && |log| == 3
            && log[2].payload == Str(JInt(|wanted|))
            && log[0].payload == Dumps(map["top_10" := JObj(TopTen(wanted))])
            && |TopTen(wanted)| == Min(TopLimit, |wanted|) && TopTen(wanted) <= wanted
  {
  }

  // ---------------------------------------------------------------------
  // _process_watch
  // ---------------------------------------------------------------------

  /** The four watch values, or `Raised` when `watch` or its
      `clublog_info` is not a dict. */
  function WatchValues(watch: Json): (r: Eval<seq<Json>>)
    ensures r.Value? <==> watch.JObj? && (Lookup(watch.fields, "clublog_info").Some? ==>
                                          Lookup(watch.fields, "clublog_info").value.JObj?)
    ensures r.Value? ==> |r.v| == 4
  {
    var info := Get(watch, "clublog_info", JObj([]));
    if info.Raised? then Raised
    else
      var total := Get(info.v, "total_qsos", JInt(0));
      var upload := Get(info.v, "last_clublog_upload", JStr("Unknown"));
      if total.Raised? || upload.Raised? then Raised
      else
        var exp := Get(watch, "is_expedition", JNull).v;
        var oqrs := Get(watch, "has_oqrs", JNull).v;
        Value([total.v, JStr(YesNo(Truthy(exp))), JStr(YesNo(Truthy(oqrs))), upload.v])
  }

  /** The four watch sensors, given their values. */
  function WatchPublishes(d: Discovery, vals: seq<Json>): seq<Message>
    requires |vals| == 4
  {
    PublishSensor(d, "watch_total_qsos", "Total QSOs", vals[0],
                  Style("QSOs", "mdi:radio-tower", "total"), None)
    + PublishSensor(d, "watch_is_expedition", "Is Expedition", vals[1],
                    IconOnly("mdi:airplane-takeoff"), None)
    + PublishSensor(d, "watch_has_oqrs", "Has OQRS", vals[2],
                    IconOnly("mdi:email-check"), None)
    + PublishSensor(d, "watch_last_upload", "Last Upload", vals[3],
                    IconOnly("mdi:cloud-upload"), None)
  }

  function ProcessWatch(d: Discovery, watch: Json): Eval<seq<Message>> {
    var vals := WatchValues(watch);
    if vals.Raised? then Raised else Value(WatchPublishes(d, vals.v))
  }

  /** Each watch sensor publishes its value as the state, in the order
      total QSOs, expedition flag, OQRS flag, last upload. */
  lemma WatchStates(d: Discovery, vals: seq<Json>)
    requires |vals| == 4
    ensures var log := WatchPublishes(d, vals);
            && |log| == 8
            && log[1].payload == Str(vals[0]) && log[3].payload == Str(vals[1])
            && log[5].payload == Str(vals[2]) && log[7].payload == Str(vals[3])
  {
  }

  /** A watch answer without `clublog_info` gives 0 QSOs and "Unknown" as
      the last upload; the two flags read "Yes" exactly when they are
      truthy, and "No" when they are missing. */
  lemma WatchDefaults(fields: seq<(string, Json)>)
    requires "clublog_info" !in Keys(fields)
    ensures WatchValues(JObj(fields)) ==
              Value([JInt(0),
                     JStr(YesNo(Truthy(Lookup(fields, "is_expedition").GetOr(JNull)))),
                     JStr(YesNo(Truthy(Lookup(fields, "has_oqrs").GetOr(JNull)))),
                     JStr("Unknown")])
  {
    var none: seq<(string, Json)> := [];
    assert Keys(none) == [];
  }

  /** With a dict `clublog_info`, the total reads its `total_qsos` (0 when
      missing) and the last upload its `last_clublog_upload` ("Unknown"
      when missing); the two flags are read from the top level. */
  lemma WatchInfoValues(fields: seq<(string, Json)>, info: seq<(string, Json)>)
    requires Lookup(fields, "clublog_info") == Some(JObj(info))
    ensures WatchValues(JObj(fields)) ==
              Value([Lookup(info, "total_qsos").GetOr(JInt(0)),
                     JStr(YesNo(Truthy(Lookup(fields, "is_expedition").GetOr(JNull)))),
                     JStr(YesNo(Truthy(Lookup(fields, "has_oqrs").GetOr(JNull)))),
                     Lookup(info, "last_clublog_upload").GetOr(JStr("Unknown"))])
  {
  }

  lemma WatchNotADict(d: Discovery, watch: Json)
    requires !watch.JObj?
    ensures ProcessWatch(d, watch).Raised?
  {
  }

  // ---------------------------------------------------------------------
  // _process_expeditions and _process_livestreams
  // ---------------------------------------------------------------------

  function ProcessRows(d: Discovery, id: string, name: string, attr: string, unit: string, icon: string,
                       xs: seq<Json>, cols: seq<Column>): Eval<seq<Message>> {
    var rows := FirstRows(xs, cols);
    if rows.Raised? then Raised
    else Value(PublishSensor(d, id, name, JInt(|xs|), Style(unit, icon, "measurement"),
                             Some(map[attr := JList(rows.v)])))
  }

  function ProcessExpeditions(d: Discovery, expeditions: seq<Json>): Eval<seq<Message>> {
    ProcessRows(d, "active_expeditions", "Active Expeditions", "expeditions", "expeditions",
                "mdi:airplane", expeditions, ExpeditionColumns)
  }

  function ProcessLivestreams(d: Discovery, livestreams: seq<Json>): Eval<seq<Message>> {
    ProcessRows(d, "active_livestreams", "Active Livestreams", "livestreams", "streams",
                "mdi:broadcast", livestreams, LivestreamColumns)
  }

  /** The count is the full length; the attribute list holds one row for
      each of the first twenty elements, reduced to the given columns; it
      publishes nothing when one of those rows lacks a column. */
  lemma RowsOutput(d: Discovery, id: string, name: string, attr: string, unit: string, icon: string,
                   xs: seq<Json>, cols: seq<Column>)
    ensures var log := ProcessRows(d, id, name, attr, unit, icon, xs, cols);
            && (log.Value? <==> forall i :: 0 <= i < Min(RowLimit, |xs|) ==> Row(xs[i], cols).Value?)
            && (log.Value? ==> && |log.v| == 3
                               && log.v[2].payload == Str(JInt(|xs|))
                               && log.v[0].payload.Dumps?
                               && attr in log.v[0].payload.fields
                               && var rows := log.v[0].payload.fields[attr];
                               && rows.JList? && |rows.items| == Min(RowLimit, |xs|)
                               && forall i :: 0 <= i < |rows.items| ==> rows.items[i] == JObj(Row(xs[i], cols).v))
  {
    FirstRowsShape(xs, cols);
  }

  // ---------------------------------------------------------------------
  // _process_activity
  // ---------------------------------------------------------------------

  function ProcessActivity(d: Discovery, activity: seq<(string, Json)>): Eval<seq<Message>> {
    var totals := if activity != [] then BandTotals(activity) else Value([]);
    if totals.Raised? then Raised
    else Value(PublishSensor(d, "band_activity", "Band Activity", JInt(if activity != [] then |activity| else 0),
                             Style("bands", "mdi:sine-wave", "measurement"), Some(ToMap(totals.v))))
  }

  /** The count is the number of bands; the attributes always go out, with
      one `band_<b>` entry per band, and an empty dict when there are no
      bands. */
  lemma ActivityOutput(d: Discovery, activity: seq<(string, Json)>)
    requires ProcessActivity(d, activity).Value?
    ensures var log := ProcessActivity(d, activity).v;
            && |log| == 3
            && log[2].payload == Str(JInt(|activity|))
            && log[0].payload.Dumps?
            && (activity == [] ==> log[0].payload.fields == map[])
            && (forall i :: 0 <= i < |activity| ==> "band_" + activity[i].0 in log[0].payload.fields)
            && (DistinctKeys(activity) ==>
                  forall i :: 0 <= i < |activity| ==>
                    log[0].payload.fields["band_" + activity[i].0] == BandTotal(activity[i].1).v)
  {
    if activity != [] {
      var t := BandTotals(activity).v;
      forall i | 0 <= i < |activity| ensures "band_" + activity[i].0 in Keys(t) {
        assert Keys(t)[i] == t[i].0;
      }
      if DistinctKeys(activity) {
        BandTotalsToMap(activity);
      }
    }
  }

  /** With one entry per band, each `band_<b>` attribute holds that band's
      total. */
  lemma BandTotalsToMap(activity: seq<(string, Json)>)
    requires DistinctKeys(activity) && BandTotals(activity).Value?
    ensures forall i :: 0 <= i < |activity| ==>
              ToMap(BandTotals(activity).v)["band_" + activity[i].0] == BandTotal(activity[i].1).v
  {
    var t := BandTotals(activity).v;
    BandKeysDistinct(activity);
    forall i | 0 <= i < |activity|
      ensures ToMap(t)["band_" + activity[i].0] == BandTotal(activity[i].1).v
    {
      assert t[i] == ("band_" + activity[i].0, BandTotal(activity[i].1).v);
      ToMapLastAt(t, i);
    }
  }

  // ---------------------------------------------------------------------
  // The health entities
  // ---------------------------------------------------------------------

  lemma AllAttrNamesDistinct()
    ensures forall k1, k2 :: KeyText(Named(k1)) == KeyText(Named(k2)) ==> k1 == k2
  {
    forall k1, k2 | KeyText(Named(k1)) == KeyText(Named(k2)) ensures k1 == k2 {
      AttrNamesDistinct(k1, k2);
    }
  }

  /** The attribute dict of `api_status` under its text keys. */
  function StatusPayload(a: map<AttrKey<Endpoint>, int>): map<string, Json> {
    AllAttrNamesDistinct();
    map k | k in a :: KeyText(Named(k)) := JInt(a[k])
  }

  /** The attribute dict of `api_consecutive_errors` under its text keys. */
  function ErrorsPayload(a: map<Endpoint, int>): map<string, Json> {
    AllAttrNamesDistinct();
    map e | e in a :: KeyText(Named(ErrorsOf(e))) := JInt(a[e])
  }

  /** The messages published after every wake cycle: the `api_status`
      binary sensor, then the `api_consecutive_errors` sensor. */
  function HealthPublishes(d: Discovery, s: SchedState, now: int, wall: int): seq<Message> {
    var sa := StatusAttrs(s, now);
    var ea := ErrorSensorAttrs(s);
    PublishBinarySensor(d, "api_status", "API Status", ApiOk(s, wall), Some("connectivity"), Some("diagnostic"),
                        if sa.Some? then Some(StatusPayload(sa.value)) else None)
    + PublishSensor(d, "api_consecutive_errors", "API Errors", JInt(TotalErrors(s)),
                    SensorStyle(Some("errors"), Some("mdi:alert-circle"), Some("measurement"), Some("diagnostic")),
                    if ea.Some? then Some(ErrorsPayload(ea.value)) else None)
  }

  /** Every text key of the status attributes names exactly one entry. */
  lemma StatusPayloadAt(a: map<AttrKey<Endpoint>, int>, k: AttrKey<Endpoint>)
    ensures KeyText(Named(k)) in StatusPayload(a) <==> k in a
    ensures k in a ==> StatusPayload(a)[KeyText(Named(k))] == JInt(a[k])
  {
    AllAttrNamesDistinct();
  }

  /** The state of `api_status` is "ON" exactly when some endpoint
      succeeded within the last two hours, and its attributes carry
      `backoff_remaining_min` exactly while the breaker is open. */
  lemma HealthStatusOutput(d: Discovery, s: SchedState, now: int, wall: int)
    ensures var log := HealthPublishes(d, s, now, wall);
            var sa := StatusAttrs(s, now);
            var n := if sa.Some? then 3 else 2;
            && log[n - 1].payload == Str(JStr(if exists e :: e in s.lastSuccess && Fresh(wall, s.lastSuccess[e])
                                             then "ON" else "OFF"))
            && (sa.Some? ==> log[0].payload.Dumps?
                             && ("backoff_remaining_min" in log[0].payload.fields <==> s.backoffUntil > now))
  {
    var sa := StatusAttrs(s, now);
    if sa.Some? {
      StatusPayloadAt(sa.value, BackoffRemainingMin);
      ErrorAttrsAt(s, now, BackoffRemainingMin);
    }
  }

  /** The error sensor's state is the sum of the counters, and its
      attributes go out exactly when that sum is not zero. */
  lemma HealthErrorsOutput(d: Discovery, s: SchedState, now: int, wall: int)
    ensures var log := HealthPublishes(d, s, now, wall);
            var n := if StatusAttrs(s, now).Some? then 3 else 2;
            && log[|log| - 1].payload == Str(JInt(TotalErrors(s)))
            && (|log| == n + 3 <==> TotalErrors(s) != 0)
  {
  }
}
