/** The integration's API-status binary sensor
    (custom_components/clublog/binary_sensor.py): it is on while some
    endpoint succeeded less than two hours ago, and its attributes list the
    per-endpoint success times, nonzero error counts and last errors. */
module BinarySensor {
  import opened Wrappers
  import opened Json
  import opened Health
  import opened Sensor

  /** The fields of the coordinator's data that the binary sensor reads:
      three dicts keyed by endpoint name, in insertion order. */
  datatype StatusData = StatusData(
    lastSuccessfulFetch: seq<(string, int)>,
    consecutiveErrors: seq<(string, int)>,
    lastError: seq<(string, string)>)

  /** The success times, in order. */
  function Stamps(ls: seq<(string, int)>): (r: seq<int>)
    ensures |r| == |ls| && forall i :: 0 <= i < |ls| ==> r[i] == ls[i].1
  {
    seq(|ls|, i requires 0 <= i < |ls| => ls[i].1)
  }

  /** `is_on`: None without data, False with no recorded success, and
      otherwise whether some success is recent at wall time `now`. */
  function IsOn(data: Option<StatusData>, now: int): (r: Option<bool>)
    ensures r.None? <==> data.None?
    ensures data.Some? && data.value.lastSuccessfulFetch == [] ==> r == Some(false)
    ensures data.Some? ==>
              (r == Some(true) <==> exists i :: 0 <= i < |data.value.lastSuccessfulFetch|
                                                 && Fresh(now, data.value.lastSuccessfulFetch[i].1))
  {
    if data.None? then None
    else if data.value.lastSuccessfulFetch == [] then Some(false)
    else Some(AnyFresh(now, Stamps(data.value.lastSuccessfulFetch)))
  }

  /** An endpoint whose success is exactly two hours old no longer keeps
      the sensor on. */
  lemma IsOnStaleBoundary(ep: string, ts: int)
    ensures IsOn(Some(StatusData([(ep, ts)], [], [])), ts + StaleThreshold) == Some(false)
    ensures IsOn(Some(StatusData([(ep, ts)], [], [])), ts + StaleThreshold - 1) == Some(true)
  {
    FreshBoundary(ts);
  }

  /** Moving an endpoint's success time later never turns the sensor from
      on to off. */
  lemma IsOnMonotone(d: StatusData, now: int, i: nat, ts: int)
    requires i < |d.lastSuccessfulFetch| && d.lastSuccessfulFetch[i].1 <= ts
    ensures IsOn(Some(d), now) == Some(true) ==>
              IsOn(Some(d.(lastSuccessfulFetch := d.lastSuccessfulFetch[i := (d.lastSuccessfulFetch[i].0, ts)])), now) == Some(true)
  {
    var ls := d.lastSuccessfulFetch;
    var ls' := ls[i := (ls[i].0, ts)];
    assert Stamps(ls') == Stamps(ls)[i := ts];
    AnyFreshMonotone(now, Stamps(ls), i, ts);
  }

  /** Recording a success for a new endpoint never turns the sensor from
      on to off, and one recorded at `now` turns it on. */
  lemma IsOnExtend(d: StatusData, now: int, ep: string, ts: int)
    ensures var d' := d.(lastSuccessfulFetch := d.lastSuccessfulFetch + [(ep, ts)]);
            (IsOn(Some(d), now) == Some(true) ==> IsOn(Some(d'), now) == Some(true))
            && (ts == now ==> IsOn(Some(d'), now) == Some(true))
  {
    var ls := d.lastSuccessfulFetch;
    assert Stamps(ls + [(ep, ts)]) == Stamps(ls) + [ts];
    AnyFreshExtend(now, Stamps(ls), ts);
  }

  /** `d[k] = v` on an insertion-ordered dict. */
  function Put(d: Attrs, k: string, v: Json): Attrs {
    if d == [] then [(k, v)]
    else if d[0].0 == k then [(k, v)] + d[1..]
    else [d[0]] + Put(d[1..], k, v)
  }

  /** The keys after the first, read off the tail. */
  lemma KeysTail<V>(d: seq<(string, V)>)
    requires d != []
    ensures Keys(d) == [d[0].0] + Keys(d[1..])
  {
  }

  /** Assigning a new key appends its entry. */
  lemma {:induction false} PutNew(d: Attrs, k: string, v: Json)
    requires k !in Keys(d)
    ensures Put(d, k, v) == d + [(k, v)]
  {
    if d != [] {
      KeysTail(d);
      PutNew(d[1..], k, v);
      assert d + [(k, v)] == [d[0]] + (d[1..] + [(k, v)]);
    }
  }

  /** Assigning an existing key keeps every key in its place. */
  lemma {:induction false} PutKeepsPlace(d: Attrs, k: string, v: Json)
    requires k in Keys(d)
    ensures Keys(Put(d, k, v)) == Keys(d)
  {
    KeysTail(d);
    if d[0].0 == k {
      KeysTail(Put(d, k, v));
      assert Put(d, k, v)[1..] == d[1..];
    } else {
      PutKeepsPlace(d[1..], k, v);
      KeysTail(Put(d, k, v));
      assert Put(d, k, v)[1..] == Put(d[1..], k, v);
    }
  }

  /** After the assignment the key holds the new value. */
  lemma {:induction false} PutLookup(d: Attrs, k: string, v: Json)
    ensures Lookup(Put(d, k, v), k) == Some(v)
  {
    if d != [] && d[0].0 != k {
      PutLookup(d[1..], k, v);
      assert Put(d, k, v)[1..] == Put(d[1..], k, v);
    }
  }

  /** One `<ep>_last_success` entry per recorded success. */
  function Successes(ls: seq<(string, int)>): (r: Attrs)
    ensures |r| == |ls| && forall i :: 0 <= i < |ls| ==> r[i] == (KeyText(LastSuccessOf(ls[i].0)), JInt(ls[i].1))
  {
    seq(|ls|, i requires 0 <= i < |ls| => (KeyText(LastSuccessOf(ls[i].0)), JInt(ls[i].1)))
  }

  /** One `<ep>_last_error` entry per recorded error. */
  function LastErrors(le: seq<(string, string)>): (r: Attrs)
    ensures |r| == |le| && forall i :: 0 <= i < |le| ==> r[i] == (KeyText(LastErrorOf(le[i].0)), JStr(le[i].1))
  {
    seq(|le|, i requires 0 <= i < |le| => (KeyText(LastErrorOf(le[i].0)), JStr(le[i].1)))
  }

  /** The attribute dict the three loops build: successes first, then the
      nonzero error counts, then the last errors. */
  function StatusAttrs(d: StatusData): Attrs {
    Successes(d.lastSuccessfulFetch) + NonzeroErrors(d.consecutiveErrors) + LastErrors(d.lastError)
  }

  /** `attrs or None`. */
  function OrNone(a: Attrs): Option<Attrs> {
    if a == [] then None else Some(a)
  }

  /** The filter over a concatenation is the concatenation of the filters. */
  lemma {:induction false} NonzeroErrorsAppend(a: seq<(string, int)>, b: seq<(string, int)>)
    ensures NonzeroErrors(a + b) == NonzeroErrors(a) + NonzeroErrors(b)
  {
    if a == [] {
      assert a + b == b;
    } else {
      assert (a + b)[0] == a[0];
      assert (a + b)[1..] == a[1..] + b;
      NonzeroErrorsAppend(a[1..], b);
    }
  }

  /** A key of a dict does not occur again later in it. */
  lemma PrefixKeyFresh<V>(d: seq<(string, V)>, i: nat)
    requires DistinctKeys(d) && i < |d|
    ensures d[i].0 !in Keys(d[..i])
  {
    var ks := Keys(d[..i]);
    assert forall j :: 0 <= j < i ==> ks[j] == d[j].0;
  }

  /** The name of any key but a `_last_success` key of a recorded endpoint
      is not among the success entries. */
  lemma NotInSuccesses(ls: seq<(string, int)>, k: AttrKey<string>)
    requires !(k.LastSuccessOf? && k.ep in Keys(ls))
    ensures KeyText(k) !in Keys(Successes(ls))
  {
    var r := Successes(ls);
    if KeyText(k) in Keys(r) {
      var j :| 0 <= j < |r| && Keys(r)[j] == KeyText(k);
      KeyTextInjective(k, LastSuccessOf(ls[j].0));
    }
  }

  /** The name of any key but an `_errors` key of a counted endpoint is not
      among the error-count entries. */
  lemma NotInNonzero(ce: seq<(string, int)>, k: AttrKey<string>)
    requires !(k.ErrorsOf? && k.ep in Keys(ce))
    ensures KeyText(k) !in Keys(NonzeroErrors(ce))
  {
    var r := NonzeroErrors(ce);
    if KeyText(k) in Keys(r) {
      var j :| 0 <= j < |r| && Keys(r)[j] == KeyText(k);
      NonzeroErrorsSound(ce, r[j]);
      var i :| 0 <= i < |ce| && ce[i].1 > 0 && r[j] == (KeyText(ErrorsOf(ce[i].0)), JInt(ce[i].1));
      KeyTextInjective(k, ErrorsOf(ce[i].0));
    }
  }

  /** The name of any key but a `_last_error` key of an endpoint with a
      recorded error is not among the last-error entries. */
  lemma NotInLastErrors(le: seq<(string, string)>, k: AttrKey<string>)
    requires !(k.LastErrorOf? && k.ep in Keys(le))
    ensures KeyText(k) !in Keys(LastErrors(le))
  {
    var r := LastErrors(le);
    if KeyText(k) in Keys(r) {
      var j :| 0 <= j < |r| && Keys(r)[j] == KeyText(k);
      KeyTextInjective(k, LastErrorOf(le[j].0));
    }
  }

  lemma KeysAppend<V>(a: seq<(string, V)>, b: seq<(string, V)>)
    ensures Keys(a + b) == Keys(a) + Keys(b)
  {
    assert forall i :: 0 <= i < |a + b| ==> Keys(a + b)[i] == (Keys(a) + Keys(b))[i];
  }

  /** Every recorded success and every recorded error appears under its
      endpoint's name, and so does every positive error count. */
  lemma StatusAttrsComplete(d: StatusData)
    ensures forall i :: 0 <= i < |d.lastSuccessfulFetch| ==>
              (KeyText(LastSuccessOf(d.lastSuccessfulFetch[i].0)), JInt(d.lastSuccessfulFetch[i].1)) in StatusAttrs(d)
    ensures forall i :: 0 <= i < |d.consecutiveErrors| && d.consecutiveErrors[i].1 > 0 ==>
              (KeyText(ErrorsOf(d.consecutiveErrors[i].0)), JInt(d.consecutiveErrors[i].1)) in StatusAttrs(d)
    ensures forall i :: 0 <= i < |d.lastError| ==>
              (KeyText(LastErrorOf(d.lastError[i].0)), JStr(d.lastError[i].1)) in StatusAttrs(d)
  {
    var a, b, c := Successes(d.lastSuccessfulFetch), NonzeroErrors(d.consecutiveErrors), LastErrors(d.lastError);
    assert forall i :: 0 <= i < |a| ==> (a + b + c)[i] == a[i];
    assert forall i :: 0 <= i < |c| ==> (a + b + c)[|a| + |b| + i] == c[i];
    forall i | 0 <= i < |d.consecutiveErrors| && d.consecutiveErrors[i].1 > 0
      ensures (KeyText(ErrorsOf(d.consecutiveErrors[i].0)), JInt(d.consecutiveErrors[i].1)) in a + b + c
    {
      NonzeroErrorsComplete(d.consecutiveErrors, i);
    }
  }

  /** An `_errors` attribute only ever carries a positive count recorded
      for that endpoint. */
  lemma StatusAttrsErrorsPositive(d: StatusData, ep: string, v: Json)
    requires (KeyText(ErrorsOf(ep)), v) in StatusAttrs(d)
    ensures exists i :: 0 <= i < |d.consecutiveErrors| && d.consecutiveErrors[i].0 == ep
                        && d.consecutiveErrors[i].1 > 0 && v == JInt(d.consecutiveErrors[i].1)
  {
    var p := (KeyText(ErrorsOf(ep)), v);
    var a, b, c := Successes(d.lastSuccessfulFetch), NonzeroErrors(d.consecutiveErrors), LastErrors(d.lastError);
    if p in a {
      var j :| 0 <= j < |a| && a[j] == p;
      KeyTextInjective(ErrorsOf(ep), LastSuccessOf(d.lastSuccessfulFetch[j].0));
    } else if p in c {
      var j :| 0 <= j < |c| && c[j] == p;
      KeyTextInjective(ErrorsOf(ep), LastErrorOf(d.lastError[j].0));
    } else {
      assert p in b;
      NonzeroErrorsSound(d.consecutiveErrors, p);
      var i :| 0 <= i < |d.consecutiveErrors| && d.consecutiveErrors[i].1 > 0
               && p == (KeyText(ErrorsOf(d.consecutiveErrors[i].0)), JInt(d.consecutiveErrors[i].1));
      KeyTextInjective(ErrorsOf(ep), ErrorsOf(d.consecutiveErrors[i].0));
    }
  }

  /** The attributes are None exactly when nothing succeeded, no count is
      positive and no error is recorded. */
  lemma StatusAttrsEmpty(d: StatusData)
    ensures OrNone(StatusAttrs(d)).None? <==>
              d.lastSuccessfulFetch == [] && d.lastError == []
              && forall i :: 0 <= i < |d.consecutiveErrors| ==> d.consecutiveErrors[i].1 <= 0
  {
    NonzeroErrorsEmpty(d.consecutiveErrors);
  }

  /** One step of the first loop: the success of the next endpoint is a
      new key, so assigning it appends its entry. */
  lemma SuccessStep(ls: seq<(string, int)>, i: nat)
    requires DistinctKeys(ls) && i < |ls|
    ensures Put(Successes(ls[..i]), KeyText(LastSuccessOf(ls[i].0)), JInt(ls[i].1)) == Successes(ls[..i + 1])
  {
    PrefixKeyFresh(ls, i);
    NotInSuccesses(ls[..i], LastSuccessOf(ls[i].0));
    PutNew(Successes(ls[..i]), KeyText(LastSuccessOf(ls[i].0)), JInt(ls[i].1));
    assert Successes(ls[..i + 1]) == Successes(ls[..i]) + [(KeyText(LastSuccessOf(ls[i].0)), JInt(ls[i].1))];
  }

  /** The positive counts of one more endpoint end with its entry, if its
      count is positive. */
  lemma NonzeroErrorsSnoc(ce: seq<(string, int)>, i: nat)
    requires i < |ce|
    ensures NonzeroErrors(ce[..i + 1]) ==
              NonzeroErrors(ce[..i]) + (if ce[i].1 > 0 then [(KeyText(ErrorsOf(ce[i].0)), JInt(ce[i].1))] else [])
  {
    assert ce[..i + 1] == ce[..i] + [ce[i]];
    NonzeroErrorsAppend(ce[..i], [ce[i]]);
    assert NonzeroErrors([ce[i]]) ==
             (if ce[i].1 > 0 then [(KeyText(ErrorsOf(ce[i].0)), JInt(ce[i].1))] else []) + NonzeroErrors([]);
  }

  /** The name of the next positive count is neither a success entry nor
      an earlier count. */
  lemma ErrorFresh(ls: seq<(string, int)>, ce: seq<(string, int)>, i: nat)
    requires DistinctKeys(ce) && i < |ce|
    ensures KeyText(ErrorsOf(ce[i].0)) !in Keys(Successes(ls) + NonzeroErrors(ce[..i]))
  {
    PrefixKeyFresh(ce, i);
    NotInSuccesses(ls, ErrorsOf(ce[i].0));
    NotInNonzero(ce[..i], ErrorsOf(ce[i].0));
    KeysAppend(Successes(ls), NonzeroErrors(ce[..i]));
  }

  /** One step of the second loop: a positive count is a new key, neither
      a success entry nor an earlier count, so assigning it appends. */
  lemma ErrorStep(ls: seq<(string, int)>, ce: seq<(string, int)>, i: nat)
    requires DistinctKeys(ce) && i < |ce|
    ensures ce[i].1 <= 0 ==> NonzeroErrors(ce[..i + 1]) == NonzeroErrors(ce[..i])
    ensures ce[i].1 > 0 ==>
              Put(Successes(ls) + NonzeroErrors(ce[..i]), KeyText(ErrorsOf(ce[i].0)), JInt(ce[i].1))
              == Successes(ls) + NonzeroErrors(ce[..i + 1])
  {
    var a := Successes(ls);
    var entry := (KeyText(ErrorsOf(ce[i].0)), JInt(ce[i].1));
    NonzeroErrorsSnoc(ce, i);
    if ce[i].1 > 0 {
      ErrorFresh(ls, ce, i);
      PutNew(a + NonzeroErrors(ce[..i]), entry.0, entry.1);
      assert a + NonzeroErrors(ce[..i]) + [entry] == a + (NonzeroErrors(ce[..i]) + [entry]);
    } else {
      assert NonzeroErrors(ce[..i]) + [] == NonzeroErrors(ce[..i]);
    }
  }

  /** The name of the next recorded error is in none of the three
      families written so far. */
  lemma LastErrorFresh(ls: seq<(string, int)>, ce: seq<(string, int)>, le: seq<(string, string)>, i: nat)
    requires DistinctKeys(le) && i < |le|
    ensures KeyText(LastErrorOf(le[i].0)) !in Keys(Successes(ls) + NonzeroErrors(ce) + LastErrors(le[..i]))
  {
    var k := LastErrorOf(le[i].0);
    PrefixKeyFresh(le, i);
    NotInSuccesses(ls, k);
    NotInNonzero(ce, k);
    NotInLastErrors(le[..i], k);
    KeysAppend(Successes(ls), NonzeroErrors(ce));
    KeysAppend(Successes(ls) + NonzeroErrors(ce), LastErrors(le[..i]));
  }

  /** One step of the third loop: a recorded error is a new key, so
      assigning it appends. */
  lemma LastErrorStep(ls: seq<(string, int)>, ce: seq<(string, int)>, le: seq<(string, string)>, i: nat)
    requires DistinctKeys(le) && i < |le|
    ensures var before := Successes(ls) + NonzeroErrors(ce) + LastErrors(le[..i]);
            Put(before, KeyText(LastErrorOf(le[i].0)), JStr(le[i].1))
            == Successes(ls) + NonzeroErrors(ce) + LastErrors(le[..i + 1])
  {
    var a := Successes(ls) + NonzeroErrors(ce);
    var entry := (KeyText(LastErrorOf(le[i].0)), JStr(le[i].1));
    LastErrorFresh(ls, ce, le, i);
    PutNew(a + LastErrors(le[..i]), entry.0, entry.1);
    LastErrorsSnoc(le, i);
    assert a + LastErrors(le[..i]) + [entry] == a + (LastErrors(le[..i]) + [entry]);
  }

  /** The last-error entries of one more endpoint end with its entry. */
  lemma LastErrorsSnoc(le: seq<(string, string)>, i: nat)
    requires i < |le|
    ensures LastErrors(le[..i + 1]) == LastErrors(le[..i]) + [(KeyText(LastErrorOf(le[i].0)), JStr(le[i].1))]
  {
    var x, y := LastErrors(le[..i + 1]), LastErrors(le[..i]);
    assert forall j :: 0 <= j < i ==> x[j] == y[j];
  }

  /** The first loop of `extra_state_attributes`. */
  method PutSuccesses(ls: seq<(string, int)>) returns (attrs: Attrs)
    requires DistinctKeys(ls)
    ensures attrs == Successes(ls)
  {
    attrs := [];
    for i := 0 to |ls|
      invariant attrs == Successes(ls[..i])
    {
      var (ep, ts) := ls[i];
      SuccessStep(ls, i);
      attrs := Put(attrs, KeyText(LastSuccessOf(ep)), JInt(ts));
    }
    assert ls[..|ls|] == ls;
  }

  /** The second loop: an `_errors` entry for each positive count. */
  method PutErrors(ls: seq<(string, int)>, ce: seq<(string, int)>, attrs0: Attrs) returns (attrs: Attrs)
    requires DistinctKeys(ce) && attrs0 == Successes(ls)
    ensures attrs == attrs0 + NonzeroErrors(ce)
  {
    attrs := attrs0;
    for i := 0 to |ce|
      invariant attrs == Successes(ls) + NonzeroErrors(ce[..i])
    {
      var (ep, count) := ce[i];
      ErrorStep(ls, ce, i);
      if count > 0 {
        attrs := Put(attrs, KeyText(ErrorsOf(ep)), JInt(count));
      }
    }
    assert ce[..|ce|] == ce;
  }

  /** The third loop: a `_last_error` entry per recorded error. */
  method PutLastErrors(ls: seq<(string, int)>, ce: seq<(string, int)>, le: seq<(string, string)>, attrs0: Attrs)
    returns (attrs: Attrs)
    requires DistinctKeys(le) && attrs0 == Successes(ls) + NonzeroErrors(ce)
    ensures attrs == attrs0 + LastErrors(le)
  {
    attrs := attrs0;
    for i := 0 to |le|
      invariant attrs == Successes(ls) + NonzeroErrors(ce) + LastErrors(le[..i])
    {
      var (ep, err) := le[i];
      LastErrorStep(ls, ce, le, i);
      attrs := Put(attrs, KeyText(LastErrorOf(ep)), JStr(err));
    }
    assert le[..|le|] == le;
  }

  /** `extra_state_attributes`: three loops assign into one dict; since
      the three families of names never collide and each source dict has
      distinct keys, every assignment adds a new entry, and the result is
      the specification `StatusAttrs`, or None when it is empty. */
  method ExtraStateAttributes(data: Option<StatusData>) returns (r: Option<Attrs>)
    requires data.Some? ==> DistinctKeys(data.value.lastSuccessfulFetch)
                            && DistinctKeys(data.value.consecutiveErrors)
                            && DistinctKeys(data.value.lastError)
    ensures data.None? ==> r.None?
    ensures data.Some? ==> r == OrNone(StatusAttrs(data.value))
  {
    if data.None? {
      return None;
    }
    var d := data.value;
    var attrs := PutSuccesses(d.lastSuccessfulFetch);
    attrs := PutErrors(d.lastSuccessfulFetch, d.consecutiveErrors, attrs);
    attrs := PutLastErrors(d.lastSuccessfulFetch, d.consecutiveErrors, d.lastError, attrs);
    r := if attrs == [] then None else Some(attrs);
  }
}
