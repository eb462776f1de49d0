/** The API-health rule shared by the standalone bridge's `api_status`
    binary sensor and the integration's `ClubLogApiStatusSensor`: the API
    counts as up while some endpoint succeeded less than two hours ago. It
    also names the per-endpoint attribute keys both of them publish. */
module Health {

  /** Seconds after which a success no longer counts as recent. */
  const StaleThreshold := 7200

  /** A success at wall time `ts` is recent at wall time `now`. */
  predicate Fresh(now: int, ts: int) {
    now - ts < StaleThreshold
  }

  /** `any(now - ts < 7200 for ts in stamps)`: false for no stamps. */
  function AnyFresh(now: int, stamps: seq<int>): (r: bool)
    ensures r <==> exists i :: 0 <= i < |stamps| && Fresh(now, stamps[i])
  {
    if stamps == [] then false
    else Fresh(now, stamps[0]) || AnyFresh(now, stamps[1..])
  }

  /** A success exactly `StaleThreshold` seconds old is already stale; one
      a second younger is still recent. */
  lemma FreshBoundary(ts: int)
    ensures !Fresh(ts + StaleThreshold, ts)
    ensures Fresh(ts + StaleThreshold - 1, ts)
  {
  }

  /** Replacing any stamp by a later one never turns the answer from true
      to false. */
  lemma {:induction false} AnyFreshMonotone(now: int, stamps: seq<int>, i: nat, ts: int)
    requires i < |stamps| && stamps[i] <= ts
    ensures AnyFresh(now, stamps) ==> AnyFresh(now, stamps[i := ts])
  {
    if AnyFresh(now, stamps) {
      var j :| 0 <= j < |stamps| && Fresh(now, stamps[j]);
      if j == i {
        assert Fresh(now, stamps[i := ts][i]);
      } else {
        assert stamps[i := ts][j] == stamps[j];
      }
    }
  }

  /** Recording one more success never turns the answer from true to
      false, and a success recorded at `now` itself makes it true. */
  lemma AnyFreshExtend(now: int, stamps: seq<int>, ts: int)
    ensures AnyFresh(now, stamps) ==> AnyFresh(now, stamps + [ts])
    ensures ts == now ==> AnyFresh(now, stamps + [ts])
  {
    if AnyFresh(now, stamps) {
      var j :| 0 <= j < |stamps| && Fresh(now, stamps[j]);
      assert (stamps + [ts])[j] == stamps[j];
    }
    if ts == now {
      assert (stamps + [ts])[|stamps|] == ts;
    }
  }

  /** A concatenation has a recent stamp exactly when one of its parts
      has. */
  lemma AnyFreshAppend(now: int, a: seq<int>, b: seq<int>)
    ensures AnyFresh(now, a + b) <==> AnyFresh(now, a) || AnyFresh(now, b)
  {
    if AnyFresh(now, a + b) {
      var i :| 0 <= i < |a + b| && Fresh(now, (a + b)[i]);
      if i >= |a| { assert (a + b)[i] == b[i - |a|]; }
    }
    if AnyFresh(now, a) {
      var i :| 0 <= i < |a| && Fresh(now, a[i]);
      assert (a + b)[i] == a[i];
    }
    if AnyFresh(now, b) {
      var i :| 0 <= i < |b| && Fresh(now, b[i]);
      assert (a + b)[|a| + i] == b[i];
    }
  }

  /** As time passes, a true answer can only turn false. */
  lemma AnyFreshAntitone(now1: int, now2: int, stamps: seq<int>)
    requires now1 <= now2
    ensures AnyFresh(now2, stamps) ==> AnyFresh(now1, stamps)
  {
  }

  /** The keys of the per-endpoint status attributes. */
  datatype AttrKey<E> =
    | ErrorsOf(ep: E)          // "<ep>_errors"
    | LastSuccessOf(ep: E)     // "<ep>_last_success"
    | LastErrorOf(ep: E)       // "<ep>_last_error"
    | BackoffRemainingMin      // "backoff_remaining_min"

  /** The attribute name `KeyText` writes for a key. */
  function KeyText(k: AttrKey<string>): (r: string)
  {
    match k
    case ErrorsOf(ep) => ep + "_errors"
    case LastSuccessOf(ep) => ep + "_last_success"
    case LastErrorOf(ep) => ep + "_last_error"
    case BackoffRemainingMin => "backoff_remaining_min"
  }

  /** Two strings ending in suffixes that differ at the same distance from
      the end are different. */
  lemma SuffixesDiffer(a: string, s: string, b: string, t: string, d: nat)
    requires d < |s| && d < |t| && s[|s| - 1 - d] != t[|t| - 1 - d]
    ensures a + s != b + t
  {
    var x, y := a + s, b + t;
    assert x[|x| - 1 - d] == s[|s| - 1 - d];
    assert y[|y| - 1 - d] == t[|t| - 1 - d];
  }

  /** Equal strings with the same suffix have the same prefix. */
  lemma SuffixCancels(a: string, b: string, s: string)
    requires a + s == b + s
    ensures a == b
  {
    assert |a| == |b|;
    assert forall i :: 0 <= i < |a| ==> a[i] == (a + s)[i] == (b + s)[i] == b[i];
  }

  /** Distinct keys never share a name, whatever the endpoint names are: an
      attribute written for one key is never overwritten by another. */
  lemma KeyTextInjective(k1: AttrKey<string>, k2: AttrKey<string>)
    requires KeyText(k1) == KeyText(k2)
    ensures k1 == k2
  {
    var e, ls, le, b := "_errors", "_last_success", "_last_error", "backoff_remaining_min";
    if k1 == BackoffRemainingMin || k2 == BackoffRemainingMin {
      if k1 != k2 {
        var k := if k1 == BackoffRemainingMin then k2 else k1;
        SuffixesDiffer(k.ep, if k.ErrorsOf? then e else if k.LastSuccessOf? then ls else le, [], b, 0);
      }
    } else if (k1.ErrorsOf? && k2.LastSuccessOf?) || (k1.LastSuccessOf? && k2.ErrorsOf?) {
      SuffixesDiffer(k1.ep, if k1.ErrorsOf? then e else ls, k2.ep, if k2.ErrorsOf? then e else ls, 1);
    } else if (k1.ErrorsOf? && k2.LastErrorOf?) || (k1.LastErrorOf? && k2.ErrorsOf?) {
      SuffixesDiffer(k1.ep, if k1.ErrorsOf? then e else le, k2.ep, if k2.ErrorsOf? then e else le, 0);
    } else if (k1.LastSuccessOf? && k2.LastErrorOf?) || (k1.LastErrorOf? && k2.LastSuccessOf?) {
      SuffixesDiffer(k1.ep, if k1.LastSuccessOf? then ls else le, k2.ep, if k2.LastSuccessOf? then ls else le, 0);
    } else if k1.ErrorsOf? {
      SuffixCancels(k1.ep, k2.ep, e);
    } else if k1.LastSuccessOf? {
      SuffixCancels(k1.ep, k2.ep, ls);
    } else {
      SuffixCancels(k1.ep, k2.ep, le);
    }
  }
}
