/** What the standalone bridge reports about its own health at the end of
    every wake cycle: the `api_status` binary sensor with its attributes,
    and the `api_consecutive_errors` sensor. Both are computed from the
    scheduler state `Scheduler.SchedState`. */
module BridgeStatus {
  import opened Wrappers
  import opened Config
  import opened Health
  import opened Scheduler
  import opened SchedulerProps

  // ---------------------------------------------------------------------
  // api_status
  // ---------------------------------------------------------------------

  /** The values of `last_success` from position `k` of the endpoint order
      on. */
  function StampsFrom(ls: map<Endpoint, int>, k: nat): seq<int>
    requires k <= |Order|
    decreases |Order| - k
  {
    if k == |Order| then []
    else (if Order[k] in ls then [ls[Order[k]]] else []) + StampsFrom(ls, k + 1)
  }

  lemma {:induction false} AnyFreshStamps(ls: map<Endpoint, int>, k: nat, now: int)
    requires k <= |Order|
    ensures AnyFresh(now, StampsFrom(ls, k)) <==>
              exists e :: e in ls && Index(e) >= k && Fresh(now, ls[e])
    decreases |Order| - k
  {
    if k < |Order| {
      var x := Order[k];
      var head := if x in ls then [ls[x]] else [];
      var rest := StampsFrom(ls, k + 1);
      assert StampsFrom(ls, k) == head + rest;
      assert AnyFresh(now, head + rest) <==> AnyFresh(now, head) || AnyFresh(now, rest) by {
        AnyFreshAppend(now, head, rest);
      }
      AnyFreshStamps(ls, k + 1, now);
      assert AnyFresh(now, head) <==> x in ls && Fresh(now, ls[x]);
      IndexOfOrder(k);
      if exists e :: e in ls && Index(e) >= k && Fresh(now, ls[e]) {
        var e :| e in ls && Index(e) >= k && Fresh(now, ls[e]);
        if Index(e) == k {
          assert e == x;
        } else {
          assert Index(e) >= k + 1;
        }
      }
    }
  }

  /** `api_ok`: false while no success is recorded, otherwise true exactly
      when some endpoint succeeded less than `StaleThreshold` seconds
      before the wall time `wall`. */
  function ApiOk(s: SchedState, wall: int): (r: bool)
    ensures s.lastSuccess == map[] ==> !r
    ensures r <==> exists e :: e in s.lastSuccess && Fresh(wall, s.lastSuccess[e])
  {
    AnyFreshStamps(s.lastSuccess, 0, wall);
    if s.lastSuccess == map[] then false else AnyFresh(wall, StampsFrom(s.lastSuccess, 0))
  }

  /** A cycle in which some endpoint succeeds leaves the API reported up. */
  lemma SuccessReportsApiUp(s: SchedState, iv: Intervals, now: int, wall: int,
                            outcome: Endpoint -> Outcome, offset: Endpoint -> int, e: Endpoint)
    requires Complete(s.nextFetch)
    requires e in Cycle(s, iv, now, wall, outcome, offset).attempted && outcome(e) == Success
    ensures ApiOk(Cycle(s, iv, now, wall, outcome, offset).state, wall)
  {
    CycleBookkeeping(s, iv, now, wall, outcome, offset, e);
  }

  /** Once every recorded success is `StaleThreshold` seconds old, the API
      is reported down, however many endpoints are failing or not. */
  lemma StaleReportsApiDown(s: SchedState, wall: int)
    requires forall e :: e in s.lastSuccess ==> wall - s.lastSuccess[e] >= StaleThreshold
    ensures !ApiOk(s, wall)
  {
  }

  // ---------------------------------------------------------------------
  // Attributes of api_status
  // ---------------------------------------------------------------------

  /** The endpoint's name in the attribute keys. */
  function Named(k: AttrKey<Endpoint>): AttrKey<string> {
    match k
    case ErrorsOf(e) => ErrorsOf(Name(e))
    case LastSuccessOf(e) => LastSuccessOf(Name(e))
    case LastErrorOf(e) => LastErrorOf(Name(e))
    case BackoffRemainingMin => BackoffRemainingMin
  }

  lemma NameInjective(e1: Endpoint, e2: Endpoint)
    requires Name(e1) == Name(e2)
    ensures e1 == e2
  {
  }

  /** The attribute keys the bridge writes are distinct texts, so building
      `error_attrs` by a comprehension, an `update` and one more assignment
      never overwrites an entry: the keys can be modelled as `AttrKey`s. */
  lemma AttrNamesDistinct(k1: AttrKey<Endpoint>, k2: AttrKey<Endpoint>)
    requires KeyText(Named(k1)) == KeyText(Named(k2))
    ensures k1 == k2
  {
    KeyTextInjective(Named(k1), Named(k2));
    if k1 != BackoffRemainingMin {
      NameInjective(k1.ep, k2.ep);
    }
  }

  /** `int((backoff_until - now) / 60)` for a positive remainder. */
  function MinutesLeft(s: SchedState, now: int): (m: int)
    requires s.backoffUntil > now
    ensures 0 <= m && m * 60 <= s.backoffUntil - now < (m + 1) * 60
  {
    (s.backoffUntil - now) / 60
  }

  /** The entries of `error_attrs` for the endpoints from position `k` of
      the endpoint order on, and the minutes left while the breaker is
      open. */
  function AttrsFrom(s: SchedState, now: int, k: nat): map<AttrKey<Endpoint>, int>
    requires k <= |Order|
    decreases |Order| - k
  {
    if k == |Order| then
      if s.backoffUntil > now then map[BackoffRemainingMin := MinutesLeft(s, now)] else map[]
    else
      var e := Order[k];
      var m := AttrsFrom(s, now, k + 1);
      var m1 := if ErrorCount(s, e) > 0 then m[ErrorsOf(e) := ErrorCount(s, e)] else m;
      if e in s.lastSuccess then m1[LastSuccessOf(e) := s.lastSuccess[e]] else m1
  }

  /** `error_attrs`: the nonzero counters, updated with every recorded
      success time, then the minutes left while the breaker is open. */
  function ErrorAttrs(s: SchedState, now: int): map<AttrKey<Endpoint>, int> {
    AttrsFrom(s, now, 0)
  }

  lemma {:induction false} AttrsFromAt(s: SchedState, now: int, k: nat, x: AttrKey<Endpoint>)
    requires k <= |Order|
    ensures var r := AttrsFrom(s, now, k);
            && (x.ErrorsOf? ==> (x in r <==> Index(x.ep) >= k && ErrorCount(s, x.ep) > 0)
                                && (x in r ==> r[x] == ErrorCount(s, x.ep)))
            && (x.LastSuccessOf? ==> (x in r <==> Index(x.ep) >= k && x.ep in s.lastSuccess)
                                     && (x in r ==> r[x] == s.lastSuccess[x.ep]))
            && (x.LastErrorOf? ==> x !in r)
            && (x.BackoffRemainingMin? ==> (x in r <==> s.backoffUntil > now)
                                           && (x in r ==> r[x] == MinutesLeft(s, now)))
    decreases |Order| - k
  {
    if k < |Order| {
      AttrsFromAt(s, now, k + 1, x);
      IndexOfOrder(k);
      if !x.BackoffRemainingMin? {
        assert x.ep == Order[k] <==> Index(x.ep) == k;
      }
    }
  }

  /** Key by key: a counter appears only when it is nonzero, every recorded
      success appears with its time, no last-error entry exists in the
      bridge, and the minutes left appear only while the breaker is open. */
  lemma ErrorAttrsAt(s: SchedState, now: int, k: AttrKey<Endpoint>)
    ensures var r := ErrorAttrs(s, now);
            && (k.ErrorsOf? ==> (k in r <==> ErrorCount(s, k.ep) > 0)
                                && (k in r ==> r[k] == ErrorCount(s, k.ep)))
            && (k.LastSuccessOf? ==> (k in r <==> k.ep in s.lastSuccess)
                                     && (k in r ==> r[k] == s.lastSuccess[k.ep]))
            && (k.LastErrorOf? ==> k !in r)
            && (k.BackoffRemainingMin? ==> (k in r <==> s.backoffUntil > now)
                                           && (k in r ==> r[k] == MinutesLeft(s, now)))
  {
    AttrsFromAt(s, now, 0, k);
  }

  /** `error_attrs or None`: what the binary sensor publishes as
      attributes. It is None exactly when no counter is nonzero, no success
      is recorded and the breaker is closed. */
  function StatusAttrs(s: SchedState, now: int): (r: Option<map<AttrKey<Endpoint>, int>>)
    ensures r.None? <==>
              (forall e :: ErrorCount(s, e) == 0) && s.lastSuccess == map[] && s.backoffUntil <= now
  {
    var a := ErrorAttrs(s, now);
    if a == map[] then
      assert (forall e :: ErrorCount(s, e) == 0) && s.lastSuccess == map[] && s.backoffUntil <= now by {
        forall e ensures ErrorCount(s, e) == 0 && e !in s.lastSuccess {
          ErrorAttrsAt(s, now, ErrorsOf(e));
          ErrorAttrsAt(s, now, LastSuccessOf(e));
        }
        ErrorAttrsAt(s, now, BackoffRemainingMin);
      }
      None
    else
      assert !(forall e :: ErrorCount(s, e) == 0) || s.lastSuccess != map[] || s.backoffUntil > now by {
        var k :| k in a;
        ErrorAttrsAt(s, now, k);
      }
      Some(a)
  }

  /** Right after a 403, the attributes show the breaker open for a full
      sixty minutes; once the hour is over the key is gone again. */
  lemma TripShowsSixtyMinutes(s: SchedState, iv: Intervals, now: int, wall: int,
                              outcome: Endpoint -> Outcome, offset: Endpoint -> int)
    requires Complete(s.nextFetch)
    requires Cycle(s, iv, now, wall, outcome, offset).tripped
    ensures var t := Cycle(s, iv, now, wall, outcome, offset).state;
            && BackoffRemainingMin in ErrorAttrs(t, now)
            && ErrorAttrs(t, now)[BackoffRemainingMin] == 60
            && BackoffRemainingMin !in ErrorAttrs(t, now + Backoff403)
  {
    CycleSchedule(s, iv, now, wall, outcome, offset, Matrix);
    var t := Cycle(s, iv, now, wall, outcome, offset).state;
    ErrorAttrsAt(t, now, BackoffRemainingMin);
    ErrorAttrsAt(t, now + Backoff403, BackoffRemainingMin);
  }

  // ---------------------------------------------------------------------
  // api_consecutive_errors
  // ---------------------------------------------------------------------

  /** The counters from position `k` of the endpoint order on, summed. */
  function ErrorsFrom(s: SchedState, k: nat): nat
    requires k <= |Order|
    decreases |Order| - k
  {
    if k == |Order| then 0 else ErrorCount(s, Order[k]) + ErrorsFrom(s, k + 1)
  }

  lemma {:induction false} ErrorsFromBounds(s: SchedState, k: nat)
    requires k <= |Order|
    ensures ErrorsFrom(s, k) == 0 <==> forall e :: Index(e) >= k ==> ErrorCount(s, e) == 0
    ensures forall e :: Index(e) >= k ==> ErrorCount(s, e) <= ErrorsFrom(s, k)
    decreases |Order| - k
  {
    if k < |Order| {
      ErrorsFromBounds(s, k + 1);
      assert Index(Order[k]) == k;
      forall e ensures Index(e) >= k <==> e == Order[k] || Index(e) >= k + 1 {
        assert Order[Index(e)] == e;
      }
    }
  }

  /** `total_errors = sum(consecutive_errors.values())`: zero exactly when
      every counter is zero, and at least every single counter. */
  function TotalErrors(s: SchedState): (r: nat)
    ensures r == 0 <==> forall e :: ErrorCount(s, e) == 0
    ensures forall e :: ErrorCount(s, e) <= r
  {
    ErrorsFromBounds(s, 0);
    ErrorsFrom(s, 0)
  }

  /** The attributes of `api_consecutive_errors`: the nonzero counters, or
      None when there are none. */
  function ErrorSensorAttrs(s: SchedState): (r: Option<map<Endpoint, int>>)
    ensures r.None? <==> TotalErrors(s) == 0
    ensures r.Some? ==> forall e :: (e in r.value <==> ErrorCount(s, e) > 0)
                                    && (e in r.value ==> r.value[e] == ErrorCount(s, e))
  {
    var a := map e | e in s.errors && s.errors[e] > 0 :: s.errors[e] as int;
    if a == map[] then
      assert forall e :: ErrorCount(s, e) == 0 by {
        forall e ensures ErrorCount(s, e) == 0 {
          assert e !in a;
        }
      }
      None
    else
      assert TotalErrors(s) != 0 by {
        var e :| e in a;
        assert ErrorCount(s, e) > 0;
      }
      Some(a)
  }

  /** A cycle in which every endpoint it calls succeeds never raises the
      error total, and one in which every endpoint with a nonzero counter
      is called and succeeds clears it. */
  lemma SuccessesClearErrors(s: SchedState, iv: Intervals, now: int, wall: int,
                             outcome: Endpoint -> Outcome, offset: Endpoint -> int)
    requires Complete(s.nextFetch)
    requires forall e :: e in Cycle(s, iv, now, wall, outcome, offset).attempted ==> outcome(e) == Success
    requires forall e :: ErrorCount(s, e) > 0 ==> e in Cycle(s, iv, now, wall, outcome, offset).attempted
    ensures TotalErrors(Cycle(s, iv, now, wall, outcome, offset).state) == 0
  {
    var t := Cycle(s, iv, now, wall, outcome, offset).state;
    forall e ensures ErrorCount(t, e) == 0 {
      CycleBookkeeping(s, iv, now, wall, outcome, offset, e);
    }
  }
}
