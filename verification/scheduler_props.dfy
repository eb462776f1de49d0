/** What a wake cycle of the bridge's scheduler guarantees, proved about
    the specification `Scheduler.Cycle` that `PollScheduler.WakeCycle`
    performs. */
module SchedulerProps {
  import opened Config
  import opened Scheduler

  // ---------------------------------------------------------------------
  // Which endpoints a cycle calls
  // ---------------------------------------------------------------------

  /** The endpoints from position `k` on that are due at `now`, in the
      fixed order. */
  function DueFrom(nf: map<Endpoint, int>, k: nat, now: int): seq<Endpoint>
    requires Complete(nf) && k <= |Order|
    decreases |Order| - k
  {
    if k == |Order| then []
    else if nf[Order[k]] <= now then [Order[k]] + DueFrom(nf, k + 1, now)
    else DueFrom(nf, k + 1, now)
  }

  /** `DueFrom` lists exactly the due endpoints from position `k` on. */
  lemma {:induction false} DueFromMembers(nf: map<Endpoint, int>, k: nat, now: int)
    requires Complete(nf) && k <= |Order|
    ensures forall e :: e in DueFrom(nf, k, now) <==> Index(e) >= k && nf[e] <= now
    decreases |Order| - k
  {
    if k < |Order| {
      DueFromMembers(nf, k + 1, now);
      IndexOfOrder(k);
      forall e ensures Index(e) >= k <==> e == Order[k] || Index(e) >= k + 1 {
        assert Order[Index(e)] == e;
      }
    }
  }

  /** Each endpoint of `es` comes later in `Order` than the one before it,
      so none comes twice. */
  predicate InOrder(es: seq<Endpoint>) {
    forall i :: 0 <= i < |es| - 1 ==> Index(es[i]) < Index(es[i + 1])
  }

  lemma InOrderCons(x: Endpoint, es: seq<Endpoint>)
    requires InOrder(es) && (es != [] ==> Index(x) < Index(es[0]))
    ensures InOrder([x] + es)
  {
    var r := [x] + es;
    forall i | 1 <= i < |r| - 1 ensures Index(r[i]) < Index(r[i + 1]) {
      assert r[i] == es[i - 1] && r[i + 1] == es[i];
    }
  }

  lemma InOrderPrefix(es: seq<Endpoint>, n: nat)
    requires InOrder(es) && n <= |es|
    ensures InOrder(es[..n])
  {
    var r := es[..n];
    forall i | 0 <= i < |r| - 1 ensures Index(r[i]) < Index(r[i + 1]) {
      assert r[i] == es[i] && r[i + 1] == es[i + 1];
    }
  }

  /** `DueFrom` lists the endpoints in the fixed order. */
  lemma {:induction false} DueFromSorted(nf: map<Endpoint, int>, k: nat, now: int)
    requires Complete(nf) && k <= |Order|
    ensures InOrder(DueFrom(nf, k, now))
    decreases |Order| - k
  {
    if k < |Order| {
      DueFromSorted(nf, k + 1, now);
      var rest := DueFrom(nf, k + 1, now);
      if nf[Order[k]] <= now {
        if rest != [] {
          DueFromMembers(nf, k + 1, now);
          assert rest[0] in rest;
          IndexOfOrder(k);
        }
        InOrderCons(Order[k], rest);
      }
    }
  }

  /** The endpoints due at `now`. */
  function Due(s: SchedState, now: int): seq<Endpoint>
    requires Complete(s.nextFetch)
  {
    DueFrom(s.nextFetch, 0, now)
  }

  /** Some endpoint of `es` answers 403. */
  predicate AnyForbidden(es: seq<Endpoint>, outcome: Endpoint -> Outcome) {
    exists i :: 0 <= i < |es| && Forbidden(outcome(es[i]))
  }

  /** `es` up to and including its first endpoint whose fetch answers 403;
      all of `es` when there is none. */
  function UpToForbidden(es: seq<Endpoint>, outcome: Endpoint -> Outcome): seq<Endpoint> {
    if es == [] then []
    else if Forbidden(outcome(es[0])) then [es[0]]
    else [es[0]] + UpToForbidden(es[1..], outcome)
  }

  /** `UpToForbidden` keeps a prefix, in which only the last endpoint may
      answer 403, and that one does exactly when some endpoint of `es`
      does. */
  lemma {:induction false} UpToForbiddenShape(es: seq<Endpoint>, outcome: Endpoint -> Outcome)
    ensures var r := UpToForbidden(es, outcome);
            && r <= es
            && (forall i :: 0 <= i < |r| - 1 ==> !Forbidden(outcome(r[i])))
            && (AnyForbidden(es, outcome) <==> r != [] && Forbidden(outcome(r[|r| - 1])))
            && (!AnyForbidden(es, outcome) ==> r == es)
  {
    if es != [] && !Forbidden(outcome(es[0])) {
      var tail := es[1..];
      UpToForbiddenShape(tail, outcome);
      var t := UpToForbidden(tail, outcome);
      var r := [es[0]] + t;
      assert es == [es[0]] + tail;
      assert forall i :: 0 < i < |r| ==> r[i] == t[i - 1];
      assert AnyForbidden(es, outcome) <==> AnyForbidden(tail, outcome) by {
        if AnyForbidden(es, outcome) {
          var i :| 0 <= i < |es| && Forbidden(outcome(es[i]));
          assert tail[i - 1] == es[i];
        }
        if AnyForbidden(tail, outcome) {
          var i :| 0 <= i < |tail| && Forbidden(outcome(tail[i]));
          assert es[i + 1] == tail[i];
        }
      }
    }
  }

  /** Positions from `k` on agree, so the same endpoints are due. */
  lemma {:induction false} DueFromFrame(nf1: map<Endpoint, int>, nf2: map<Endpoint, int>, k: nat, now: int)
    requires Complete(nf1) && Complete(nf2) && k <= |Order|
    requires forall j :: k <= j < |Order| ==> nf1[Order[j]] == nf2[Order[j]]
    ensures DueFrom(nf1, k, now) == DueFrom(nf2, k, now)
    decreases |Order| - k
  {
    if k < |Order| {
      DueFromFrame(nf1, nf2, k + 1, now);
    }
  }

  /** Moving endpoint `Order[k]` does not change which later endpoints
      are due. */
  lemma MoveKeepsLaterDue(nf: map<Endpoint, int>, k: nat, v: int, now: int)
    requires Complete(nf) && k < |Order|
    ensures DueFrom(nf[Order[k] := v], k + 1, now) == DueFrom(nf, k + 1, now)
  {
    forall j | k + 1 <= j < |Order| ensures nf[Order[k] := v][Order[j]] == nf[Order[j]] {
      IndexOfOrder(j);
      IndexOfOrder(k);
    }
    DueFromFrame(nf[Order[k] := v], nf, k + 1, now);
  }

  /** A non-403 fetch of a due endpoint `Order[k]` is the first of the
      endpoints the loop calls from `k` on. */
  lemma DueFromAfterFetch(s: SchedState, k: nat, iv: Intervals, now: int, wall: int,
                          o: Outcome, off: int)
    requires k < |Order| && Complete(s.nextFetch) && s.nextFetch[Order[k]] <= now
    ensures var s2 := AfterFetch(s, Order[k], iv, now, wall, o, off);
            DueFrom(s.nextFetch, k, now) == [Order[k]] + DueFrom(s2.nextFetch, k + 1, now)
  {
    var e := Order[k];
    MoveKeepsLaterDue(s.nextFetch, k, now + IntervalOf(iv, e) + off, now);
  }

  lemma {:induction false} RunFromAttempts(s: SchedState, k: nat, iv: Intervals, now: int, wall: int,
                                           outcome: Endpoint -> Outcome, offset: Endpoint -> int)
    requires k <= |Order| && Complete(s.nextFetch)
    ensures var r := RunFrom(s, k, iv, now, wall, outcome, offset);
            r.attempted == UpToForbidden(DueFrom(s.nextFetch, k, now), outcome)
    decreases |Order| - k
  {
    if k < |Order| {
      var e := Order[k];
      if now < s.nextFetch[e] {
        RunFromAttempts(s, k + 1, iv, now, wall, outcome, offset);
      } else if !Forbidden(outcome(e)) {
        var s2 := AfterFetch(s, e, iv, now, wall, outcome(e), offset(e));
        DueFromAfterFetch(s, k, iv, now, wall, outcome(e), offset(e));
        RunFromAttempts(s2, k + 1, iv, now, wall, outcome, offset);
        var due := DueFrom(s.nextFetch, k, now);
        assert due[1..] == DueFrom(s2.nextFetch, k + 1, now);
      }
    }
  }

  lemma {:induction false} RunFromTrips(s: SchedState, k: nat, iv: Intervals, now: int, wall: int,
                                        outcome: Endpoint -> Outcome, offset: Endpoint -> int)
    requires k <= |Order| && Complete(s.nextFetch)
    ensures var r := RunFrom(s, k, iv, now, wall, outcome, offset);
            r.tripped <==> AnyForbidden(DueFrom(s.nextFetch, k, now), outcome)
    decreases |Order| - k
  {
    if k < |Order| {
      var e := Order[k];
      var due := DueFrom(s.nextFetch, k, now);
      if now < s.nextFetch[e] {
        RunFromTrips(s, k + 1, iv, now, wall, outcome, offset);
      } else if Forbidden(outcome(e)) {
        assert due[0] == e;
      } else {
        var s2 := AfterFetch(s, e, iv, now, wall, outcome(e), offset(e));
        DueFromAfterFetch(s, k, iv, now, wall, outcome(e), offset(e));
        RunFromTrips(s2, k + 1, iv, now, wall, outcome, offset);
        var later := DueFrom(s2.nextFetch, k + 1, now);
        if AnyForbidden(due, outcome) {
          var i :| 0 <= i < |due| && Forbidden(outcome(due[i]));
          assert i > 0 && later[i - 1] == due[i];
        }
        if AnyForbidden(later, outcome) {
          var i :| 0 <= i < |later| && Forbidden(outcome(later[i]));
          assert due[i + 1] == later[i];
        }
      }
    }
  }

  /** Outside a backoff, a cycle calls the due endpoints in the fixed
      order, stopping right after the first one that answers 403; it
      reports a trip exactly when some due endpoint answers 403. */
  lemma CycleAttemptsDueInOrder(s: SchedState, iv: Intervals, now: int, wall: int,
                                outcome: Endpoint -> Outcome, offset: Endpoint -> int)
    requires Complete(s.nextFetch) && s.backoffUntil <= now
    ensures var r := Cycle(s, iv, now, wall, outcome, offset);
            && r.attempted == UpToForbidden(Due(s, now), outcome)
            && (r.tripped <==> AnyForbidden(Due(s, now), outcome))
  {
    RunFromAttempts(s, 0, iv, now, wall, outcome, offset);
    RunFromTrips(s, 0, iv, now, wall, outcome, offset);
  }

  /** Only due endpoints are called, none twice, in the fixed order. */
  lemma CycleCallsOnlyDue(s: SchedState, iv: Intervals, now: int, wall: int,
                          outcome: Endpoint -> Outcome, offset: Endpoint -> int)
    requires Complete(s.nextFetch)
    ensures forall e :: e in Cycle(s, iv, now, wall, outcome, offset).attempted ==>
                          s.nextFetch[e] <= now && s.backoffUntil <= now
  {
    if s.backoffUntil <= now {
      CycleAttemptsDueInOrder(s, iv, now, wall, outcome, offset);
      var due := Due(s, now);
      UpToForbiddenShape(due, outcome);
      DueFromMembers(s.nextFetch, 0, now);
      var a := Cycle(s, iv, now, wall, outcome, offset).attempted;
      forall e | e in a ensures e in due {
        var i :| 0 <= i < |a| && a[i] == e;
        assert due[i] == e;
      }
    }
  }

  /** Each endpoint a cycle calls comes later in the fixed order than the
      one called before it: none is called twice. */
  lemma CycleCallsInOrder(s: SchedState, iv: Intervals, now: int, wall: int,
                          outcome: Endpoint -> Outcome, offset: Endpoint -> int)
    requires Complete(s.nextFetch)
    ensures InOrder(Cycle(s, iv, now, wall, outcome, offset).attempted)
  {
    if s.backoffUntil <= now {
      CycleAttemptsDueInOrder(s, iv, now, wall, outcome, offset);
      var due := Due(s, now);
      UpToForbiddenShape(due, outcome);
      DueFromSorted(s.nextFetch, 0, now);
      var a := Cycle(s, iv, now, wall, outcome, offset).attempted;
      assert a == due[..|a|];
      InOrderPrefix(due, |a|);
    }
  }

  // ---------------------------------------------------------------------
  // What a cycle does to each endpoint
  // ---------------------------------------------------------------------

  /** `m2` agrees with `m1` about `e`: both lack it, or both hold the same
      value for it. */
  predicate SameAt<V(==)>(m1: map<Endpoint, V>, m2: map<Endpoint, V>, e: Endpoint) {
    (e in m1 <==> e in m2) && (e in m1 ==> m1[e] == m2[e])
  }

  /** The endpoints called from position `k` on sit at or after `k`. */
  lemma AttemptedFrom(s: SchedState, k: nat, iv: Intervals, now: int, wall: int,
                      outcome: Endpoint -> Outcome, offset: Endpoint -> int, e: Endpoint)
    requires k <= |Order| && Complete(s.nextFetch)
    ensures e in RunFrom(s, k, iv, now, wall, outcome, offset).attempted ==> Index(e) >= k
  {
    var a := RunFrom(s, k, iv, now, wall, outcome, offset).attempted;
    if e in a {
      RunFromAttempts(s, k, iv, now, wall, outcome, offset);
      var due := DueFrom(s.nextFetch, k, now);
      UpToForbiddenShape(due, outcome);
      DueFromMembers(s.nextFetch, k, now);
      var i :| 0 <= i < |a| && a[i] == e;
      assert due[i] == e;
    }
  }

  /** What one non-403 fetch of `f` does to the bookkeeping of `e`. */
  lemma AfterFetchAt(s: SchedState, f: Endpoint, iv: Intervals, now: int, wall: int,
                     o: Outcome, off: int, e: Endpoint)
    requires Complete(s.nextFetch)
    ensures var s2 := AfterFetch(s, f, iv, now, wall, o, off);
            && s2.backoffUntil == s.backoffUntil
            && (e != f ==> SameAt(s2.errors, s.errors, e) && SameAt(s2.lastSuccess, s.lastSuccess, e)
                           && s2.nextFetch[e] == s.nextFetch[e])
            && (e == f && o == Success ==> e in s2.errors && s2.errors[e] == 0
                                           && e in s2.lastSuccess && s2.lastSuccess[e] == wall)
            && (e == f && o != Success ==> e in s2.errors && s2.errors[e] == ErrorCount(s, e) + 1
                                           && SameAt(s2.lastSuccess, s.lastSuccess, e))
            && (e == f ==> s2.nextFetch[e] == now + IntervalOf(iv, e) + off)
  {
  }

  /** A fetch of `f` leaves every other endpoint's bookkeeping alone. */
  lemma AfterFetchOther(s: SchedState, f: Endpoint, iv: Intervals, now: int, wall: int,
                        o: Outcome, off: int, e: Endpoint)
    requires e != f
    ensures var s2 := AfterFetch(s, f, iv, now, wall, o, off);
            && SameAt(s2.errors, s.errors, e) && SameAt(s2.lastSuccess, s.lastSuccess, e)
            && SameAt(s2.nextFetch, s.nextFetch, e)
  {
  }

  /** An endpoint the loop does not call, or that answers 403, keeps its
      counter and its last-success time. */
  lemma {:induction false} RunFromUntouched(s: SchedState, k: nat, iv: Intervals, now: int, wall: int,
                                            outcome: Endpoint -> Outcome, offset: Endpoint -> int, e: Endpoint)
    requires k <= |Order| && Complete(s.nextFetch)
    ensures var r := RunFrom(s, k, iv, now, wall, outcome, offset);
            e !in r.attempted || Forbidden(outcome(e)) ==>
              SameAt(r.state.errors, s.errors, e) && SameAt(r.state.lastSuccess, s.lastSuccess, e)
    decreases |Order| - k, 1
  {
    if k < |Order| {
      var f := Order[k];
      if now < s.nextFetch[f] {
        RunFromUntouched(s, k + 1, iv, now, wall, outcome, offset, e);
      } else if !Forbidden(outcome(f)) {
        UntouchedAfterFetch(s, k, iv, now, wall, outcome, offset, e);
      }
    }
  }

  lemma UntouchedAfterFetch(s: SchedState, k: nat, iv: Intervals, now: int, wall: int,
                            outcome: Endpoint -> Outcome, offset: Endpoint -> int, e: Endpoint)
    requires k < |Order| && Complete(s.nextFetch)
    requires s.nextFetch[Order[k]] <= now && !Forbidden(outcome(Order[k]))
    ensures var r := RunFrom(s, k, iv, now, wall, outcome, offset);
            e !in r.attempted || Forbidden(outcome(e)) ==>
              SameAt(r.state.errors, s.errors, e) && SameAt(r.state.lastSuccess, s.lastSuccess, e)
    decreases |Order| - k, 0
  {
    var f := Order[k];
    var s2 := AfterFetch(s, f, iv, now, wall, outcome(f), offset(f));
    if e != f {
      AfterFetchOther(s, f, iv, now, wall, outcome(f), offset(f), e);
      RunFromUntouched(s2, k + 1, iv, now, wall, outcome, offset, e);
    }
  }

  /** The bookkeeping a non-403 fetch of `e` leaves for `e`, relative to
      the state `s` before it. */
  predicate SettledAt(t: SchedState, s: SchedState, e: Endpoint, o: Outcome, wall: int) {
    if o == Success then
      e in t.errors && t.errors[e] == 0 && e in t.lastSuccess && t.lastSuccess[e] == wall
    else
      e in t.errors && t.errors[e] == ErrorCount(s, e) + 1 && SameAt(t.lastSuccess, s.lastSuccess, e)
  }

  /** An endpoint the loop calls and that does not answer 403 ends with
      the bookkeeping its own fetch wrote. */
  lemma {:induction false} RunFromSettled(s: SchedState, k: nat, iv: Intervals, now: int, wall: int,
                                          outcome: Endpoint -> Outcome, offset: Endpoint -> int, e: Endpoint)
    requires k <= |Order| && Complete(s.nextFetch)
    requires e in RunFrom(s, k, iv, now, wall, outcome, offset).attempted && !Forbidden(outcome(e))
    ensures SettledAt(RunFrom(s, k, iv, now, wall, outcome, offset).state, s, e, outcome(e), wall)
    decreases |Order| - k, 1
  {
    var f := Order[k];
    if now < s.nextFetch[f] {
      RunFromSettled(s, k + 1, iv, now, wall, outcome, offset, e);
    } else if e == f {
      SettledHere(s, k, iv, now, wall, outcome, offset, e);
    } else {
      SettledLater(s, k, iv, now, wall, outcome, offset, e);
    }
  }

  lemma SettledHere(s: SchedState, k: nat, iv: Intervals, now: int, wall: int,
                    outcome: Endpoint -> Outcome, offset: Endpoint -> int, e: Endpoint)
    requires k < |Order| && Complete(s.nextFetch) && e == Order[k]
    requires s.nextFetch[e] <= now && !Forbidden(outcome(e))
    ensures SettledAt(RunFrom(s, k, iv, now, wall, outcome, offset).state, s, e, outcome(e), wall)
  {
    var s2 := AfterFetch(s, e, iv, now, wall, outcome(e), offset(e));
    var t := RunFrom(s, k, iv, now, wall, outcome, offset).state;
    RunFromFetch(s, k, iv, now, wall, outcome, offset);
    AttemptedFrom(s2, k + 1, iv, now, wall, outcome, offset, e);
    IndexOfOrder(k);
    RunFromUntouched(s2, k + 1, iv, now, wall, outcome, offset, e);
    SettledByFetch(s, t, e, iv, now, wall, outcome(e), offset(e));
  }

  /** A state that agrees with the one right after `e`'s own fetch about
      `e`'s bookkeeping holds what that fetch wrote. */
  lemma SettledByFetch(s: SchedState, t: SchedState, e: Endpoint, iv: Intervals, now: int, wall: int,
                       o: Outcome, off: int)
    requires Complete(s.nextFetch)
    requires var s2 := AfterFetch(s, e, iv, now, wall, o, off);
             SameAt(t.errors, s2.errors, e) && SameAt(t.lastSuccess, s2.lastSuccess, e)
    ensures SettledAt(t, s, e, o, wall)
  {
    AfterFetchAt(s, e, iv, now, wall, o, off, e);
  }

  lemma SettledLater(s: SchedState, k: nat, iv: Intervals, now: int, wall: int,
                     outcome: Endpoint -> Outcome, offset: Endpoint -> int, e: Endpoint)
    requires k < |Order| && Complete(s.nextFetch) && e != Order[k]
    requires s.nextFetch[Order[k]] <= now && !Forbidden(outcome(Order[k])) && !Forbidden(outcome(e))
    requires e in RunFrom(s, k, iv, now, wall, outcome, offset).attempted
    ensures SettledAt(RunFrom(s, k, iv, now, wall, outcome, offset).state, s, e, outcome(e), wall)
    decreases |Order| - k, 0
  {
    var f := Order[k];
    var s2 := AfterFetch(s, f, iv, now, wall, outcome(f), offset(f));
    AfterFetchOther(s, f, iv, now, wall, outcome(f), offset(f), e);
    RunFromSettled(s2, k + 1, iv, now, wall, outcome, offset, e);
    SettledTransfer(RunFrom(s2, k + 1, iv, now, wall, outcome, offset).state, s2, s, e, outcome(e), wall);
  }

  /** `SettledAt` relative to a state that agrees with `s` about `e`'s
      bookkeeping holds relative to `s` too. */
  lemma SettledTransfer(t: SchedState, s2: SchedState, s: SchedState, e: Endpoint, o: Outcome, wall: int)
    requires SettledAt(t, s2, e, o, wall)
    requires SameAt(s2.errors, s.errors, e) && SameAt(s2.lastSuccess, s.lastSuccess, e)
    ensures SettledAt(t, s, e, o, wall)
  {
  }

  /** Each endpoint's counter and last-success time after a cycle: reset
      and stamped on success, one more on a failure other than 403, and
      untouched when it was not called or answered 403. No endpoint's
      outcome affects another endpoint's bookkeeping. */
  lemma CycleBookkeeping(s: SchedState, iv: Intervals, now: int, wall: int,
                         outcome: Endpoint -> Outcome, offset: Endpoint -> int, e: Endpoint)
    requires Complete(s.nextFetch)
    ensures var r := Cycle(s, iv, now, wall, outcome, offset);
            && (e !in r.attempted || Forbidden(outcome(e)) ==>
                  SameAt(r.state.errors, s.errors, e) && SameAt(r.state.lastSuccess, s.lastSuccess, e))
            && (e in r.attempted && outcome(e) == Success ==>
                  ErrorCount(r.state, e) == 0 && e in r.state.lastSuccess && r.state.lastSuccess[e] == wall)
            && (e in r.attempted && outcome(e) != Success && !Forbidden(outcome(e)) ==>
                  ErrorCount(r.state, e) == ErrorCount(s, e) + 1
                  && SameAt(r.state.lastSuccess, s.lastSuccess, e))
  {
    if s.backoffUntil <= now {
      RunFromUntouched(s, 0, iv, now, wall, outcome, offset, e);
      var r := RunFrom(s, 0, iv, now, wall, outcome, offset);
      if e in r.attempted && !Forbidden(outcome(e)) {
        RunFromSettled(s, 0, iv, now, wall, outcome, offset, e);
      }
    }
  }

  /** A loop that stops on a 403 leaves the breaker open for an hour and
      every endpoint staggered past it. */
  lemma {:induction false} RunFromTripState(s: SchedState, k: nat, iv: Intervals, now: int, wall: int,
                                            outcome: Endpoint -> Outcome, offset: Endpoint -> int)
    requires k <= |Order| && Complete(s.nextFetch)
    ensures var r := RunFrom(s, k, iv, now, wall, outcome, offset);
            r.tripped ==> r.state.backoffUntil == now + Backoff403
                          && r.state.nextFetch == Stagger(now + Backoff403)
    decreases |Order| - k, 1
  {
    if k < |Order| {
      var f := Order[k];
      if now < s.nextFetch[f] {
        RunFromTripState(s, k + 1, iv, now, wall, outcome, offset);
      } else if !Forbidden(outcome(f)) {
        TripStateAfterFetch(s, k, iv, now, wall, outcome, offset);
      }
    }
  }

  lemma TripStateAfterFetch(s: SchedState, k: nat, iv: Intervals, now: int, wall: int,
                            outcome: Endpoint -> Outcome, offset: Endpoint -> int)
    requires k < |Order| && Complete(s.nextFetch)
    requires s.nextFetch[Order[k]] <= now && !Forbidden(outcome(Order[k]))
    ensures var r := RunFrom(s, k, iv, now, wall, outcome, offset);
            r.tripped ==> r.state.backoffUntil == now + Backoff403
                          && r.state.nextFetch == Stagger(now + Backoff403)
    decreases |Order| - k, 0
  {
    var f := Order[k];
    var s2 := AfterFetch(s, f, iv, now, wall, outcome(f), offset(f));
    RunFromTripState(s2, k + 1, iv, now, wall, outcome, offset);
  }

  /** A loop that runs to the end leaves the breaker as it was and every
      endpoint it did not call where it was. */
  lemma {:induction false} RunFromUnmoved(s: SchedState, k: nat, iv: Intervals, now: int, wall: int,
                                          outcome: Endpoint -> Outcome, offset: Endpoint -> int, e: Endpoint)
    requires k <= |Order| && Complete(s.nextFetch)
    ensures var r := RunFrom(s, k, iv, now, wall, outcome, offset);
            !r.tripped ==> r.state.backoffUntil == s.backoffUntil
                           && (e !in r.attempted ==> r.state.nextFetch[e] == s.nextFetch[e])
    decreases |Order| - k, 1
  {
    if k < |Order| {
      var f := Order[k];
      if now < s.nextFetch[f] {
        RunFromUnmoved(s, k + 1, iv, now, wall, outcome, offset, e);
      } else if !Forbidden(outcome(f)) {
        UnmovedAfterFetch(s, k, iv, now, wall, outcome, offset, e);
      }
    }
  }

  lemma UnmovedAfterFetch(s: SchedState, k: nat, iv: Intervals, now: int, wall: int,
                          outcome: Endpoint -> Outcome, offset: Endpoint -> int, e: Endpoint)
    requires k < |Order| && Complete(s.nextFetch)
    requires s.nextFetch[Order[k]] <= now && !Forbidden(outcome(Order[k]))
    ensures var r := RunFrom(s, k, iv, now, wall, outcome, offset);
            !r.tripped ==> r.state.backoffUntil == s.backoffUntil
                           && (e !in r.attempted ==> r.state.nextFetch[e] == s.nextFetch[e])
    decreases |Order| - k, 0
  {
    var f := Order[k];
    var s2 := AfterFetch(s, f, iv, now, wall, outcome(f), offset(f));
    if e != f {
      AfterFetchOther(s, f, iv, now, wall, outcome(f), offset(f), e);
    }
    RunFromUnmoved(s2, k + 1, iv, now, wall, outcome, offset, e);
  }

  /** A loop that runs to the end leaves every endpoint it called due one
      jittered interval after `now`. */
  lemma {:induction false} RunFromRescheduled(s: SchedState, k: nat, iv: Intervals, now: int, wall: int,
                                              outcome: Endpoint -> Outcome, offset: Endpoint -> int, e: Endpoint)
    requires k <= |Order| && Complete(s.nextFetch)
    requires var r := RunFrom(s, k, iv, now, wall, outcome, offset); !r.tripped && e in r.attempted
    ensures RunFrom(s, k, iv, now, wall, outcome, offset).state.nextFetch[e] == now + IntervalOf(iv, e) + offset(e)
    decreases |Order| - k, 1
  {
    var f := Order[k];
    if now < s.nextFetch[f] {
      RunFromRescheduled(s, k + 1, iv, now, wall, outcome, offset, e);
    } else if e == f {
      RescheduledHere(s, k, iv, now, wall, outcome, offset, e);
    } else {
      RescheduledLater(s, k, iv, now, wall, outcome, offset, e);
    }
  }

  lemma RescheduledLater(s: SchedState, k: nat, iv: Intervals, now: int, wall: int,
                         outcome: Endpoint -> Outcome, offset: Endpoint -> int, e: Endpoint)
    requires k < |Order| && Complete(s.nextFetch) && e != Order[k]
    requires s.nextFetch[Order[k]] <= now
    requires var r := RunFrom(s, k, iv, now, wall, outcome, offset); !r.tripped && e in r.attempted
    ensures RunFrom(s, k, iv, now, wall, outcome, offset).state.nextFetch[e] == now + IntervalOf(iv, e) + offset(e)
    decreases |Order| - k, 0
  {
    var f := Order[k];
    var s2 := AfterFetch(s, f, iv, now, wall, outcome(f), offset(f));
    RunFromRescheduled(s2, k + 1, iv, now, wall, outcome, offset, e);
  }

  lemma RescheduledHere(s: SchedState, k: nat, iv: Intervals, now: int, wall: int,
                        outcome: Endpoint -> Outcome, offset: Endpoint -> int, e: Endpoint)
    requires k < |Order| && Complete(s.nextFetch) && e == Order[k]
    requires s.nextFetch[e] <= now && !Forbidden(outcome(e))
    requires !RunFrom(s, k, iv, now, wall, outcome, offset).tripped
    ensures RunFrom(s, k, iv, now, wall, outcome, offset).state.nextFetch[e] == now + IntervalOf(iv, e) + offset(e)
  {
    var s2 := AfterFetch(s, e, iv, now, wall, outcome(e), offset(e));
    RunFromFetch(s, k, iv, now, wall, outcome, offset);
    AttemptedFrom(s2, k + 1, iv, now, wall, outcome, offset, e);
    IndexOfOrder(k);
    RunFromUnmoved(s2, k + 1, iv, now, wall, outcome, offset, e);
    assert s2.nextFetch[e] == now + IntervalOf(iv, e) + offset(e);
  }

  /** The schedule after a cycle. A 403 opens the breaker for an hour from
      `now` and pushes every endpoint past it, `5 * i` seconds apart;
      otherwise the breaker is unchanged, every called endpoint is due
      again one jittered interval after `now`, and the others keep their
      due times. */
  lemma CycleSchedule(s: SchedState, iv: Intervals, now: int, wall: int,
                      outcome: Endpoint -> Outcome, offset: Endpoint -> int, e: Endpoint)
    requires Complete(s.nextFetch)
    ensures var r := Cycle(s, iv, now, wall, outcome, offset);
            && (r.tripped ==> r.state.backoffUntil == now + Backoff403
                              && r.state.nextFetch == Stagger(now + Backoff403))
            && (!r.tripped ==> r.state.backoffUntil == s.backoffUntil
                               && r.state.nextFetch[e] ==
                                    if e in r.attempted then now + IntervalOf(iv, e) + offset(e)
                                    else s.nextFetch[e])
  {
    if s.backoffUntil <= now {
      RunFromTripState(s, 0, iv, now, wall, outcome, offset);
      RunFromUnmoved(s, 0, iv, now, wall, outcome, offset, e);
      var r := RunFrom(s, 0, iv, now, wall, outcome, offset);
      if !r.tripped && e in r.attempted {
        RunFromRescheduled(s, 0, iv, now, wall, outcome, offset, e);
      }
    }
  }

  /** While the breaker is open a cycle changes nothing. */
  lemma BackoffFreezes(s: SchedState, iv: Intervals, now: int, wall: int,
                       outcome: Endpoint -> Outcome, offset: Endpoint -> int)
    requires Complete(s.nextFetch) && s.backoffUntil > now
    ensures Cycle(s, iv, now, wall, outcome, offset) == CycleResult(s, [], false)
  {
  }

  /** After a 403 every cycle of the following hour calls nothing, and
      every endpoint is due again only once the hour is over. */
  lemma TripSilencesOneHour(s: SchedState, iv: Intervals, now: int, wall: int,
                            outcome: Endpoint -> Outcome, offset: Endpoint -> int,
                            later: int, wall2: int, outcome2: Endpoint -> Outcome, offset2: Endpoint -> int)
    requires Complete(s.nextFetch)
    requires Cycle(s, iv, now, wall, outcome, offset).tripped
    requires now <= later < now + Backoff403
    ensures var t := Cycle(s, iv, now, wall, outcome, offset).state;
            && Cycle(t, iv, later, wall2, outcome2, offset2) == CycleResult(t, [], false)
            && forall e :: t.nextFetch[e] >= now + Backoff403 > now
  {
    CycleSchedule(s, iv, now, wall, outcome, offset, Matrix);
    StaggerShape(now + Backoff403);
    var t := Cycle(s, iv, now, wall, outcome, offset).state;
    forall e ensures t.nextFetch[e] >= now + Backoff403 {
      assert Order[Index(e)] == e;
    }
  }

  /** A freshly staggered schedule, in its first five seconds, releases
      only the first endpoint. */
  lemma StaggerReleasesMatrixFirst(s: SchedState, base: int, iv: Intervals, now: int, wall: int,
                                   outcome: Endpoint -> Outcome, offset: Endpoint -> int)
    requires s.nextFetch == Stagger(base) && Complete(s.nextFetch) && s.backoffUntil <= now
    requires base <= now < base + StaggerStep
    ensures Cycle(s, iv, now, wall, outcome, offset).attempted == [Matrix]
  {
    StaggerShape(base);
    NoneDueFrom(s.nextFetch, 1, now);
    assert Due(s, now) == [Matrix];
    RunFromAttempts(s, 0, iv, now, wall, outcome, offset);
  }

  /** No endpoint from position `k` on is due when all of them lie after
      `now`. */
  lemma {:induction false} NoneDueFrom(nf: map<Endpoint, int>, k: nat, now: int)
    requires Complete(nf) && k <= |Order|
    requires forall j :: k <= j < |Order| ==> now < nf[Order[j]]
    ensures DueFrom(nf, k, now) == []
    decreases |Order| - k
  {
    if k < |Order| {
      NoneDueFrom(nf, k + 1, now);
    }
  }

  /** The first cycle after start-up calls only the DXCC matrix; so does
      the first cycle after a 403 pause, whenever it comes in the five
      seconds after the pause ends. */
  lemma FirstCyclesCallMatrixOnly(start: int, iv: Intervals, wall: int,
                                  outcome: Endpoint -> Outcome, offset: Endpoint -> int)
    requires start >= 0
    ensures Cycle(InitialState(start), iv, start, wall, outcome, offset).attempted == [Matrix]
  {
    StaggerReleasesMatrixFirst(InitialState(start), start, iv, start, wall, outcome, offset);
  }

  lemma ResumeCallsMatrixOnly(s: SchedState, iv: Intervals, now: int, wall: int,
                              outcome: Endpoint -> Outcome, offset: Endpoint -> int,
                              later: int, wall2: int, outcome2: Endpoint -> Outcome, offset2: Endpoint -> int)
    requires Complete(s.nextFetch)
    requires Cycle(s, iv, now, wall, outcome, offset).tripped
    requires now + Backoff403 <= later < now + Backoff403 + StaggerStep
    ensures Cycle(Cycle(s, iv, now, wall, outcome, offset).state, iv, later, wall2, outcome2, offset2).attempted == [Matrix]
  {
    CycleSchedule(s, iv, now, wall, outcome, offset, Matrix);
    var t := Cycle(s, iv, now, wall, outcome, offset).state;
    StaggerReleasesMatrixFirst(t, now + Backoff403, iv, later, wall2, outcome2, offset2);
  }

  // ---------------------------------------------------------------------
  // Jitter
  // ---------------------------------------------------------------------

  /** A rescheduled endpoint is due again within a tenth of its interval
      of `now + interval`; a zero interval makes it due at once, and a
      positive one strictly later than `now`. */
  lemma CycleJitter(s: SchedState, iv: Intervals, now: int, wall: int,
                    outcome: Endpoint -> Outcome, offset: Endpoint -> int, e: Endpoint)
    requires Complete(s.nextFetch)
    requires JitterBounded(IntervalOf(iv, e), offset(e))
    requires var r := Cycle(s, iv, now, wall, outcome, offset); !r.tripped && e in r.attempted
    ensures var t := Cycle(s, iv, now, wall, outcome, offset).state;
            && Abs(t.nextFetch[e] - (now + IntervalOf(iv, e))) * 10 <= Abs(IntervalOf(iv, e))
            && (IntervalOf(iv, e) == 0 ==> t.nextFetch[e] == now)
            && (IntervalOf(iv, e) > 0 ==> t.nextFetch[e] > now)
  {
    CycleSchedule(s, iv, now, wall, outcome, offset, e);
  }
}
