/** The standalone bridge's polling loop (`main` in clublog-ha-bridge.py):
    six endpoints, each with its own next-due time, consecutive-error
    counter and last-success time, and one global 403 circuit breaker.

    One pass of the `while RUNNING` loop is a *wake cycle*. Its inputs are
    the monotonic time `now`, the wall-clock time `wall`, what each fetch
    would do (`outcome`) and the jitter each reschedule would draw
    (`offset`). `Cycle` specifies a wake cycle as a fold over the fixed
    endpoint order; `PollScheduler.WakeCycle` performs it in place. */
module Scheduler {
  import opened Config
  import opened Health

  // ---------------------------------------------------------------------
  // Endpoints and their fixed order
  // ---------------------------------------------------------------------

  datatype Endpoint = Matrix | MostWanted | Watch | Expeditions | Livestreams | Activity

  /** The key order of the `intervals` dict, which is also the key order
      of `next_fetch`: it fixes both the startup stagger and the order in
      which a cycle visits the endpoints. */
  const Order: seq<Endpoint> := [Matrix, MostWanted, Watch, Expeditions, Livestreams, Activity]

  /** The position of an endpoint in `Order`. */
  function Index(e: Endpoint): (k: nat)
    ensures k < |Order| && Order[k] == e
  {
    match e
    case Matrix => 0
    case MostWanted => 1
    case Watch => 2
    case Expeditions => 3
    case Livestreams => 4
    case Activity => 5
  }

  /** `Index` undoes indexing into `Order`. */
  lemma IndexOfOrder(k: nat)
    requires k < |Order|
    ensures Index(Order[k]) == k
  {
  }

  /** The endpoint's key in the bridge's dicts and log lines. */
  function Name(e: Endpoint): string {
    match e
    case Matrix => "matrix"
    case MostWanted => "most_wanted"
    case Watch => "watch"
    case Expeditions => "expeditions"
    case Livestreams => "livestreams"
    case Activity => "activity"
  }

  /** The configured polling interval of an endpoint. */
  function IntervalOf(iv: Intervals, e: Endpoint): int {
    match e
    case Matrix => iv.matrix
    case MostWanted => iv.mostWanted
    case Watch => iv.watch
    case Expeditions => iv.expeditions
    case Livestreams => iv.livestreams
    case Activity => iv.activity
  }

  // ---------------------------------------------------------------------
  // Constants and inputs
  // ---------------------------------------------------------------------

  /** Seconds between the first due times of consecutive endpoints. */
  const StaggerStep := 5

  /** How long a 403 pauses every request (`backoff_403`). */
  const Backoff403 := 3600

  function Abs(x: int): nat {
    if x < 0 then -x else x
  }

  /** `_jittered(interval) - interval` lies within `JITTER_FACTOR = 0.1`
      of the interval: `random.uniform(-j, j)` with `j = interval * 0.1`. */
  predicate JitterBounded(interval: int, offset: int) {
    Abs(offset) * 10 <= Abs(interval)
  }

  /** What calling an endpoint's fetcher does. */
  datatype Outcome =
    | Success               // the fetch and the publishes complete
    | Http(status: int)     // `requests.HTTPError` with a response
    | HttpNoResponse        // `requests.HTTPError` whose response is None
    | Other                 // any other exception

  /** Only an HTTP error carrying status 403 trips the circuit breaker. */
  predicate Forbidden(o: Outcome) {
    o.Http? && o.status == 403
  }

  // ---------------------------------------------------------------------
  // State
  // ---------------------------------------------------------------------

  /** `next_fetch`, `consecutive_errors`, `last_success` and
      `backoff_until`. The two dicts that start empty are partial maps. */
  datatype SchedState = SchedState(
    nextFetch: map<Endpoint, int>,
    errors: map<Endpoint, nat>,
    lastSuccess: map<Endpoint, int>,
    backoffUntil: int)

  /** `next_fetch` has an entry for every endpoint. */
  predicate Complete(nf: map<Endpoint, int>) {
    forall e: Endpoint :: e in nf
  }

  /** `consecutive_errors.get(e, 0)`. */
  function ErrorCount(s: SchedState, e: Endpoint): nat {
    if e in s.errors then s.errors[e] else 0
  }

  /** `Order` lists every endpoint. */
  lemma AllInOrder()
    ensures forall e: Endpoint :: e in Order
  {
    forall e: Endpoint ensures e in Order {
      assert Order[Index(e)] == e;
    }
  }

  /** Every endpoint due `StaggerStep` seconds after the one before it, the
      first at `base`. */
  function Stagger(base: int): map<Endpoint, int> {
    map e: Endpoint | e in Order :: base + StaggerStep * Index(e)
  }

  /** The staggered schedule has every endpoint, the k-th due at
      `base + StaggerStep * k`. */
  lemma StaggerShape(base: int)
    ensures Complete(Stagger(base))
    ensures forall k :: 0 <= k < |Order| ==> Stagger(base)[Order[k]] == base + StaggerStep * k
  {
    AllInOrder();
  }

  /** The state before the first cycle: staggered from `start`, no counts,
      no successes, not in backoff (`backoff_until = 0.0`). */
  function InitialState(start: int): (s: SchedState)
    ensures Complete(s.nextFetch)
  {
    StaggerShape(start);
    SchedState(Stagger(start), map[], map[], 0)
  }

  /** A staggered schedule releases the endpoints strictly one after the
      other, none before `base`. */
  lemma StaggerIncreasing(base: int, i: nat, j: nat)
    requires i < j < |Order|
    ensures base <= Stagger(base)[Order[i]] < Stagger(base)[Order[j]]
  {
    StaggerShape(base);
  }

  // ---------------------------------------------------------------------
  // The wake cycle, as a specification
  // ---------------------------------------------------------------------

  /** The bookkeeping of the `try`/`except` arms for a fetch that did not
      trip the breaker. */
  function Record(s: SchedState, e: Endpoint, o: Outcome, wall: int): SchedState {
    if o == Success then
      s.(errors := s.errors[e := 0], lastSuccess := s.lastSuccess[e := wall])
    else
      s.(errors := s.errors[e := ErrorCount(s, e) + 1])
  }

  /** The 403 arm: pause for `Backoff403` seconds and push every endpoint
      past the pause, staggered again. */
  function Trip(s: SchedState, now: int): SchedState {
    s.(backoffUntil := now + Backoff403, nextFetch := Stagger(now + Backoff403))
  }

  /** A fetch that did not trip the breaker: its bookkeeping, then the
      `finally` arm's reschedule to `now` plus the jittered interval. */
  function AfterFetch(s: SchedState, e: Endpoint, iv: Intervals, now: int, wall: int,
                      o: Outcome, off: int): SchedState
  {
    var s1 := Record(s, e, o, wall);
    s1.(nextFetch := s1.nextFetch[e := now + IntervalOf(iv, e) + off])
  }

  /** What a cycle did: the new state, the endpoints whose fetcher it called
      (in call order), and whether it stopped on a 403. */
  datatype CycleResult = CycleResult(state: SchedState, attempted: seq<Endpoint>, tripped: bool)

  /** The `for endpoint, next_time in next_fetch.items()` loop from
      position `k` on. */
  function RunFrom(s: SchedState, k: nat, iv: Intervals, now: int, wall: int,
                   outcome: Endpoint -> Outcome, offset: Endpoint -> int): (r: CycleResult)
    requires k <= |Order| && Complete(s.nextFetch)
    ensures Complete(r.state.nextFetch)
    decreases |Order| - k
  {
    if k == |Order| then CycleResult(s, [], false)
    else
      var e := Order[k];
      if now < s.nextFetch[e] then RunFrom(s, k + 1, iv, now, wall, outcome, offset)
      else if Forbidden(outcome(e)) then StaggerShape(now + Backoff403); CycleResult(Trip(s, now), [e], true)
      else
        var r := RunFrom(AfterFetch(s, e, iv, now, wall, outcome(e), offset(e)), k + 1, iv, now, wall, outcome, offset);
        r.(attempted := [e] + r.attempted)
  }

  /** The loop passes over an endpoint that is not yet due. */
  lemma RunFromSkip(s: SchedState, k: nat, iv: Intervals, now: int, wall: int,
                    outcome: Endpoint -> Outcome, offset: Endpoint -> int)
    requires k < |Order| && Complete(s.nextFetch) && now < s.nextFetch[Order[k]]
    ensures RunFrom(s, k, iv, now, wall, outcome, offset) == RunFrom(s, k + 1, iv, now, wall, outcome, offset)
  {
  }

  /** The loop stops at a due endpoint that answers 403, after tripping
      the breaker. */
  lemma RunFromForbidden(s: SchedState, k: nat, iv: Intervals, now: int, wall: int,
                         outcome: Endpoint -> Outcome, offset: Endpoint -> int)
    requires k < |Order| && Complete(s.nextFetch) && s.nextFetch[Order[k]] <= now
    requires Forbidden(outcome(Order[k]))
    ensures RunFrom(s, k, iv, now, wall, outcome, offset) == CycleResult(Trip(s, now), [Order[k]], true)
  {
  }

  /** A due endpoint that does not answer 403 is called first, and the
      loop goes on from the state its fetch leaves. */
  lemma RunFromFetch(s: SchedState, k: nat, iv: Intervals, now: int, wall: int,
                     outcome: Endpoint -> Outcome, offset: Endpoint -> int)
    requires k < |Order| && Complete(s.nextFetch) && s.nextFetch[Order[k]] <= now
    requires !Forbidden(outcome(Order[k]))
    ensures var e := Order[k];
            var r := RunFrom(AfterFetch(s, e, iv, now, wall, outcome(e), offset(e)), k + 1, iv, now, wall, outcome, offset);
            RunFrom(s, k, iv, now, wall, outcome, offset) == r.(attempted := [e] + r.attempted)
  {
  }

  lemma Reassociate<T>(a: seq<T>, x: T, b: seq<T>)
    ensures a + ([x] + b) == (a + [x]) + b
  {
  }

  /** One wake cycle: nothing at all while the breaker is open. */
  function Cycle(s: SchedState, iv: Intervals, now: int, wall: int,
                 outcome: Endpoint -> Outcome, offset: Endpoint -> int): (r: CycleResult)
    requires Complete(s.nextFetch)
    ensures Complete(r.state.nextFetch)
  {
    if s.backoffUntil > now then CycleResult(s, [], false)
    else RunFrom(s, 0, iv, now, wall, outcome, offset)
  }

  // ---------------------------------------------------------------------
  // The wake cycle, in place
  // ---------------------------------------------------------------------

  /** A map that gives the k-th endpoint `base + StaggerStep * k` is the
      staggered schedule. */
  lemma IsStagger(nf: map<Endpoint, int>, base: int)
    requires forall k :: 0 <= k < |Order| ==> Order[k] in nf && nf[Order[k]] == base + StaggerStep * k
    requires forall e :: e in nf ==> e in Order
    ensures nf == Stagger(base)
  {
    var st := Stagger(base);
    forall e ensures e in nf <==> e in st {
      assert Order[Index(e)] == e;
    }
    forall e | e in nf ensures nf[e] == st[e] {
      assert Order[Index(e)] == e;
    }
  }

  /** `for i, ep in enumerate(...): next_fetch[ep] = base + i * 5`, the
      loop that both staggers the first fetches and pushes every endpoint
      past an opened breaker. */
  method StaggerFrom(nf0: map<Endpoint, int>, base: int) returns (nf: map<Endpoint, int>)
    ensures nf == Stagger(base)
  {
    nf := nf0;
    for i := 0 to |Order|
      invariant forall j :: 0 <= j < i ==> Order[j] in nf && nf[Order[j]] == base + StaggerStep * j
    {
      nf := nf[Order[i] := base + StaggerStep * i];
    }
    AllInOrder();
    IsStagger(nf, base);
  }

  class PollScheduler {
    const intervals: Intervals
    var nextFetch: map<Endpoint, int>
    var errors: map<Endpoint, nat>
    var lastSuccess: map<Endpoint, int>
    var backoffUntil: int

    function State(): SchedState
      reads this
    {
      SchedState(nextFetch, errors, lastSuccess, backoffUntil)
    }

    predicate Valid()
      reads this
    {
      Complete(nextFetch)
    }

    /** The setup before the loop: each endpoint due `5 * i` seconds after
        `start`, in the order of `intervals`. */
    constructor(intervals: Intervals, start: int)
      ensures Valid()
      ensures this.intervals == intervals
      ensures State() == InitialState(start)
    {
      this.intervals := intervals;
      var nf := StaggerFrom(map[], start);
      nextFetch := nf;
      errors := map[];
      lastSuccess := map[];
      backoffUntil := 0;
      StaggerShape(start);
    }

    /** The 403 arm: open the breaker for `Backoff403` seconds and push
        every endpoint past it, `5 * i` seconds apart. */
    method TripBreaker(now: int)
      requires Valid()
      modifies this
      ensures Valid()
      ensures State() == Trip(old(State()), now)
    {
      backoffUntil := now + Backoff403;
      nextFetch := StaggerFrom(nextFetch, backoffUntil);
      StaggerShape(backoffUntil);
    }

    /** The `try` body or a non-403 `except` arm, then the `finally` arm,
        which reschedules the endpoint because the breaker is closed. */
    method Settle(e: Endpoint, o: Outcome, now: int, wall: int, off: int)
      requires Valid() && backoffUntil <= now && !Forbidden(o)
      modifies this
      ensures Valid()
      ensures State() == AfterFetch(old(State()), e, intervals, now, wall, o, off)
    {
      if o == Success {
        errors := errors[e := 0];
        lastSuccess := lastSuccess[e := wall];
      } else {
        errors := errors[e := ErrorCount(State(), e) + 1];
      }
      // `finally`: the breaker is still closed, so the endpoint is rescheduled
      nextFetch := nextFetch[e := now + IntervalOf(intervals, e) + off];
    }

    /** One pass of the `while RUNNING` loop, up to the status publishes.
        Returns the endpoints whose fetcher was called, in call order. */
    method WakeCycle(now: int, wall: int, outcome: Endpoint -> Outcome, offset: Endpoint -> int)
      returns (attempted: seq<Endpoint>)
      requires Valid()
      modifies this
      ensures Valid()
      ensures State() == Cycle(old(State()), intervals, now, wall, outcome, offset).state
      ensures attempted == Cycle(old(State()), intervals, now, wall, outcome, offset).attempted
    {
      attempted := [];
      if backoffUntil > now {
        return;
      }
      ghost var goal := Cycle(State(), intervals, now, wall, outcome, offset);
      // what the rest of the loop still has to do
      ghost var rest := goal;
      for k := 0 to |Order|
        invariant Valid() && backoffUntil <= now
        invariant rest == RunFrom(State(), k, intervals, now, wall, outcome, offset)
        invariant goal.state == rest.state && goal.attempted == attempted + rest.attempted
      {
        var e := Order[k];
        ghost var before := State();
        if now < nextFetch[e] {
          RunFromSkip(before, k, intervals, now, wall, outcome, offset);
          rest := RunFrom(State(), k + 1, intervals, now, wall, outcome, offset);
          continue;
        }
        attempted := attempted + [e];
        var o := outcome(e);
        if o.Http? && o.status == 403 {
          RunFromForbidden(before, k, intervals, now, wall, outcome, offset);
          TripBreaker(now);
          // the `finally` arm finds the breaker open and reschedules nothing
          break;
        }
        RunFromFetch(before, k, intervals, now, wall, outcome, offset);
        Settle(e, o, now, wall, offset(e));
        ghost var next := RunFrom(State(), k + 1, intervals, now, wall, outcome, offset);
        Reassociate(attempted[..|attempted| - 1], e, next.attempted);
        rest := next;
      }
    }
  }
}
