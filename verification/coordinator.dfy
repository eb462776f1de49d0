/** One refresh of the integration's coordinator
    (custom_components/clublog/coordinator.py, `_async_update_data`): four
    fetches in a fixed order, the DXCC totals computed from the matrix right
    after the first, and any client error turning the whole refresh into
    `UpdateFailed` with no data kept. The HTTP session is replaced by the
    outcome each fetch would have. */
module Coordinator {
  import opened Json
  import opened DxccStats

  /** The four fetchers, in the order the refresh calls them. */
  datatype Fetcher = FetchMatrix | FetchMostWanted | FetchExpeditions | FetchWatch

  /** What a fetch comes back with: the decoded body, a
      `ClientResponseError` carrying the HTTP status (`raise_for_status`),
      or another `ClientError` (connection, timeout). */
  datatype Outcome<T> = Got(v: T) | ResponseError(status: int) | ConnectionFailed

  /** An outcome without its body. */
  datatype Status = Ok | Http(code: int) | Connection

  function StatusOf<T>(o: Outcome<T>): Status {
    match o
    case Got(_) => Ok
    case ResponseError(s) => Http(s)
    case ConnectionFailed => Connection
  }

  /** The outcome of every fetch of one refresh. */
  datatype Responses = Responses(
    matrix: Outcome<Matrix>,
    mostWanted: Outcome<Json>,
    expeditions: Outcome<Json>,
    watch: Outcome<Json>)

  function StatusFor(f: Responses, x: Fetcher): Status {
    match x
    case FetchMatrix => StatusOf(f.matrix)
    case FetchMostWanted => StatusOf(f.mostWanted)
    case FetchExpeditions => StatusOf(f.expeditions)
    case FetchWatch => StatusOf(f.watch)
  }

  /** Every fetch of the refresh succeeds. */
  predicate AllOk(f: Responses) {
    f.matrix.Got? && f.mostWanted.Got? && f.expeditions.Got? && f.watch.Got?
  }

  /** `ClubLogData` as the coordinator fills it. */
  datatype ClubLogData = ClubLogData(
    dxccMatrix: Matrix,
    watch: Json,
    mostWanted: Json,
    expeditions: Json,
    dxccWorkedTotal: nat,
    dxccConfirmedTotal: nat,
    dxccVerifiedTotal: nat)

  /** `ClubLogData()`: every field at its default. */
  const EmptyData := ClubLogData([], JObj([]), JList([]), JList([]), 0, 0, 0)

  /** Why a refresh failed: "ClubLog API error" carries the response
      status, "ClubLog connection error" does not. */
  datatype Failure = ApiError(status: int) | ConnectionError

  /** `UpdateFailed(...)` for a failed fetch. */
  function FailureOf(s: Status): Failure
    requires s != Ok
  {
    if s.Http? then ApiError(s.code) else ConnectionError
  }

  /** A refresh either returns the data or raises `UpdateFailed`. */
  datatype UpdateResult = Updated(data: ClubLogData) | UpdateFailed(reason: Failure)

  /** The steps of a refresh, as they happen. */
  datatype Step = Called(fetcher: Fetcher) | CountedEntities

  /** The steps of a refresh in which every fetch succeeds. */
  const FullRun: seq<Step> :=
    [Called(FetchMatrix), CountedEntities, Called(FetchMostWanted), Called(FetchExpeditions), Called(FetchWatch)]

  /** `_async_update_data`. The steps taken are a prefix of `FullRun`
      ending in a fetch: the totals are computed right after the matrix
      arrives and before anything else is fetched, each later fetch runs
      only after every earlier one succeeded, and the refresh stops at the
      first fetch that fails. It returns data exactly when all four fetches
      succeed, and that data holds every body and the coordinator's totals
      of the matrix; otherwise the failure names the first failing fetch's
      status, a 403 included, and no data at all is returned. */
  method UpdateData(f: Responses) returns (r: UpdateResult, steps: seq<Step>)
    ensures steps <= FullRun && steps != [] && steps[|steps| - 1].Called?
    ensures forall i :: 0 <= i < |steps| - 1 && steps[i].Called? ==> StatusFor(f, steps[i].fetcher) == Ok
    ensures r.UpdateFailed? <==> StatusFor(f, steps[|steps| - 1].fetcher) != Ok
    ensures r.UpdateFailed? ==> r.reason == FailureOf(StatusFor(f, steps[|steps| - 1].fetcher))
    ensures r.Updated? <==> AllOk(f)
    ensures r.Updated? ==>
              steps == FullRun
              && r.data == ClubLogData(f.matrix.v, f.watch.v, f.mostWanted.v, f.expeditions.v,
                                       CoordinatorTotals(f.matrix.v).worked,
                                       CoordinatorTotals(f.matrix.v).confirmed,
                                       CoordinatorTotals(f.matrix.v).verified)
  {
    var data := EmptyData;
    steps := [Called(FetchMatrix)];
    assert steps == FullRun[..1];
    if !f.matrix.Got? {
      return UpdateFailed(FailureOf(StatusOf(f.matrix))), steps;
    }
    data := data.(dxccMatrix := f.matrix.v);
    var worked, confirmed, verified := CoordinatorStats(data.dxccMatrix);
    data := data.(dxccWorkedTotal := worked, dxccConfirmedTotal := confirmed, dxccVerifiedTotal := verified);
    steps := steps + [CountedEntities, Called(FetchMostWanted)];
    assert steps == FullRun[..3];
    if !f.mostWanted.Got? {
      return UpdateFailed(FailureOf(StatusOf(f.mostWanted))), steps;
    }
    data := data.(mostWanted := f.mostWanted.v);
    steps := steps + [Called(FetchExpeditions)];
    assert steps == FullRun[..4];
    if !f.expeditions.Got? {
      return UpdateFailed(FailureOf(StatusOf(f.expeditions))), steps;
    }
    data := data.(expeditions := f.expeditions.v);
    steps := steps + [Called(FetchWatch)];
    assert steps == FullRun[..5];
    if !f.watch.Got? {
      return UpdateFailed(FailureOf(StatusOf(f.watch))), steps;
    }
    data := data.(watch := f.watch.v);
    r := Updated(data);
  }
}
