/**
 * RepositoriesHandler: token check, page window, accumulation, slice, and
 * the {total_count, repositories} envelope. HTTP transport, JSON encoding
 * and the token's cryptographic check are outside the model: whether the
 * bearer token is valid arrives as a boolean.
 */
module Handler {
  import opened Wrappers
  import opened Repositories
  import opened Query
  import opened Accumulator
  import opened AccumulatorProperties
  import opened Paginator

  /** The query values read from the request URL; page and limit as
      strconv.Atoi left them (None on a parse error). */
  datatype QueryParams = QueryParams(
    language: string,
    license: string,
    org: string,
    page: Option<Int64>,
    limit: Option<Int64>)

  datatype RepositoriesResponse = RepositoriesResponse(totalCount: int, repositories: seq<Repository>)

  datatype Response =
    | Unauthorized                         // 401, invalid token
    | FetchFailed(error: UpstreamError)    // 500, the accumulation failed
    | Listing(body: RepositoriesResponse)  // 200, the JSON envelope
    | Panicked(cause: SliceError)          // the unguarded slice expression panicked
    | NoResponse                           // the call budget ran out; the Go code keeps calling

  /** What the handler answers, once authorisation and accumulation are known. */
  function Respond(authorized: bool, q: QueryParams, accumulated: Accumulation): Response
  {
    if !authorized then Unauthorized
    else
      var w := NormalizeWindow(q.page, q.limit, q.org);
      match accumulated
      case UpstreamFailed(e) => FetchFailed(e)
      case BudgetSpent => NoResponse
      case Accumulated(all) =>
        match Paginate(all, w)
        case Success(page) => Listing(RepositoriesResponse(|all|, page))
        case Failure(cause) => Panicked(cause)
  }

  /**
   * The handler: an invalid token is refused before any upstream call;
   * otherwise it normalises the window, accumulates, and slices.
   */
  method RepositoriesHandler(authorized: bool, q: QueryParams, upstream: Upstream, stamp: int -> string, budget: nat)
    returns (response: Response, ghost calls: seq<Request>)
    ensures !authorized ==> response == Unauthorized
    ensures !authorized ==> calls == []
    ensures authorized ==>
      response == Respond(authorized, q, Accumulate(upstream, stamp, q.language, q.license, q.org, budget).outcome)
    ensures authorized ==> calls == Accumulate(upstream, stamp, q.language, q.license, q.org, budget).calls
  {
    if !authorized {
      return Unauthorized, [];
    }
    var w := NormalizeWindow(q.page, q.limit, q.org);
    var accumulated;
    accumulated, calls := FetchAndAccumulateRepos(upstream, stamp, q.language, q.license, q.org, budget);
    match accumulated {
      case UpstreamFailed(e) =>
        response := FetchFailed(e);
      case BudgetSpent =>
        response := NoResponse;
      case Accumulated(all) =>
        var page := Paginate(all, w);
        if page.Failure? {
          response := Panicked(page.error);
        } else {
          response := Listing(RepositoriesResponse(|all|, page.value));
        }
    }
  }

  /** total_count is the length of the whole accumulated list, whatever page
      and limit were asked for. */
  lemma TotalCountIsAccumulatedLength(q: QueryParams, all: seq<Repository>)
    ensures Respond(true, q, Accumulated(all)).Listing? ==>
      Respond(true, q, Accumulated(all)).body.totalCount == |all|
  {
  }

  /** In search mode a page that starts inside the list is the slice from
      (page-1)*limit, at most limit records long. */
  lemma SearchListingIsSlice(q: QueryParams, all: seq<Repository>)
    requires q.org == ""
    requires var w := NormalizeWindow(q.page, q.limit, q.org);
      (w.page - 1) * w.limit + w.limit <= MaxInt64
    ensures var w := NormalizeWindow(q.page, q.limit, q.org);
      var start := (w.page - 1) * w.limit;
      var end := if start + w.limit < |all| then start + w.limit else |all|;
      start <= |all| ==>
        0 <= start <= end <= |all| &&
        Respond(true, q, Accumulated(all)) == Listing(RepositoriesResponse(|all|, all[start..end]))
  {
    var w := NormalizeWindow(q.page, q.limit, q.org);
    if (w.page - 1) * w.limit <= |all| {
      PaginateSlice(all, w);
    }
  }

  /** In organization mode the answer is always the first DefaultLimit
      records, with the full count. */
  lemma OrgListingIsFirstPage(q: QueryParams, all: seq<Repository>)
    requires q.org != ""
    requires |all| <= MaxInt64
    ensures Respond(true, q, Accumulated(all))
         == Listing(RepositoriesResponse(|all|, all[..if |all| < DefaultLimit then |all| else DefaultLimit]))
  {
    Wrap64InRange(0);
    Wrap64InRange(DefaultLimit);
  }

  /** Page 3 of 20 over 50 records holds records 40 to 49, and the count 50. */
  lemma ThirdPageOfTwenty(all: seq<Repository>)
    requires |all| == 50
    ensures Respond(true, QueryParams("", "", "", Some(3), Some(20)), Accumulated(all))
         == Listing(RepositoriesResponse(50, all[40..50]))
  {
    PaginateSlice(all, Window(3, 20));
  }

  /** Every listing the handler returns is unique by full name, and in
      organization mode every listed record matches the filters. */
  lemma ListingUniqueAndFiltered(q: QueryParams, upstream: Upstream, stamp: int -> string, budget: nat)
    ensures var run := Accumulate(upstream, stamp, q.language, q.license, q.org, budget);
      var response := Respond(true, q, run.outcome);
      response.Listing? ==>
        && NoDuplicateNames(response.body.repositories)
        && (q.org != "" ==> forall r :: r in response.body.repositories ==> Admits(q.language, q.license, r))
  {
    var run := Accumulate(upstream, stamp, q.language, q.license, q.org, budget);
    var response := Respond(true, q, run.outcome);
    if response.Listing? {
      var all := run.outcome.repos;
      AccumulateUnique(upstream, stamp, q.language, q.license, q.org, budget);
      if q.org != "" {
        AccumulateOrgFiltered(upstream, stamp, q.language, q.license, q.org, budget);
      }
      var w := NormalizeWindow(q.page, q.limit, q.org);
      var start :| IsSegment(response.body.repositories, all, start);
      var part := response.body.repositories;
      forall i, j | 0 <= i < j < |part| ensures part[i].fullName != part[j].fullName {
        assert part[i] == all[start + i] && part[j] == all[start + j];
      }
      forall r | r in part ensures q.org != "" ==> Admits(q.language, q.license, r) {
        assert r in all;
      }
    }
  }
}
