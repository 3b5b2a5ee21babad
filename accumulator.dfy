/**
 * fetchAndAccumulateRepos: repeated upstream calls merged into one list that
 * is unique by full name. Organization mode walks page numbers and filters
 * locally; search mode asks for page 1 while walking a creation-date cursor
 * back one day per short page.
 *
 * Neither loop of the Go code is bounded. The model gives every walk a
 * budget of upstream calls; a walk that would make more calls ends in
 * BudgetSpent, an outcome the Go code never produces (it keeps calling).
 * BudgetMonotone shows that every other outcome is independent of the budget.
 */
module Accumulator {
  import opened Wrappers
  import opened Repositories
  import opened Query

  /** The number of distinct records search mode aims for. */
  const Target: nat := 100

  /** Why one upstream call failed: request construction, transport,
      a non-200 status, or an undecodable body. */
  datatype UpstreamError =
    | MalformedRequest
    | Unreachable
    | Rejected(status: int)
    | DecodeFailed

  /** The upstream API, seen as a function of the request it is sent. */
  type Upstream = Request -> Result<seq<Repository>, UpstreamError>

  datatype Accumulation =
    | Accumulated(repos: seq<Repository>)
    | UpstreamFailed(error: UpstreamError)
    | BudgetSpent

  /** What a walk ends with, and the upstream requests it made, in order. */
  datatype Run = Run(outcome: Accumulation, calls: seq<Request>)

  /** fetchRepositoriesWithFilters: one upstream call for the request built
      from the arguments; the records come back flat in either mode. */
  function FetchRepositoriesWithFilters(upstream: Upstream, date: string, language: string, license: string, org: string, page: int)
    : Result<seq<Repository>, UpstreamError>
  {
    upstream(BuildRequest(date, language, license, org, page))
  }

  /** The screen each mode applies while merging. */
  function ScreenFor(language: string, license: string, org: string): Screen
  {
    if org != "" then Matching(language, license) else KeepAll
  }

  /** The inner loop over one page: append each record that passes the
      screen and whose name is not yet held. */
  function Merge(acc: seq<Repository>, page: seq<Repository>, s: Screen): seq<Repository>
    decreases |page|
  {
    if page == [] then acc
    else
      var r := page[0];
      Merge(if r.fullName !in Names(acc) && Passes(s, r) then acc + [r] else acc, page[1..], s)
  }

  /** Organization mode from page counter `page` on, holding `acc`. */
  function OrgWalk(upstream: Upstream, language: string, license: string, org: string, page: int, acc: seq<Repository>, fuel: nat): Run
    decreases fuel
  {
    if fuel == 0 then Run(BudgetSpent, [])
    else
      var req := BuildRequest("", language, license, org, page);
      match upstream(req)
      case Failure(e) => Run(UpstreamFailed(e), [req])
      case Success(repos) =>
        if |repos| == 0 then Run(Accumulated(acc), [req])
        else
          var merged := Merge(acc, repos, Matching(language, license));
          if |repos| == PageSize then Run(Accumulated(merged), [req])
          else
            var next := OrgWalk(upstream, language, license, org, page + 1, merged, fuel - 1);
            Run(next.outcome, [req] + next.calls)
  }

  /** Search mode with the date cursor `day` days from today, holding `acc`;
      `stamp` renders a day offset as the date in the created:>= term. */
  function SearchWalk(upstream: Upstream, stamp: int -> string, language: string, license: string, day: int, acc: seq<Repository>, fuel: nat): Run
    decreases fuel
  {
    if |acc| >= Target then Run(Accumulated(acc), [])
    else if fuel == 0 then Run(BudgetSpent, [])
    else
      var req := BuildRequest(stamp(day), language, license, "", 1);
      match upstream(req)
      case Failure(e) => Run(UpstreamFailed(e), [req])
      case Success(repos) =>
        var merged := Merge(acc, repos, KeepAll);
        if |repos| < PageSize then
          var next := SearchWalk(upstream, stamp, language, license, day - 1, merged, fuel - 1);
          Run(next.outcome, [req] + next.calls)
        else Run(Accumulated(merged), [req])
  }

  /** The whole accumulation: the strategy is chosen by whether org is set;
      page numbers start at 1 and the date cursor at today. */
  function Accumulate(upstream: Upstream, stamp: int -> string, language: string, license: string, org: string, budget: nat): Run
  {
    if org != "" then OrgWalk(upstream, language, license, org, 1, [], budget)
    else SearchWalk(upstream, stamp, language, license, 0, [], budget)
  }

  /** The records the calls delivered, page after page. */
  function Delivered(upstream: Upstream, calls: seq<Request>): seq<Repository>
  {
    if calls == [] then []
    else
      (match upstream(calls[0]) case Success(repos) => repos case Failure(_) => [])
      + Delivered(upstream, calls[1..])
  }

  /**
   * fetchAndAccumulateRepos: the strategy is chosen once, by whether org is
   * set. It returns exactly what Accumulate describes, and the requests made.
   */
  method FetchAndAccumulateRepos(upstream: Upstream, stamp: int -> string, language: string, license: string, org: string, budget: nat)
    returns (result: Accumulation, ghost calls: seq<Request>)
    ensures result == Accumulate(upstream, stamp, language, license, org, budget).outcome
    ensures calls == Accumulate(upstream, stamp, language, license, org, budget).calls
  {
    if org != "" {
      result, calls := AccumulateOrg(upstream, language, license, org, budget);
    } else {
      result, calls := AccumulateSearch(upstream, stamp, language, license, budget);
    }
  }

  /**
   * The loop over one delivered page: a record whose name is not in the
   * seen-set and that passes the screen (in search mode every record does)
   * is appended and its name marked seen.
   */
  method MergePage(allRepos: seq<Repository>, seen: set<string>, repos: seq<Repository>, s: Screen)
    returns (merged: seq<Repository>, seenAfter: set<string>)
    requires seen == Names(allRepos)
    ensures merged == Merge(allRepos, repos, s)
    ensures seenAfter == Names(merged)
  {
    merged, seenAfter := allRepos, seen;
    for i := 0 to |repos|
      invariant seenAfter == Names(merged)
      invariant Merge(merged, repos[i..], s) == Merge(allRepos, repos, s)
    {
      var repo := repos[i];
      assert repos[i..][1..] == repos[i + 1..];
      if repo.fullName !in seenAfter && Passes(s, repo) {
        NamesAppend(merged, repo);
        merged := merged + [repo];
        seenAfter := seenAfter + {repo.fullName};
      }
    }
    assert repos[|repos|..] == [];
  }

  /** The organization branch: list, seen-set and page counter. */
  method AccumulateOrg(upstream: Upstream, language: string, license: string, org: string, budget: nat)
    returns (result: Accumulation, ghost calls: seq<Request>)
    ensures result == OrgWalk(upstream, language, license, org, 1, [], budget).outcome
    ensures calls == OrgWalk(upstream, language, license, org, 1, [], budget).calls
  {
    var allRepos: seq<Repository> := [];
    var seen: set<string> := {};
    var left: nat := budget;
    calls := [];
    ghost var total := OrgWalk(upstream, language, license, org, 1, [], budget);
    var page := 1;
    while true
      invariant seen == Names(allRepos)
      invariant Resumes(total, calls, OrgWalk(upstream, language, license, org, page, allRepos, left))
      decreases left
    {
      if left == 0 {
        return BudgetSpent, calls;
      }
      ghost var req := BuildRequest("", language, license, org, page);
      var response := FetchRepositoriesWithFilters(upstream, "", language, license, org, page);
      left := left - 1;
      calls := calls + [req];
      if response.Failure? {
        return UpstreamFailed(response.error), calls;
      }
      var repos := response.value;
      if |repos| == 0 {
        break;
      }
      allRepos, seen := MergePage(allRepos, seen, repos, Matching(language, license));
      page := page + 1;
      if |repos| == PageSize {
        break;
      }
    }
    result := Accumulated(allRepos);
  }

  /** `rest` is what remains of the walk `total` after the requests `done`. */
  ghost predicate Resumes(total: Run, done: seq<Request>, rest: Run)
  {
    rest.outcome == total.outcome && done + rest.calls == total.calls
  }

  lemma ResumesAfterCall(total: Run, done: seq<Request>, req: Request, rest: Run)
    requires Resumes(total, done, Run(rest.outcome, [req] + rest.calls))
    ensures Resumes(total, done + [req], rest)
  {
    assert done + ([req] + rest.calls) == (done + [req]) + rest.calls;
  }

  /** After a short page the search walk resumes one day earlier with the merged list. */
  lemma SearchWalkShortPage(total: Run, done: seq<Request>, upstream: Upstream, stamp: int -> string, language: string, license: string, day: int, acc: seq<Repository>, fuel: nat, repos: seq<Repository>, merged: seq<Repository>)
    requires Resumes(total, done, SearchWalk(upstream, stamp, language, license, day, acc, fuel))
    requires |acc| < Target && fuel > 0
    requires upstream(BuildRequest(stamp(day), language, license, "", 1)) == Success(repos)
    requires |repos| < PageSize && merged == Merge(acc, repos, KeepAll)
    ensures Resumes(total, done + [BuildRequest(stamp(day), language, license, "", 1)],
                    SearchWalk(upstream, stamp, language, license, day - 1, merged, fuel - 1))
  {
    var next := SearchWalk(upstream, stamp, language, license, day - 1, merged, fuel - 1);
    ResumesAfterCall(total, done, BuildRequest(stamp(day), language, license, "", 1), next);
  }

  /** The search walk's last step: an error, or a full page. */
  lemma SearchWalkLastCall(upstream: Upstream, stamp: int -> string, language: string, license: string, day: int, acc: seq<Repository>, fuel: nat)
    requires |acc| < Target && fuel > 0
    ensures var req := BuildRequest(stamp(day), language, license, "", 1);
      var run := SearchWalk(upstream, stamp, language, license, day, acc, fuel);
      && (upstream(req).Failure? ==> run == Run(UpstreamFailed(upstream(req).error), [req]))
      && (upstream(req).Success? && |upstream(req).value| >= PageSize ==>
            run == Run(Accumulated(Merge(acc, upstream(req).value, KeepAll)), [req]))
  {
  }

  /** The search walk ends at once when the target is reached or the budget is spent. */
  lemma SearchWalkNoCall(upstream: Upstream, stamp: int -> string, language: string, license: string, day: int, acc: seq<Repository>, fuel: nat)
    ensures |acc| >= Target ==> SearchWalk(upstream, stamp, language, license, day, acc, fuel) == Run(Accumulated(acc), [])
    ensures |acc| < Target && fuel == 0 ==> SearchWalk(upstream, stamp, language, license, day, acc, fuel) == Run(BudgetSpent, [])
  {
  }

  /** The search branch: list, seen-set and date cursor (a day offset). */
  method AccumulateSearch(upstream: Upstream, stamp: int -> string, language: string, license: string, budget: nat)
    returns (result: Accumulation, ghost calls: seq<Request>)
    ensures result == SearchWalk(upstream, stamp, language, license, 0, [], budget).outcome
    ensures calls == SearchWalk(upstream, stamp, language, license, 0, [], budget).calls
  {
    var allRepos: seq<Repository> := [];
    var seen: set<string> := {};
    var left: nat := budget;
    calls := [];
    ghost var total := SearchWalk(upstream, stamp, language, license, 0, [], budget);
    var date := 0;
    while |allRepos| < Target
      invariant seen == Names(allRepos)
      invariant Resumes(total, calls, SearchWalk(upstream, stamp, language, license, date, allRepos, left))
      decreases left
    {
      if left == 0 {
        SearchWalkNoCall(upstream, stamp, language, license, date, allRepos, 0);
        assert calls + [] == calls;
        return BudgetSpent, calls;
      }
      ghost var before := allRepos;
      ghost var req := BuildRequest(stamp(date), language, license, "", 1);
      SearchWalkLastCall(upstream, stamp, language, license, date, before, left);
      var response := FetchRepositoriesWithFilters(upstream, stamp(date), language, license, "", 1);
      if response.Failure? {
        return UpstreamFailed(response.error), calls + [req];
      }
      var repos := response.value;
      allRepos, seen := MergePage(allRepos, seen, repos, KeepAll);
      if |repos| < PageSize {
        SearchWalkShortPage(total, calls, upstream, stamp, language, license, date, before, left, repos, allRepos);
        left := left - 1;
        calls := calls + [req];
        date := date - 1;
      } else {
        // a full page ends the walk: Go breaks out and returns the list
        return Accumulated(allRepos), calls + [req];
      }
    }
    SearchWalkNoCall(upstream, stamp, language, license, date, allRepos, left);
    assert calls + [] == calls;
    result := Accumulated(allRepos);
  }
}
