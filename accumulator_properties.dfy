/**
 * What the two accumulation walks guarantee: the list is exactly the first
 * passing occurrence of each name among the delivered records, in delivery
 * order; organization mode keeps only records matching the filters; the
 * request sequence and the exit conditions of both loops; an upstream error
 * ends the walk at once; the call budget never changes a real answer.
 */
module AccumulatorProperties {
  import opened Wrappers
  import opened Repositories
  import opened Query
  import opened Accumulator

  /** An organization page after which the walk fetches the next page. */
  predicate OrgContinues(response: Result<seq<Repository>, UpstreamError>)
  {
    response.Success? && |response.value| != 0 && |response.value| != PageSize
  }

  /** A search page after which the date cursor moves back one day. */
  predicate SearchShort(response: Result<seq<Repository>, UpstreamError>)
  {
    response.Success? && |response.value| < PageSize
  }

  function Last(calls: seq<Request>): Request
    requires calls != []
  {
    calls[|calls| - 1]
  }

  /* ---------- the page merge ---------- */

  lemma {:induction false} MergeConcat(acc: seq<Repository>, p1: seq<Repository>, p2: seq<Repository>, s: Screen)
    ensures Merge(Merge(acc, p1, s), p2, s) == Merge(acc, p1 + p2, s)
    decreases |p1|
  {
    if p1 == [] {
      assert p1 + p2 == p2;
    } else {
      var r := p1[0];
      var acc' := if r.fullName !in Names(acc) && Passes(s, r) then acc + [r] else acc;
      MergeConcat(acc', p1[1..], p2, s);
      assert (p1 + p2)[0] == r;
      assert (p1 + p2)[1..] == p1[1..] + p2;
    }
  }

  /** The page merge agrees with the reference definition: it appends the
      first passing occurrence of each name not already held. */
  lemma {:induction false} MergeIsFirstOccurrences(acc: seq<Repository>, page: seq<Repository>, s: Screen)
    ensures Merge(acc, page, s) == acc + FirstOccurrences(Unseen(page, Names(acc)), s)
    decreases |page|
  {
    if page == [] {
    } else {
      var r := page[0];
      var held := Names(acc);
      var u := Unseen(page, held);
      if r.fullName in held {
        assert u == Unseen(page[1..], held);
        MergeIsFirstOccurrences(acc, page[1..], s);
      } else {
        assert u == [r] + Unseen(page[1..], held);
        assert u[0] == r && u[1..] == Unseen(page[1..], held);
        if Passes(s, r) {
          NamesAppend(acc, r);
          MergeIsFirstOccurrences(acc + [r], page[1..], s);
          UnseenUnion(page[1..], held, {r.fullName});
          assert FirstOccurrences(u, s) == [r] + FirstOccurrences(Unseen(page[1..], held + {r.fullName}), s);
        } else {
          MergeIsFirstOccurrences(acc, page[1..], s);
          assert FirstOccurrences(u, s) == FirstOccurrences(Unseen(page[1..], held), s);
        }
      }
    }
  }

  lemma DeliveredCons(upstream: Upstream, req: Request, repos: seq<Repository>, rest: seq<Request>)
    requires upstream(req) == Success(repos)
    ensures Delivered(upstream, [req] + rest) == repos + Delivered(upstream, rest)
  {
    assert ([req] + rest)[0] == req;
    assert ([req] + rest)[1..] == rest;
  }

  lemma DeliveredOne(upstream: Upstream, req: Request, repos: seq<Repository>)
    requires upstream(req) == Success(repos)
    ensures Delivered(upstream, [req]) == repos
  {
    DeliveredCons(upstream, req, repos, []);
    assert [req] + [] == [req];
  }

  /* ---------- organization mode ---------- */

  /** The organization walk's list is the merge of everything it was delivered. */
  lemma {:induction false} OrgWalkDelivers(upstream: Upstream, language: string, license: string, org: string, page: int, acc: seq<Repository>, fuel: nat)
    ensures var run := OrgWalk(upstream, language, license, org, page, acc, fuel);
      run.outcome.Accumulated? ==>
        run.outcome.repos == Merge(acc, Delivered(upstream, run.calls), Matching(language, license))
    decreases fuel
  {
    if fuel > 0 {
      var req := BuildRequest("", language, license, org, page);
      match upstream(req)
      case Failure(_) =>
      case Success(repos) =>
        DeliveredOne(upstream, req, repos);
        assert repos + [] == repos;
        if |repos| != 0 && |repos| != PageSize {
          var merged := Merge(acc, repos, Matching(language, license));
          var next := OrgWalk(upstream, language, license, org, page + 1, merged, fuel - 1);
          assert OrgWalk(upstream, language, license, org, page, acc, fuel) == Run(next.outcome, [req] + next.calls);
          OrgWalkDelivers(upstream, language, license, org, page + 1, merged, fuel - 1);
          DeliveredCons(upstream, req, repos, next.calls);
          MergeConcat(acc, repos, Delivered(upstream, next.calls), Matching(language, license));
        }
    }
  }

  /** The page counter starts where the walk starts and rises by exactly one
      per call; every call is the organization listing. */
  lemma {:induction false} OrgWalkRequests(upstream: Upstream, language: string, license: string, org: string, page: int, acc: seq<Repository>, fuel: nat)
    requires org != ""
    ensures var run := OrgWalk(upstream, language, license, org, page, acc, fuel);
      && |run.calls| <= fuel
      && forall i :: 0 <= i < |run.calls| ==> run.calls[i] == OrgListing(org, page + i)
    decreases fuel
  {
    if fuel > 0 {
      var req := BuildRequest("", language, license, org, page);
      match upstream(req)
      case Failure(_) =>
      case Success(repos) =>
        if |repos| != 0 && |repos| != PageSize {
          var merged := Merge(acc, repos, Matching(language, license));
          OrgWalkRequests(upstream, language, license, org, page + 1, merged, fuel - 1);
        }
    }
  }

  /**
   * When the organization walk stops: every call but the last returned a
   * non-empty page of other than PageSize records; a list comes back only
   * after an empty page or a page of exactly PageSize records; an error
   * comes back only from the last call; the budget runs out only on a
   * sequence of such continuing pages.
   */
  lemma {:induction false} OrgWalkStops(upstream: Upstream, language: string, license: string, org: string, page: int, acc: seq<Repository>, fuel: nat)
    ensures var run := OrgWalk(upstream, language, license, org, page, acc, fuel);
      && (forall i :: 0 <= i < |run.calls| - 1 ==> OrgContinues(upstream(run.calls[i])))
      && (run.outcome.Accumulated? ==>
            && run.calls != []
            && upstream(Last(run.calls)).Success?
            && (|upstream(Last(run.calls)).value| == 0 || |upstream(Last(run.calls)).value| == PageSize))
      && (run.outcome.UpstreamFailed? ==>
            run.calls != [] && upstream(Last(run.calls)) == Failure(run.outcome.error))
      && (run.outcome.BudgetSpent? ==>
            |run.calls| == fuel && forall i :: 0 <= i < |run.calls| ==> OrgContinues(upstream(run.calls[i])))
    decreases fuel
  {
    if fuel > 0 {
      var req := BuildRequest("", language, license, org, page);
      match upstream(req)
      case Failure(_) =>
      case Success(repos) =>
        if |repos| != 0 && |repos| != PageSize {
          var merged := Merge(acc, repos, Matching(language, license));
          var next := OrgWalk(upstream, language, license, org, page + 1, merged, fuel - 1);
          OrgWalkStops(upstream, language, license, org, page + 1, merged, fuel - 1);
          var calls := [req] + next.calls;
          assert OrgContinues(upstream(req));
          assert forall i :: 1 <= i < |calls| ==> calls[i] == next.calls[i - 1];
          if next.calls != [] {
            assert Last(calls) == Last(next.calls);
          }
        }
    }
  }

  /** A walk that ends within a budget ends the same way with any larger one. */
  lemma {:induction false} OrgWalkBudgetMonotone(upstream: Upstream, language: string, license: string, org: string, page: int, acc: seq<Repository>, fuel: nat, more: nat)
    requires fuel <= more
    requires !OrgWalk(upstream, language, license, org, page, acc, fuel).outcome.BudgetSpent?
    ensures OrgWalk(upstream, language, license, org, page, acc, more) == OrgWalk(upstream, language, license, org, page, acc, fuel)
    decreases fuel
  {
    var req := BuildRequest("", language, license, org, page);
    match upstream(req)
    case Failure(_) =>
    case Success(repos) =>
      if |repos| != 0 && |repos| != PageSize {
        var merged := Merge(acc, repos, Matching(language, license));
        OrgWalkBudgetMonotone(upstream, language, license, org, page + 1, merged, fuel - 1, more - 1);
      }
  }

  /* ---------- search mode ---------- */

  lemma {:induction false} SearchWalkDelivers(upstream: Upstream, stamp: int -> string, language: string, license: string, day: int, acc: seq<Repository>, fuel: nat)
    ensures var run := SearchWalk(upstream, stamp, language, license, day, acc, fuel);
      run.outcome.Accumulated? ==> run.outcome.repos == Merge(acc, Delivered(upstream, run.calls), KeepAll)
    decreases fuel
  {
    if |acc| < Target && fuel > 0 {
      var req := BuildRequest(stamp(day), language, license, "", 1);
      match upstream(req)
      case Failure(_) =>
      case Success(repos) =>
        DeliveredOne(upstream, req, repos);
        assert repos + [] == repos;
        if |repos| < PageSize {
          var merged := Merge(acc, repos, KeepAll);
          var next := SearchWalk(upstream, stamp, language, license, day - 1, merged, fuel - 1);
          assert SearchWalk(upstream, stamp, language, license, day, acc, fuel) == Run(next.outcome, [req] + next.calls);
          SearchWalkDelivers(upstream, stamp, language, license, day - 1, merged, fuel - 1);
          DeliveredCons(upstream, req, repos, next.calls);
          MergeConcat(acc, repos, Delivered(upstream, next.calls), KeepAll);
        }
    }
  }

  /** Every search call asks for page 1, and call i carries the date i days
      before the cursor's starting day. */
  lemma {:induction false} SearchWalkRequests(upstream: Upstream, stamp: int -> string, language: string, license: string, day: int, acc: seq<Repository>, fuel: nat)
    ensures |SearchWalk(upstream, stamp, language, license, day, acc, fuel).calls| <= fuel
    ensures forall i :: 0 <= i < |SearchWalk(upstream, stamp, language, license, day, acc, fuel).calls| ==>
      SearchWalk(upstream, stamp, language, license, day, acc, fuel).calls[i]
        == BuildRequest(stamp(day - i), language, license, "", 1)
    decreases fuel
  {
    var run := SearchWalk(upstream, stamp, language, license, day, acc, fuel);
    if |acc| < Target && fuel > 0 {
      var req := BuildRequest(stamp(day), language, license, "", 1);
      match upstream(req)
      case Success(repos) =>
        var merged := Merge(acc, repos, KeepAll);
        if |repos| < PageSize {
          var next := SearchWalk(upstream, stamp, language, license, day - 1, merged, fuel - 1);
          var calls := [req] + next.calls;
          assert run == Run(next.outcome, calls);
          SearchWalkRequests(upstream, stamp, language, license, day - 1, merged, fuel - 1);
          forall i | 0 <= i < |calls|
            ensures calls[i] == BuildRequest(stamp(day - i), language, license, "", 1)
          {
            if i == 0 {
              assert day - i == day;
            } else {
              var j := i - 1;
              assert day - 1 - j == day - i;
              assert next.calls[j] == BuildRequest(stamp(day - 1 - j), language, license, "", 1);
              assert calls[i] == next.calls[j];
            }
          }
        } else {
          assert run == Run(Accumulated(merged), [req]);
          assert day - 0 == day;
        }
      case Failure(e) =>
        assert run == Run(UpstreamFailed(e), [req]);
        assert day - 0 == day;
    }
  }

  /**
   * When the search walk stops: no call is made once Target records are
   * held; every call but the last returned a short page; a list with fewer
   * than Target records comes back only after a full page; an error comes
   * back only from the last call; the budget runs out only on short pages.
   */
  lemma {:induction false} SearchWalkStops(upstream: Upstream, stamp: int -> string, language: string, license: string, day: int, acc: seq<Repository>, fuel: nat)
    ensures var run := SearchWalk(upstream, stamp, language, license, day, acc, fuel);
      && (|acc| >= Target ==> run == Run(Accumulated(acc), []))
      && (forall i :: 0 <= i < |run.calls| - 1 ==> SearchShort(upstream(run.calls[i])))
      && (run.outcome.Accumulated? ==>
            || |run.outcome.repos| >= Target
            || (&& run.calls != []
                && upstream(Last(run.calls)).Success?
                && |upstream(Last(run.calls)).value| >= PageSize))
      && (run.outcome.UpstreamFailed? ==>
            run.calls != [] && upstream(Last(run.calls)) == Failure(run.outcome.error))
      && (run.outcome.BudgetSpent? ==>
            |run.calls| == fuel && forall i :: 0 <= i < |run.calls| ==> SearchShort(upstream(run.calls[i])))
    decreases fuel
  {
    var run := SearchWalk(upstream, stamp, language, license, day, acc, fuel);
    if |acc| < Target && fuel > 0 {
      var req := BuildRequest(stamp(day), language, license, "", 1);
      match upstream(req)
      case Failure(e) =>
        assert run == Run(UpstreamFailed(e), [req]);
      case Success(repos) =>
        var merged := Merge(acc, repos, KeepAll);
        if |repos| < PageSize {
          var next := SearchWalk(upstream, stamp, language, license, day - 1, merged, fuel - 1);
          SearchWalkStops(upstream, stamp, language, license, day - 1, merged, fuel - 1);
          var calls := [req] + next.calls;
          assert run == Run(next.outcome, calls);
          forall i | 0 <= i < |calls| && (i < |calls| - 1 || next.outcome.BudgetSpent?)
            ensures SearchShort(upstream(calls[i]))
          {
            if i > 0 {
              assert calls[i] == next.calls[i - 1];
            }
          }
          if next.calls != [] {
            assert Last(calls) == Last(next.calls);
          }
        } else {
          assert run == Run(Accumulated(merged), [req]);
        }
    }
  }

  /** Each search call is made while fewer than Target records are held. */
  lemma {:induction false} SearchWalkCallsBelowTarget(upstream: Upstream, stamp: int -> string, language: string, license: string, day: int, acc: seq<Repository>, fuel: nat)
    ensures forall i :: 0 <= i < |SearchWalk(upstream, stamp, language, license, day, acc, fuel).calls| ==>
      |Merge(acc, Delivered(upstream, SearchWalk(upstream, stamp, language, license, day, acc, fuel).calls[..i]), KeepAll)| < Target
    decreases fuel
  {
    var run := SearchWalk(upstream, stamp, language, license, day, acc, fuel);
    if |acc| < Target && fuel > 0 {
      var req := BuildRequest(stamp(day), language, license, "", 1);
      match upstream(req)
      case Failure(_) =>
        assert run.calls[..0] == [];
      case Success(repos) =>
        assert run.calls[..0] == [];
        if |repos| < PageSize {
          var merged := Merge(acc, repos, KeepAll);
          var next := SearchWalk(upstream, stamp, language, license, day - 1, merged, fuel - 1);
          assert run == Run(next.outcome, [req] + next.calls);
          SearchWalkCallsBelowTarget(upstream, stamp, language, license, day - 1, merged, fuel - 1);
          assert forall j :: 0 <= j < |next.calls| ==> |Merge(merged, Delivered(upstream, next.calls[..j]), KeepAll)| < Target;
          forall i | 1 <= i < |run.calls|
            ensures |Merge(acc, Delivered(upstream, run.calls[..i]), KeepAll)| < Target
          {
            assert run.calls[..i] == [req] + next.calls[..i - 1];
            assert 0 <= i - 1 < |next.calls|;
            var d := Delivered(upstream, next.calls[..i - 1]);
            DeliveredCons(upstream, req, repos, next.calls[..i - 1]);
            MergeConcat(acc, repos, d, KeepAll);
            assert |Merge(merged, d, KeepAll)| < Target;
          }
        }
    }
  }

  lemma {:induction false} SearchWalkBudgetMonotone(upstream: Upstream, stamp: int -> string, language: string, license: string, day: int, acc: seq<Repository>, fuel: nat, more: nat)
    requires fuel <= more
    requires !SearchWalk(upstream, stamp, language, license, day, acc, fuel).outcome.BudgetSpent?
    ensures SearchWalk(upstream, stamp, language, license, day, acc, more) == SearchWalk(upstream, stamp, language, license, day, acc, fuel)
    decreases fuel
  {
    if |acc| < Target {
      var req := BuildRequest(stamp(day), language, license, "", 1);
      match upstream(req)
      case Failure(_) =>
      case Success(repos) =>
        if |repos| < PageSize {
          var merged := Merge(acc, repos, KeepAll);
          SearchWalkBudgetMonotone(upstream, stamp, language, license, day - 1, merged, fuel - 1, more - 1);
        }
    }
  }

  /* ---------- the whole accumulation ---------- */

  /** The accumulated list is exactly the first passing occurrence of each
      full name among the delivered records, in the order delivered. */
  lemma AccumulateFirstSeen(upstream: Upstream, stamp: int -> string, language: string, license: string, org: string, budget: nat)
    ensures var run := Accumulate(upstream, stamp, language, license, org, budget);
      run.outcome.Accumulated? ==>
        run.outcome.repos == FirstOccurrences(Delivered(upstream, run.calls), ScreenFor(language, license, org))
  {
    var run := Accumulate(upstream, stamp, language, license, org, budget);
    if org != "" {
      OrgWalkDelivers(upstream, language, license, org, 1, [], budget);
    } else {
      SearchWalkDelivers(upstream, stamp, language, license, 0, [], budget);
    }
    var d := Delivered(upstream, run.calls);
    MergeIsFirstOccurrences([], d, ScreenFor(language, license, org));
    assert Names([]) == {};
    UnseenNothing(d);
  }

  /** No two accumulated records share a full name, in either mode. */
  lemma AccumulateUnique(upstream: Upstream, stamp: int -> string, language: string, license: string, org: string, budget: nat)
    ensures var run := Accumulate(upstream, stamp, language, license, org, budget);
      run.outcome.Accumulated? ==> NoDuplicateNames(run.outcome.repos)
  {
    var run := Accumulate(upstream, stamp, language, license, org, budget);
    AccumulateFirstSeen(upstream, stamp, language, license, org, budget);
    FirstOccurrencesUnique(Delivered(upstream, run.calls), ScreenFor(language, license, org));
  }

  /** In organization mode every accumulated record was delivered and passes
      the local language and license filter. */
  lemma AccumulateOrgFiltered(upstream: Upstream, stamp: int -> string, language: string, license: string, org: string, budget: nat)
    requires org != ""
    ensures var run := Accumulate(upstream, stamp, language, license, org, budget);
      run.outcome.Accumulated? ==>
        forall r :: r in run.outcome.repos ==> r in Delivered(upstream, run.calls) && Admits(language, license, r)
  {
    var run := Accumulate(upstream, stamp, language, license, org, budget);
    AccumulateFirstSeen(upstream, stamp, language, license, org, budget);
    FirstOccurrencesSound(Delivered(upstream, run.calls), Matching(language, license));
  }

  /** Nothing deliverable is lost: every delivered record that passes the
      mode's screen has its full name in the accumulated list. */
  lemma AccumulateComplete(upstream: Upstream, stamp: int -> string, language: string, license: string, org: string, budget: nat)
    ensures var run := Accumulate(upstream, stamp, language, license, org, budget);
      run.outcome.Accumulated? ==>
        forall r :: r in Delivered(upstream, run.calls) && Passes(ScreenFor(language, license, org), r) ==>
          r.fullName in Names(run.outcome.repos)
  {
    var run := Accumulate(upstream, stamp, language, license, org, budget);
    AccumulateFirstSeen(upstream, stamp, language, license, org, budget);
    FirstOccurrencesComplete(Delivered(upstream, run.calls), ScreenFor(language, license, org));
  }

  /** First seen wins across pages: the record held under a name is the
      earliest delivered record with that name that passes the screen. */
  lemma AccumulateKeepsEarliest(upstream: Upstream, stamp: int -> string, language: string, license: string, org: string, budget: nat)
    ensures var run := Accumulate(upstream, stamp, language, license, org, budget);
      run.outcome.Accumulated? ==>
        forall r :: r in run.outcome.repos ==>
          FirstNamed(Delivered(upstream, run.calls), ScreenFor(language, license, org), r.fullName) == Some(r)
  {
    var run := Accumulate(upstream, stamp, language, license, org, budget);
    AccumulateFirstSeen(upstream, stamp, language, license, org, budget);
    FirstOccurrencesKeepsEarliest(Delivered(upstream, run.calls), ScreenFor(language, license, org));
  }

  /** An upstream error ends the accumulation at the call that failed: it is
      returned verbatim, every earlier call succeeded, and no list is returned. */
  lemma AccumulateErrorIsFinal(upstream: Upstream, stamp: int -> string, language: string, license: string, org: string, budget: nat)
    ensures var run := Accumulate(upstream, stamp, language, license, org, budget);
      run.outcome.UpstreamFailed? ==>
        && run.calls != []
        && upstream(Last(run.calls)) == Failure(run.outcome.error)
        && forall i :: 0 <= i < |run.calls| - 1 ==> upstream(run.calls[i]).Success?
  {
    if org != "" {
      OrgWalkStops(upstream, language, license, org, 1, [], budget);
    } else {
      SearchWalkStops(upstream, stamp, language, license, 0, [], budget);
    }
  }

  /** The call budget is an artifact of the model: an accumulation that
      finishes within a budget gives the same result under any larger one. */
  lemma AccumulateBudgetMonotone(upstream: Upstream, stamp: int -> string, language: string, license: string, org: string, budget: nat, more: nat)
    requires budget <= more
    requires !Accumulate(upstream, stamp, language, license, org, budget).outcome.BudgetSpent?
    ensures Accumulate(upstream, stamp, language, license, org, more) == Accumulate(upstream, stamp, language, license, org, budget)
  {
    if org != "" {
      OrgWalkBudgetMonotone(upstream, language, license, org, 1, [], budget, more);
    } else {
      SearchWalkBudgetMonotone(upstream, stamp, language, license, 0, [], budget, more);
    }
  }
}
