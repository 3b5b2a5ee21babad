# Repository accumulation and pagination gateway — Dafny model

This project models the core of a small Go HTTP gateway that serves repository
metadata from the GitHub API behind a bearer-token check
(`handler/github.go`). A request for `GET /repositories` goes through these steps:

1. The handler reads `language`, `license`, `org`, `page` and `limit`.
2. It normalises the page window.
3. It accumulates records from repeated upstream calls, deduplicated by full name.
4. It slices the requested page out of the accumulated list.
5. It answers `{total_count, repositories}`.

Two accumulation strategies exist:

- **Organization mode** (`org` set) walks the organization listing page by
  page. It keeps only records that match the language and license filters
  locally.
- **Search mode** always asks for page 1 of a search whose query is
  `created:>=<date> [language:<x>] [license:<y>]`. It moves the date back one
  day after every short page, until 100 distinct records are held or a full
  page arrives.

Layout, one module per file:

- `wrappers.dfy` (`Wrappers`): Option and Result.
- `repositories.dfy` (`Repositories`): the repository record and the local
  filter. It also defines `FirstOccurrences`, a reference definition of
  "deduplicated by full name, first seen wins", with its lemmas.
- `query.dfy` (`Query`): search terms, `strings.Join`/`Split`, and the request
  that `fetchRepositoriesWithFilters` sends.
- `accumulator.dfy` (`Accumulator`): the upstream call as an oracle. It holds
  the two walks as specification functions that also record the requests
  they make. The loop methods with the list, seen-set, page counter and date
  cursor are proved equal to those walks.
- `accumulator_properties.dfy` (`AccumulatorProperties`): what the walks guarantee.
- `paginator.dfy` (`Paginator`): page/limit normalisation and the slice, in
  Go's 64-bit int arithmetic.
- `handler.dfy` (`Handler`): the response envelope and the handler method.

How the environment is modelled:

- **Upstream API.** It is a function from the request to either a list of
  records or an error (`Accumulator.Upstream`).
- **Date cursor.** It is an integer day offset, with today as 0. The
  `YYYY-MM-DD` rendering of a day is a parameter, `stamp`.
- **Page and limit.** They arrive as what `strconv.Atoi` made of the query
  values: an `Int64` (Go's 64-bit `int`), or `None` when it reported an
  error, which includes an out-of-range value.
- **Token.** Whether the bearer token is valid is a boolean.

Neither accumulation loop in the Go code has an iteration bound, so every
walk here takes a budget of upstream calls. A walk that would exceed the
budget ends in `BudgetSpent`; the Go code would keep calling instead.
`AccumulateBudgetMonotone` proves that every other outcome does not depend
on the budget.

Two behaviours of the code are worth stating plainly:

- **Organization mode stops on a full page.** The loop ends after a listing
  page of exactly 100 records (handler/github.go:171-173); a short non-empty
  page makes it fetch the next page. The test counts the unfiltered listing
  page, while the language and license filter is applied afterwards
  (handler/github.go:164). So an organization whose first listing page is
  full yields only records from page 1, however many of them match; with
  filters set the answer can hold few records, or none, while later pages
  hold matches.
- **A start index past the end panics.** The slice at handler/github.go:137
  has no guard. `Paginate` returns `SliceBoundsOutOfRange` and the handler
  answers `Panicked`.

## Model

| member | source | states |
|---|---|---|
| `Repositories.FirstOccurrencesSound` | handler/github.go:162-168 | every record kept by the dedup reference was delivered and passes the mode's screen |
| `Repositories.FirstOccurrencesUnique` | handler/github.go:163-166 | the dedup reference never keeps two records with the same full name |
| `Repositories.FirstOccurrencesComplete` | handler/github.go:182-187 | every delivered record that passes the screen has its full name in the kept list |
| `Repositories.FirstOccurrencesKeepsEarliest` | handler/github.go:163-166 | the record kept under a name is the earliest delivered record with that name that passes the screen |
| `Repositories.UnlicensedRejected` | handler/github.go:164 | a non-empty license filter rejects every record that has no license |
| `Query.SearchTerms` | handler/github.go:49-55 | the terms are `created:>=date`, then `language:x` only if x is non-empty, then `license:y` only if y is non-empty, in that order |
| `Query.BuildRequest` | handler/github.go:46-58 | a non-empty org gives the organization listing for that org and page; otherwise a search request for that page |
| `Query.SplitJoin` | handler/github.go:56 | splitting the space-joined query gives the terms back when no term holds a space |
| `Query.SearchTermsInjective` | handler/github.go:49-55 | different date/language/license triples give different term lists |
| `Query.SearchRequestDeterminesFilters` | handler/github.go:49-58 | when no value holds a space, the search request determines the date and both filters |
| `Query.LanguageCanCarryLicenseTerm` | handler/github.go:50-56 | a language value holding a space can inject a license term: `go license:mit` with no license equals `go` with license `mit` |
| `Query.OrgRequestIgnoresFilters` | handler/github.go:46-47 | in organization mode the request depends on org and page only, not on the date or the filters |
| `Accumulator.FetchAndAccumulateRepos` | handler/github.go:148-196 | returns exactly the outcome and the request sequence of the walk selected by whether org is set |
| `Accumulator.MergePage` | handler/github.go:162-169 | the loop over one page leaves the list equal to the page merge and the seen-set equal to the names held |
| `Accumulator.AccumulateOrg` | handler/github.go:151-174 | the organization loop (page counter from 1, stop on an empty or a full page, error returned at once) equals the organization walk |
| `Accumulator.AccumulateSearch` | handler/github.go:175-193 | the search loop (page 1, cursor back one day per short page, stop at 100 records or on a full page) equals the search walk |
| `AccumulatorProperties.MergeIsFirstOccurrences` | handler/github.go:162-168 | merging a page appends exactly the first passing occurrence of each name not already held, in page order |
| `AccumulatorProperties.OrgWalkDelivers` | handler/github.go:153-174 | the organization list is the merge of all records delivered by the calls made |
| `AccumulatorProperties.OrgWalkRequests` | handler/github.go:152-154 | call i asks for the organization listing at page counter start + i, so the counter rises by exactly 1 per call |
| `AccumulatorProperties.OrgWalkStops` | handler/github.go:155-173 | every call but the last got a non-empty page of other than 100 records; a list comes back only after an empty or a 100-record page; an error only from the last call |
| `AccumulatorProperties.OrgWalkBudgetMonotone` | handler/github.go:153-174 | an organization walk that ends within a budget ends identically under any larger budget |
| `AccumulatorProperties.SearchWalkDelivers` | handler/github.go:177-193 | the search list is the merge of all records delivered by the calls made |
| `AccumulatorProperties.SearchWalkRequests` | handler/github.go:176-178 | call i of the search walk is the page-1 search request for the date i days before the starting day, and there are at most as many calls as the budget |
| `AccumulatorProperties.SearchWalkStops` | handler/github.go:177-192 | no call once 100 records are held; every call but the last got a short page; a list under 100 records only after a full page; an error only from the last call |
| `AccumulatorProperties.SearchWalkCallsBelowTarget` | handler/github.go:177 | each search call is made while fewer than 100 records are held |
| `AccumulatorProperties.SearchWalkBudgetMonotone` | handler/github.go:177-193 | a search walk that ends within a budget ends identically under any larger budget |
| `AccumulatorProperties.AccumulateFirstSeen` | handler/github.go:148-196 | the accumulated list is the first passing occurrence of each full name among all delivered records, in delivery order |
| `AccumulatorProperties.AccumulateUnique` | handler/github.go:163-166 | no two accumulated records share a full name, in either mode |
| `AccumulatorProperties.AccumulateOrgFiltered` | handler/github.go:164-165 | in organization mode every accumulated record was delivered and matches the language and license filters |
| `AccumulatorProperties.AccumulateComplete` | handler/github.go:183-186 | every delivered record that passes the mode's screen has its full name in the accumulated list |
| `AccumulatorProperties.AccumulateKeepsEarliest` | handler/github.go:183-185 | the record held under a name is the earliest delivered record with that name that passes the screen |
| `AccumulatorProperties.AccumulateErrorIsFinal` | handler/github.go:154-157 | on an upstream error, the error is the last call's, returned verbatim, every earlier call succeeded, and no list comes back |
| `AccumulatorProperties.AccumulateBudgetMonotone` | handler/github.go:177-181 | the call budget never changes an outcome other than BudgetSpent |
| `Paginator.Wrap64` | handler/github.go:131-132 | index arithmetic is int64: the result is in range and congruent to the exact value modulo 2^64 |
| `Paginator.NormalizeWindow` | handler/github.go:106-119 | page and limit are at least 1; an unparsable or non-positive page becomes 1 and such a limit becomes 100; a non-empty org forces page 1, limit 100 |
| `Paginator.NormalizeWindowIdempotent` | handler/github.go:107-114 | normalising an already normalised window changes nothing |
| `Paginator.Paginate` | handler/github.go:128-137 | a successful slice is a contiguous run of the accumulated list, at most limit records long |
| `Paginator.PaginateSlice` | handler/github.go:131-137 | when (page-1)*limit is within the list and (page-1)*limit + limit does not overflow int64, the page is the list from (page-1)*limit to min((page-1)*limit+limit, length) |
| `Paginator.PaginatePastEnd` | handler/github.go:137 | a start index past the end of the list makes the slice fail (a Go panic), not return empty |
| `Paginator.PaginateStartWraps` | handler/github.go:131 | page 2^32+1 with limit 2^32 wraps the start index to 0 and serves the first records |
| `Handler.RepositoriesHandler` | handler/github.go:96-146 | an invalid token is refused with no upstream call; otherwise the answer is the envelope of the accumulation for the normalised window |
| `Handler.TotalCountIsAccumulatedLength` | handler/github.go:139-141 | total_count is the length of the whole accumulated list, whatever page and limit |
| `Handler.SearchListingIsSlice` | handler/github.go:128-141 | in search mode, when the normalised window's end index does not overflow int64, a page starting inside the list answers the slice from (page-1)*limit, at most limit long, with the full count |
| `Handler.OrgListingIsFirstPage` | handler/github.go:116-119 | in organization mode the answer is the first 100 accumulated records with the full count |
| `Handler.ThirdPageOfTwenty` | handler/github.go:106-142 | page 3 of limit 20 over 50 records answers records 40..49 and total_count 50 |
| `Handler.ListingUniqueAndFiltered` | handler/github.go:121-141 | every listing is unique by full name, and in organization mode every listed record matches the filters |

## Left out

- HTTP plumbing is not modelled: request construction, headers, the client call, the status check, and JSON decoding of both response shapes. It is I/O. The upstream call is an oracle whose error cases are `MalformedRequest`, `Unreachable`, `Rejected(status)` and `DecodeFailed`.
- The upstream oracle is a pure function. The same request always gets the same answer within one accumulation; a live API could change between calls.
- `url.QueryEscape` is not modelled, because its escaping rules belong to the Go library. The request carries the unescaped space-joined query, and escaping is assumed injective.
- The fixed URL text (base URL, `sort`, `type`, `per_page`) is not modelled. The request records only what varies: org, query and page. The page size of 100 is the constant `Query.PageSize`.
- `time.Now`, `date.Format` and `AddDate` are replaced by a day offset and the `stamp` parameter. Calendar arithmetic is library code.
- `strconv.Atoi` is not modelled, because it is library code. Its outcome is the input: an `Int64` value, or `None` where it reports an error (a malformed or out-of-range value).
- `fmt.Println` logging, the JSON encoding of the answer, and the `Content-Type` header are output only.
- The handler's JWT check (handler/login.go), route wiring (server/server.go), configuration (config/config.go), startup (main.go) and the `Handler` constructor (handler/handler.go) are not part of this model. Token validity is a boolean input.
- Description, URL, owner, star count and creation time are carried in each record but never examined, as in the code.
- Accumulator.FetchAndAccumulateRepos: takes a budget of upstream calls and may answer `BudgetSpent`, because neither Go loop has an iteration bound. Where the Go code would keep calling forever, the model stops.
- Accumulator.AccumulateOrg: bounded by the same call budget, for the same reason.
- Accumulator.AccumulateSearch: bounded by the same call budget. A search whose filters match nothing returns empty pages for every date, and the Go loop never ends.
- Handler.RepositoriesHandler: answers `NoResponse` when the budget runs out, and `Panicked` where Go panics in the slice expression. Go's panic recovery and the connection abort that follows are not modelled.
- Paginator.PaginateSlice: requires (page-1)*limit + limit to stay within int64. For page/limit pairs where it does not, Go's wrapped indices can make the slice panic or serve other records; `PaginateStartWraps` shows one such pair, and `Paginate` itself models every case.
