/**
 * The page window of RepositoriesHandler: the page and limit query values
 * with their defaults and the organization override, and the slice of the
 * accumulated list they select. Index arithmetic is Go's 64-bit int
 * arithmetic, which wraps; the slice expression is not guarded and panics
 * when its bounds are out of order.
 */
module Paginator {
  import opened Wrappers
  import opened Repositories

  const DefaultLimit: int := 100

  const MinInt64: int := -0x8000_0000_0000_0000
  const MaxInt64: int := 0x7fff_ffff_ffff_ffff
  const TwoTo64: int := 0x1_0000_0000_0000_0000

  predicate IsInt64(x: int)
  {
    MinInt64 <= x <= MaxInt64
  }

  /** Go's int on a 64-bit platform, the only values strconv.Atoi returns
      without an error. */
  type Int64 = x: int | MinInt64 <= x <= MaxInt64

  /** The int64 value of a mathematical integer: wrap-around modulo 2^64. */
  function Wrap64(x: int): (r: int)
    ensures IsInt64(r)
    ensures (x - r) % TwoTo64 == 0
  {
    (x - MinInt64) % TwoTo64 + MinInt64
  }

  lemma Wrap64InRange(x: int)
    requires IsInt64(x)
    ensures Wrap64(x) == x
  {
  }

  datatype Window = Window(page: int, limit: int)

  /**
   * The page and limit after normalisation. `page` and `limit` are what
   * strconv.Atoi made of the query values (None when it reported an error).
   */
  function NormalizeWindow(page: Option<Int64>, limit: Option<Int64>, org: string): (w: Window)
    ensures 1 <= w.page <= MaxInt64 && 1 <= w.limit <= MaxInt64
    ensures org != "" ==> w == Window(1, DefaultLimit)
    ensures org == "" ==> w.page == (if page.Some? && page.value >= 1 then page.value else 1)
    ensures org == "" ==> w.limit == (if limit.Some? && limit.value >= 1 then limit.value else DefaultLimit)
  {
    var p := if page.None? || page.value < 1 then 1 else page.value;
    var l := if limit.None? || limit.value < 1 then DefaultLimit else limit.value;
    if org != "" then Window(1, DefaultLimit) else Window(p, l)
  }

  /** Normalising an already normalised window changes nothing. */
  lemma NormalizeWindowIdempotent(page: Option<Int64>, limit: Option<Int64>, org: string)
    ensures var w := NormalizeWindow(page, limit, org);
      NormalizeWindow(Some(w.page), Some(w.limit), org) == w
  {
  }

  /** `part` is the run of `all` that begins at index `start`. */
  predicate IsSegment(part: seq<Repository>, all: seq<Repository>, start: int)
  {
    0 <= start <= |all| - |part| && part == all[start..start + |part|]
  }

  datatype SliceError = SliceBoundsOutOfRange(start: int, end: int)

  /**
   * allRepos[startIndex:endIndex] with startIndex = (page-1)*limit and
   * endIndex = startIndex+limit clamped to the length, both computed in
   * int64. A Go slice expression panics unless 0 <= start <= end.
   */
  function Paginate(all: seq<Repository>, w: Window): (r: Result<seq<Repository>, SliceError>)
    ensures r.Success? ==> exists start :: IsSegment(r.value, all, start)
    ensures r.Success? && 0 <= w.limit <= MaxInt64 ==> |r.value| <= w.limit
  {
    var start := Wrap64((w.page - 1) * w.limit);
    var end := Wrap64(start + w.limit);
    var end := if end > |all| then |all| else end;
    if 0 <= start <= end then
      var page := all[start..end];
      assert IsSegment(page, all, start);
      Success(page)
    else Failure(SliceBoundsOutOfRange(start, end))
  }

  lemma MulMonotone(a: int, b: int)
    requires 0 <= a && 1 <= b
    ensures 0 <= a * b
    ensures 1 <= a ==> b <= a * b
  {
  }

  /**
   * On a start index within the list, the page is the list from
   * (page-1)*limit up to limit records further or the end of the list,
   * whichever comes first, whenever start + limit does not overflow int64.
   */
  lemma PaginateSlice(all: seq<Repository>, w: Window)
    requires 1 <= w.page && 1 <= w.limit
    requires (w.page - 1) * w.limit <= |all|
    requires (w.page - 1) * w.limit + w.limit <= MaxInt64
    ensures var start := (w.page - 1) * w.limit;
      var end := if start + w.limit < |all| then start + w.limit else |all|;
      0 <= start <= end <= |all| && Paginate(all, w) == Success(all[start..end])
  {
    var start := (w.page - 1) * w.limit;
    MulMonotone(w.page - 1, w.limit);
    Wrap64InRange(start);
    Wrap64InRange(start + w.limit);
  }

  /** A start index past the end of the list is not clamped: the slice
      expression panics. */
  lemma PaginatePastEnd(all: seq<Repository>, w: Window)
    requires 1 <= w.page && 1 <= w.limit
    requires |all| < (w.page - 1) * w.limit <= MaxInt64
    ensures Paginate(all, w).Failure?
  {
    Wrap64InRange((w.page - 1) * w.limit);
  }

  /** With 64-bit wrap-around, page 2^32+1 of limit 2^32 starts at index 0
      and serves the first records again. */
  lemma PaginateStartWraps(all: seq<Repository>)
    requires |all| <= MaxInt64
    ensures Paginate(all, Window(0x1_0000_0001, 0x1_0000_0000))
         == Success(all[..if |all| < 0x1_0000_0000 then |all| else 0x1_0000_0000])
  {
    assert (0x1_0000_0001 - 1) * 0x1_0000_0000 == TwoTo64;
    assert Wrap64(TwoTo64) == 0;
    Wrap64InRange(0x1_0000_0000);
  }
}
