/**
 * Composition of the single upstream request issued by
 * fetchRepositoriesWithFilters: either the per-organization listing or the
 * search query built from a creation-date term and the optional language and
 * license terms, space-joined.
 */
module Query {

  /** Records per upstream page, fixed by the per_page=100 in both URLs. */
  const PageSize: nat := 100

  /** The upstream request, with what each URL embeds. URL escaping of the
      query and the fixed sort/type/per_page parameters are not modelled. */
  datatype Request =
    | OrgListing(org: string, page: int)
    | Search(query: string, page: int)

  /** The search-mode query terms, in order. */
  function SearchTerms(date: string, language: string, license: string): (terms: seq<string>)
    ensures |terms| == 1 + (if language != "" then 1 else 0) + (if license != "" then 1 else 0)
    ensures terms[0] == "created:>=" + date
    ensures language != "" ==> terms[1] == "language:" + language
    ensures license != "" ==> terms[|terms| - 1] == "license:" + license
  {
    var created := ["created:>=" + date];
    var withLanguage := if language != "" then created + ["language:" + language] else created;
    if license != "" then withLanguage + ["license:" + license] else withLanguage
  }

  /** strings.Join: the parts with one separator between neighbours. */
  function Join(parts: seq<string>, sep: char): string
  {
    if parts == [] then ""
    else if |parts| == 1 then parts[0]
    else parts[0] + [sep] + Join(parts[1..], sep)
  }

  /** strings.Split: the inverse of Join on parts that avoid the separator. */
  function Split(s: string, sep: char): (parts: seq<string>)
    ensures |parts| >= 1
  {
    if s == [] then [""]
    else
      var rest := Split(s[1..], sep);
      if s[0] == sep then [""] + rest else [[s[0]] + rest[0]] + rest[1..]
  }

  /** The request fetchRepositoriesWithFilters sends for its arguments. */
  function BuildRequest(date: string, language: string, license: string, org: string, page: int): (req: Request)
    ensures org != "" ==> req == OrgListing(org, page)
    ensures org == "" ==> req.Search? && req.page == page
  {
    if org != "" then OrgListing(org, page)
    else Search(Join(SearchTerms(date, language, license), ' '), page)
  }

  predicate NoSpace(s: string)
  {
    ' ' !in s
  }

  lemma {:induction false} SplitNoSeparator(p: string, sep: char)
    requires sep !in p
    ensures Split(p, sep) == [p]
    decreases |p|
  {
    if p != [] {
      SplitNoSeparator(p[1..], sep);
      assert [p[0]] + p[1..] == p;
    }
  }

  lemma {:induction false} SplitAfterPart(p: string, t: string, sep: char)
    requires sep !in p
    ensures Split(p + [sep] + t, sep) == [p] + Split(t, sep)
    decreases |p|
  {
    if p == [] {
      assert p + [sep] + t == [sep] + t;
      assert ([sep] + t)[1..] == t;
    } else {
      SplitAfterPart(p[1..], t, sep);
      assert (p + [sep] + t)[1..] == p[1..] + [sep] + t;
      assert [p[0]] + p[1..] == p;
    }
  }

  /** Splitting a join gives the parts back when no part holds the separator. */
  lemma {:induction false} SplitJoin(parts: seq<string>, sep: char)
    requires |parts| >= 1
    requires forall i :: 0 <= i < |parts| ==> sep !in parts[i]
    ensures Split(Join(parts, sep), sep) == parts
    decreases |parts|
  {
    if |parts| == 1 {
      SplitNoSeparator(parts[0], sep);
    } else {
      SplitJoin(parts[1..], sep);
      SplitAfterPart(parts[0], Join(parts[1..], sep), sep);
      assert [parts[0]] + parts[1..] == parts;
    }
  }

  lemma PrefixedEqual(prefix: string, a: string, b: string)
    requires prefix + a == prefix + b
    ensures a == b
  {
    assert a == (prefix + a)[|prefix|..];
    assert b == (prefix + b)[|prefix|..];
  }

  lemma LanguageTermIsNotLicenseTerm(language: string, license: string)
    ensures "language:" + language != "license:" + license
  {
    assert ("language:" + language)[1] != ("license:" + license)[1];
  }

  /** Distinct filter sets give distinct term lists. */
  lemma SearchTermsInjective(d1: string, l1: string, c1: string, d2: string, l2: string, c2: string)
    requires SearchTerms(d1, l1, c1) == SearchTerms(d2, l2, c2)
    ensures d1 == d2 && l1 == l2 && c1 == c2
  {
    var t := SearchTerms(d1, l1, c1);
    PrefixedEqual("created:>=", d1, d2);
    if l1 != "" && l2 != "" {
      PrefixedEqual("language:", l1, l2);
    } else if l1 != "" && l2 == "" {
      assert c1 == "" && c2 != "";
      assert t[1] == "language:" + l1 && t[1] == "license:" + c2;
      LanguageTermIsNotLicenseTerm(l1, c2);
    } else if l1 == "" && l2 != "" {
      assert c1 != "" && c2 == "";
      assert t[1] == "license:" + c1 && t[1] == "language:" + l2;
      LanguageTermIsNotLicenseTerm(l2, c1);
    }
    if c1 != "" && c2 != "" {
      PrefixedEqual("license:", c1, c2);
    }
  }

  /** When no filter value contains a space, the search request determines
      the date and the filters it was built from. */
  lemma SearchRequestDeterminesFilters(d1: string, l1: string, c1: string, d2: string, l2: string, c2: string, page: int)
    requires NoSpace(d1) && NoSpace(l1) && NoSpace(c1)
    requires NoSpace(d2) && NoSpace(l2) && NoSpace(c2)
    requires BuildRequest(d1, l1, c1, "", page) == BuildRequest(d2, l2, c2, "", page)
    ensures d1 == d2 && l1 == l2 && c1 == c2
  {
    var t1 := SearchTerms(d1, l1, c1);
    var t2 := SearchTerms(d2, l2, c2);
    NoSpaceTerms(d1, l1, c1);
    NoSpaceTerms(d2, l2, c2);
    SplitJoin(t1, ' ');
    SplitJoin(t2, ' ');
    SearchTermsInjective(d1, l1, c1, d2, l2, c2);
  }

  lemma NoSpaceTerms(d: string, l: string, c: string)
    requires NoSpace(d) && NoSpace(l) && NoSpace(c)
    ensures forall i :: 0 <= i < |SearchTerms(d, l, c)| ==> ' ' !in SearchTerms(d, l, c)[i]
  {
    var t := SearchTerms(d, l, c);
    forall i | 0 <= i < |t| ensures ' ' !in t[i] {
      if i == 0 {
        assert t[0] == "created:>=" + d;
      } else if i == 1 && l != "" {
        assert t[1] == "language:" + l;
      } else {
        assert t[i] == "license:" + c;
      }
    }
  }

  /** A language value holding a space can carry a further term: the
      language `x license:y` without a license filter gives the same search
      request as the language `x` with the license filter `y`. */
  lemma LanguageCanCarryLicenseTerm(date: string, x: string, y: string, page: int)
    requires x != "" && y != ""
    ensures BuildRequest(date, x + " license:" + y, "", "", page) == BuildRequest(date, x, y, "", page)
  {
    var created := "created:>=" + date;
    assert SearchTerms(date, x + " license:" + y, "") == [created, "language:" + (x + " license:" + y)];
    assert SearchTerms(date, x, y) == [created, "language:" + x, "license:" + y];
    assert Join([created, "language:" + (x + " license:" + y)], ' ')
        == created + [' '] + ("language:" + (x + " license:" + y));
    var three := [created, "language:" + x, "license:" + y];
    assert three[1..] == ["language:" + x, "license:" + y];
    assert three[1..][1..] == ["license:" + y];
    assert Join(three[1..], ' ') == ("language:" + x) + [' '] + ("license:" + y);
    assert Join(three, ' ') == created + [' '] + (("language:" + x) + [' '] + ("license:" + y));
    assert " license:" == [' '] + "license:";
  }

  /** Organization mode ignores the date and the filters. */
  lemma OrgRequestIgnoresFilters(d1: string, l1: string, c1: string, d2: string, l2: string, c2: string, org: string, page: int)
    requires org != ""
    ensures BuildRequest(d1, l1, c1, org, page) == BuildRequest(d2, l2, c2, org, page) == OrgListing(org, page)
  {
  }
}
