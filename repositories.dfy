/**
 * The repository record the upstream API returns, the local language/license
 * screen applied in organization mode, and what "deduplicated by full name,
 * first seen wins" means, stated independently of the accumulation loops.
 */
module Repositories {
  import opened Wrappers

  datatype License = License(key: string, name: string)

  datatype Owner = Owner(login: string, kind: string)

  /** One upstream record (handler/github.go:25-40). Only fullName, language
      and license take part in the logic; the rest is carried along. */
  datatype Repository = Repository(
    fullName: string,
    description: string,
    htmlUrl: string,
    language: string,
    license: Option<License>,
    owner: Owner,
    stargazersCount: int,
    createdAt: string)

  /** Which records the accumulator keeps: in search mode every record
      (the filters were applied upstream), in organization mode only those
      matching the caller's language and license. */
  datatype Screen = KeepAll | Matching(language: string, license: string)

  /** The organization-mode local filter: an empty filter value matches
      anything; a license filter rejects a record without a license. */
  predicate Admits(language: string, license: string, r: Repository)
  {
    && (language == "" || r.language == language)
    && (license == "" || (r.license.Some? && r.license.value.key == license))
  }

  predicate Passes(s: Screen, r: Repository)
  {
    match s
    case KeepAll => true
    case Matching(language, license) => Admits(language, license, r)
  }

  function Names(rs: seq<Repository>): set<string>
  {
    set r | r in rs :: r.fullName
  }

  lemma NamesAppend(rs: seq<Repository>, r: Repository)
    ensures Names(rs + [r]) == Names(rs) + {r.fullName}
  {
    assert forall q :: q in rs + [r] <==> q in rs || q == r;
  }

  predicate NoDuplicateNames(rs: seq<Repository>)
  {
    forall i, j :: 0 <= i < j < |rs| ==> rs[i].fullName != rs[j].fullName
  }

  /** The records of `rs` whose names are not in `names`, in order. */
  function Unseen(rs: seq<Repository>, names: set<string>): (u: seq<Repository>)
    ensures |u| <= |rs|
  {
    if rs == [] then []
    else if rs[0].fullName in names then Unseen(rs[1..], names)
    else [rs[0]] + Unseen(rs[1..], names)
  }

  /**
   * Reference definition of the accumulated list: walk the delivered records
   * front to back; a record that passes the screen is kept and every later
   * record with the same name is dropped; a record that fails the screen is
   * skipped without claiming its name.
   */
  function FirstOccurrences(rs: seq<Repository>, s: Screen): seq<Repository>
    decreases |rs|
  {
    if rs == [] then []
    else if Passes(s, rs[0]) then [rs[0]] + FirstOccurrences(Unseen(rs[1..], {rs[0].fullName}), s)
    else FirstOccurrences(rs[1..], s)
  }

  lemma {:induction false} UnseenMembers(rs: seq<Repository>, names: set<string>)
    ensures forall r :: r in Unseen(rs, names) <==> r in rs && r.fullName !in names
    decreases |rs|
  {
    if rs != [] {
      UnseenMembers(rs[1..], names);
      assert forall r :: r in rs <==> r == rs[0] || r in rs[1..];
    }
  }

  lemma {:induction false} UnseenUnion(rs: seq<Repository>, a: set<string>, b: set<string>)
    ensures Unseen(Unseen(rs, a), b) == Unseen(rs, a + b)
    decreases |rs|
  {
    if rs != [] {
      UnseenUnion(rs[1..], a, b);
      if rs[0].fullName !in a {
        assert ([rs[0]] + Unseen(rs[1..], a))[1..] == Unseen(rs[1..], a);
      }
    }
  }

  lemma {:induction false} UnseenNothing(rs: seq<Repository>)
    ensures Unseen(rs, {}) == rs
    decreases |rs|
  {
    if rs != [] {
      UnseenNothing(rs[1..]);
      assert [rs[0]] + rs[1..] == rs;
    }
  }

  /** Every kept record passes the screen and was delivered. */
  lemma {:induction false} FirstOccurrencesSound(rs: seq<Repository>, s: Screen)
    ensures forall r :: r in FirstOccurrences(rs, s) ==> r in rs && Passes(s, r)
    decreases |rs|
  {
    if rs != [] {
      if Passes(s, rs[0]) {
        FirstOccurrencesSound(Unseen(rs[1..], {rs[0].fullName}), s);
        UnseenMembers(rs[1..], {rs[0].fullName});
      } else {
        FirstOccurrencesSound(rs[1..], s);
      }
    }
  }

  /** No name is kept twice. */
  lemma {:induction false} FirstOccurrencesUnique(rs: seq<Repository>, s: Screen)
    ensures NoDuplicateNames(FirstOccurrences(rs, s))
    decreases |rs|
  {
    if rs != [] {
      if Passes(s, rs[0]) {
        var rest := Unseen(rs[1..], {rs[0].fullName});
        FirstOccurrencesUnique(rest, s);
        FirstOccurrencesSound(rest, s);
        UnseenMembers(rs[1..], {rs[0].fullName});
        var f := FirstOccurrences(rs, s);
        assert f == [rs[0]] + FirstOccurrences(rest, s);
        forall i, j | 0 <= i < j < |f| ensures f[i].fullName != f[j].fullName {
          if i == 0 {
            assert f[j] in FirstOccurrences(rest, s);
          } else {
            assert f[i] == FirstOccurrences(rest, s)[i - 1];
          }
        }
      } else {
        FirstOccurrencesUnique(rs[1..], s);
      }
    }
  }

  /** Every delivered record that passes the screen is represented by name. */
  lemma {:induction false} FirstOccurrencesComplete(rs: seq<Repository>, s: Screen)
    ensures forall r :: r in rs && Passes(s, r) ==> r.fullName in Names(FirstOccurrences(rs, s))
    decreases |rs|
  {
    if rs != [] {
      var f := FirstOccurrences(rs, s);
      if Passes(s, rs[0]) {
        var rest := Unseen(rs[1..], {rs[0].fullName});
        FirstOccurrencesComplete(rest, s);
        UnseenMembers(rs[1..], {rs[0].fullName});
        forall r | r in rs && Passes(s, r) ensures r.fullName in Names(f) {
          assert f == [rs[0]] + FirstOccurrences(rest, s);
          if r.fullName == rs[0].fullName {
            assert rs[0] in f;
          } else {
            assert r == rs[0] || r in rs[1..];
            assert r in rest;
            var q :| q in FirstOccurrences(rest, s) && q.fullName == r.fullName;
            assert q in f;
          }
        }
      } else {
        FirstOccurrencesComplete(rs[1..], s);
        forall r | r in rs && Passes(s, r) ensures r.fullName in Names(f) {
          assert r in rs[1..];
        }
      }
    }
  }

  /** The first record of `rs` named `name` that passes the screen. */
  function FirstNamed(rs: seq<Repository>, s: Screen, name: string): Option<Repository>
  {
    if rs == [] then None
    else if Passes(s, rs[0]) && rs[0].fullName == name then Some(rs[0])
    else FirstNamed(rs[1..], s, name)
  }

  lemma {:induction false} FirstNamedUnseen(rs: seq<Repository>, s: Screen, names: set<string>, name: string)
    requires name !in names
    ensures FirstNamed(Unseen(rs, names), s, name) == FirstNamed(rs, s, name)
    decreases |rs|
  {
    if rs != [] {
      FirstNamedUnseen(rs[1..], s, names, name);
      if rs[0].fullName !in names {
        assert ([rs[0]] + Unseen(rs[1..], names))[1..] == Unseen(rs[1..], names);
      }
    }
  }

  /** First seen wins: the record kept under a name is the earliest delivered
      record with that name that passes the screen. */
  lemma {:induction false} FirstOccurrencesKeepsEarliest(rs: seq<Repository>, s: Screen)
    ensures forall r :: r in FirstOccurrences(rs, s) ==> FirstNamed(rs, s, r.fullName) == Some(r)
    decreases |rs|
  {
    if rs != [] {
      if Passes(s, rs[0]) {
        var rest := Unseen(rs[1..], {rs[0].fullName});
        FirstOccurrencesKeepsEarliest(rest, s);
        FirstOccurrencesSound(rest, s);
        UnseenMembers(rs[1..], {rs[0].fullName});
        forall r | r in FirstOccurrences(rs, s) ensures FirstNamed(rs, s, r.fullName) == Some(r) {
          if r != rs[0] {
            assert r in FirstOccurrences(rest, s);
            FirstNamedUnseen(rs[1..], s, {rs[0].fullName}, r.fullName);
          }
        }
      } else {
        FirstOccurrencesKeepsEarliest(rs[1..], s);
      }
    }
  }

  /** A license filter rejects every record that carries no license. */
  lemma UnlicensedRejected(language: string, license: string, r: Repository)
    requires license != "" && r.license.None?
    ensures !Admits(language, license, r)
  {
  }
}
