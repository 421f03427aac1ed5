/** The public package list's search box. */
module PackageSearch {
  import opened Strings
  import Seqs
  import opened Types

  /** A package matches when its lower-cased title or destination includes the lower-cased query. */
  predicate MatchesQuery(pkg: TourPackage, query: string) {
    Contains(Lower(pkg.title), Lower(query)) || Contains(Lower(pkg.destination), Lower(query))
  }

  /** `filteredPackages`: the matching packages, in list order. */
  function FilterPackages(packages: seq<TourPackage>, query: string): (shown: seq<TourPackage>)
    ensures Seqs.IsSubseq(shown, packages)
    ensures forall i :: 0 <= i < |shown| ==> MatchesQuery(shown[i], query)
    ensures forall pkg :: pkg in packages && MatchesQuery(pkg, query) ==> pkg in shown
    ensures forall pkg :: pkg in shown ==> pkg in packages
    ensures forall pkg :: multiset(shown)[pkg] == if MatchesQuery(pkg, query) then multiset(packages)[pkg] else 0
  {
    var keep := (pkg: TourPackage) => MatchesQuery(pkg, query);
    Seqs.FilterIsSubseq(keep, packages);
    Seqs.FilterKeeps(keep, packages);
    Seqs.Filter(keep, packages)
  }

  /** The empty query shows every package. */
  lemma EmptyQueryShowsAll(packages: seq<TourPackage>)
    ensures FilterPackages(packages, "") == packages
  {
    forall pkg: TourPackage ensures MatchesQuery(pkg, "") {
      ContainsEmpty(Lower(pkg.title));
    }
    Seqs.FilterKeepsAll((pkg: TourPackage) => MatchesQuery(pkg, ""), packages);
  }

  /** `q2` spells `q1` up to the case of its ASCII letters. */
  predicate SameIgnoringCase(q1: string, q2: string) {
    |q1| == |q2|
    && forall i :: 0 <= i < |q1| ==>
         q2[i] == q1[i] || q2[i] == UpperChar(q1[i]) || q2[i] == LowerChar(q1[i])
  }

  /** Queries that differ only in letter case show the same packages. */
  lemma CaseInsensitive(packages: seq<TourPackage>, q1: string, q2: string)
    requires SameIgnoringCase(q1, q2)
    ensures FilterPackages(packages, q1) == FilterPackages(packages, q2)
  {
    assert Lower(q1) == Lower(q2) by {
      forall i | 0 <= i < |q1| ensures Lower(q1)[i] == Lower(q2)[i] {
        assert LowerChar(UpperChar(q1[i])) == LowerChar(q1[i]);
        assert LowerChar(LowerChar(q1[i])) == LowerChar(q1[i]);
      }
    }
    Seqs.FilterExtensional(
      (pkg: TourPackage) => MatchesQuery(pkg, q1), (pkg: TourPackage) => MatchesQuery(pkg, q2), packages);
  }

  /** Lengthening the query can only narrow the match: a package matching `longer` matches every part of it. */
  lemma NarrowerQueryMatchesLess(pkg: TourPackage, query: string, longer: string)
    requires Contains(longer, query)
    requires MatchesQuery(pkg, longer)
    ensures MatchesQuery(pkg, query)
  {
    LowerPreservesContains(longer, query);
    if Contains(Lower(pkg.title), Lower(longer)) {
      ContainsTransitive(Lower(pkg.title), Lower(longer), Lower(query));
    } else {
      ContainsTransitive(Lower(pkg.destination), Lower(longer), Lower(query));
    }
  }

  /** Typing more of a query shows a subsequence of what was shown before. */
  lemma NarrowerQueryShowsSubsequence(packages: seq<TourPackage>, query: string, longer: string)
    requires Contains(longer, query)
    ensures Seqs.IsSubseq(FilterPackages(packages, longer), FilterPackages(packages, query))
  {
    forall pkg | MatchesQuery(pkg, longer) ensures MatchesQuery(pkg, query) {
      NarrowerQueryMatchesLess(pkg, query, longer);
    }
    Seqs.FilterMonotone(
      (pkg: TourPackage) => MatchesQuery(pkg, longer), (pkg: TourPackage) => MatchesQuery(pkg, query), packages);
  }
}
