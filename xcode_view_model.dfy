/** The release list screen's state (`XcodeViewModel`): post-processing a fetched feed and paging through it. */
module ReleaseFeed {
  import opened Wrappers
  import opened Seqs
  import opened Sorting
  import opened Text
  import opened Releases

  /** How many releases each page reveals. */
  const PageSize: nat := 20

  /** The sort key `(year, month, day)`, a missing date counting as `(0, 0, 0)`. */
  function DateTuple(r: XcodeRelease): (int, int, int) {
    if r.date.Some? then (r.date.value.year, r.date.value.month, r.date.value.day) else (0, 0, 0)
  }

  /** Tuple `>=`: `l` is not older than `r`. */
  predicate NewerOrSame(l: XcodeRelease, r: XcodeRelease) {
    var a := DateTuple(l);
    var b := DateTuple(r);
    a.0 > b.0 || (a.0 == b.0 && (a.1 > b.1 || (a.1 == b.1 && a.2 >= b.2)))
  }

  lemma NewerOrSameTotal()
    ensures TotalPreorder(NewerOrSame)
  {
  }

  /** The ids of `s`. */
  function IdsOf(s: seq<XcodeRelease>): set<string> {
    set r | r in s :: r.Id()
  }

  /** The filter on `seen.insert(id).inserted`: the first release of every id, in order. */
  function Dedup(s: seq<XcodeRelease>): seq<XcodeRelease> {
    if s == [] then []
    else
      var init := s[..|s| - 1];
      var last := s[|s| - 1];
      if last.Id() in IdsOf(init) then Dedup(init) else Dedup(init) + [last]
  }

  predicate NamedXcode(r: XcodeRelease) {
    HasInfix(if r.name.Some? then r.name.value else "", "Xcode")
  }

  /** What `load` does to a fetched list: newest first, first of every id, names containing "Xcode". */
  ghost predicate IsPostprocessed(items: seq<XcodeRelease>, r: seq<XcodeRelease>) {
    exists sorted :: multiset(sorted) == multiset(items) && SortedBy(sorted, NewerOrSame) && r == Filter(Dedup(sorted), NamedXcode)
  }

  /** Sorting, de-duplication and the name filter of `load`. */
  method Postprocess(items: seq<XcodeRelease>) returns (r: seq<XcodeRelease>)
    ensures IsPostprocessed(items, r)
  {
    var sorted := SortBy(items, NewerOrSame);
    NewerOrSameTotal();
    SortBySorted(items, NewerOrSame);
    var unique := FirstOfEachId(sorted);
    r := Filter(unique, NamedXcode);
    assert multiset(sorted) == multiset(items) && SortedBy(sorted, NewerOrSame) && r == Filter(Dedup(sorted), NamedXcode);
  }

  /** The `seen` set loop of `load`: keeps a release only when its id was not met before. */
  method FirstOfEachId(sorted: seq<XcodeRelease>) returns (unique: seq<XcodeRelease>)
    ensures unique == Dedup(sorted)
  {
    var seen: set<string> := {};
    unique := [];
    for i := 0 to |sorted|
      invariant seen == IdsOf(sorted[..i])
      invariant unique == Dedup(sorted[..i])
    {
      var id := sorted[i].Id();
      FirstOfEachIdStep(sorted, i);
      if id !in seen {
        seen := seen + {id};
        unique := unique + [sorted[i]];
      }
    }
    assert sorted[..|sorted|] == sorted;
  }

  /** One step of the `seen` loop: the next release is kept exactly when its id is new. */
  lemma FirstOfEachIdStep(sorted: seq<XcodeRelease>, i: nat)
    requires i < |sorted|
    ensures IdsOf(sorted[..i + 1]) == IdsOf(sorted[..i]) + {sorted[i].Id()}
    ensures Dedup(sorted[..i + 1]) ==
      if sorted[i].Id() in IdsOf(sorted[..i]) then Dedup(sorted[..i]) else Dedup(sorted[..i]) + [sorted[i]]
  {
    assert sorted[..i + 1] == sorted[..i] + [sorted[i]];
    IdsOfAppend(sorted[..i], sorted[i]);
    DedupAppend(sorted[..i], sorted[i]);
  }

  lemma IdsOfAppend(s: seq<XcodeRelease>, x: XcodeRelease)
    ensures IdsOf(s + [x]) == IdsOf(s) + {x.Id()}
  {
    assert forall y :: y in s + [x] <==> y in s || y == x;
  }

  lemma DedupAppend(s: seq<XcodeRelease>, x: XcodeRelease)
    ensures Dedup(s + [x]) == if x.Id() in IdsOf(s) then Dedup(s) else Dedup(s) + [x]
  {
    assert (s + [x])[..|s|] == s;
  }

  /** De-duplication only drops releases and keeps the order of the rest. */
  lemma {:induction false} DedupSubsequence(s: seq<XcodeRelease>)
    ensures IsSubsequence(Dedup(s), s)
  {
    if s != [] {
      var init := s[..|s| - 1];
      var last := s[|s| - 1];
      DedupSubsequence(init);
      assert s == init + [last];
      DedupAppend(init, last);
      SubsequenceAppend(Dedup(init), init, last);
    }
  }

  /** De-duplication keeps every id once. */
  lemma {:induction false} DedupIds(s: seq<XcodeRelease>)
    ensures DistinctIds(Dedup(s))
    ensures IdsOf(Dedup(s)) == IdsOf(s)
  {
    if s != [] {
      var init := s[..|s| - 1];
      var last := s[|s| - 1];
      DedupIds(init);
      assert s == init + [last];
      DedupAppend(init, last);
      IdsOfAppend(init, last);
      if last.Id() !in IdsOf(init) {
        var d := Dedup(init);
        IdsOfAppend(d, last);
        forall i, j | 0 <= i < j < |d + [last]| ensures (d + [last])[i].Id() != (d + [last])[j].Id() {
          if j == |d| {
            assert (d + [last])[i] == d[i];
            assert d[i].Id() in IdsOf(d);
          } else {
            assert (d + [last])[i] == d[i] && (d + [last])[j] == d[j];
          }
        }
      }
    }
  }

  /** A subsequence stays one when both sides are extended, or when only the larger side is. */
  lemma {:induction false} SubsequenceAppend<T>(r: seq<T>, s: seq<T>, x: T)
    requires IsSubsequence(r, s)
    ensures IsSubsequence(r + [x], s + [x]) && IsSubsequence(r, s + [x])
    decreases |s|
  {
    if r == [] {
      assert r + [x] == [x];
      SingletonSubsequence(s, x);
    } else if r[0] == s[0] && IsSubsequence(r[1..], s[1..]) {
      SubsequenceAppend(r[1..], s[1..], x);
      assert (r + [x])[1..] == r[1..] + [x];
      assert (s + [x])[1..] == s[1..] + [x];
    } else {
      SubsequenceAppend(r, s[1..], x);
      assert (s + [x])[1..] == s[1..] + [x];
    }
  }

  lemma {:induction false} SingletonSubsequence<T>(s: seq<T>, x: T)
    ensures IsSubsequence([x], s + [x])
    decreases |s|
  {
    if s != [] {
      SingletonSubsequence(s[1..], x);
      assert (s + [x])[1..] == s[1..] + [x];
    } else {
      assert [x][1..] == [];
    }
  }

  /** Distinct ids, preserved by dropping elements. */
  ghost predicate DistinctIds(s: seq<XcodeRelease>) {
    forall i, j :: 0 <= i < j < |s| ==> s[i].Id() != s[j].Id()
  }

  lemma {:induction false} DistinctIdsSubsequence(r: seq<XcodeRelease>, s: seq<XcodeRelease>)
    requires IsSubsequence(r, s) && DistinctIds(s)
    ensures DistinctIds(r)
  {
    PairwiseSubsequence(r, s, DifferentIds);
    assert forall i, j :: 0 <= i < j < |s| ==> DifferentIds(s[i], s[j]);
  }

  predicate DifferentIds(a: XcodeRelease, b: XcodeRelease) {
    a.Id() != b.Id()
  }

  /** The list `load` keeps is newest first, has no repeated id, and holds only releases named "Xcode …" from the feed. */
  ghost predicate WellFormedFeed(all: seq<XcodeRelease>) {
    SortedBy(all, NewerOrSame) && DistinctIds(all) && forall r :: r in all ==> NamedXcode(r)
  }

  lemma PostprocessedWellFormed(items: seq<XcodeRelease>, r: seq<XcodeRelease>)
    requires IsPostprocessed(items, r)
    ensures WellFormedFeed(r)
    ensures forall x :: x in r ==> x in items
  {
    var sorted :| multiset(sorted) == multiset(items) && SortedBy(sorted, NewerOrSame) && r == Filter(Dedup(sorted), NamedXcode);
    DedupSubsequence(sorted);
    DedupIds(sorted);
    var unique := Dedup(sorted);
    PairwiseSubsequence(unique, sorted, NewerOrSame);
    PairwiseSubsequence(r, unique, NewerOrSame);
    DistinctIdsSubsequence(r, unique);
    SubsequenceMembers(unique, sorted);
    forall x | x in r ensures x in items {
      assert x in multiset(sorted);
    }
  }

  /** The first `n` entries of `s`, or all of them when there are fewer. */
  function Prefix<T>(s: seq<T>, n: nat): (p: seq<T>)
    ensures |p| == if n < |s| then n else |s|
    ensures p <= s
  {
    if n < |s| then s[..n] else s
  }

  /** The result of a fetch: the decoded releases, or the error's description. */
  datatype FetchResult = Fetched(items: seq<XcodeRelease>) | Failed(message: string)

  class XcodeViewModel {
    var releases: seq<XcodeRelease>
    var errorText: Option<string>
    var isLoading: bool
    var isLoadingMore: bool
    var allReleases: seq<XcodeRelease>

    /** The visible list is always the start of the full one. */
    ghost predicate Valid()
      reads this
    {
      releases <= allReleases
    }

    constructor()
      ensures Valid() && releases == [] && allReleases == [] && errorText.None? && !isLoading && !isLoadingMore
    {
      releases := [];
      errorText := None;
      isLoading := false;
      isLoadingMore := false;
      allReleases := [];
    }

    /** `hasMorePages`. */
    function HasMorePages(): (b: bool)
      reads this
      ensures b <==> |releases| < |allReleases|
    {
      |releases| < |allReleases|
    }

    /** `load()` after the fetch, whose outcome is passed in; a second call while loading does nothing. */
    method Load(fetch: FetchResult)
      modifies this
      ensures old(isLoading) ==>
        releases == old(releases) && allReleases == old(allReleases) && errorText == old(errorText) && isLoading
      ensures !old(isLoading) ==> !isLoading && Valid()
      ensures !old(isLoading) && fetch.Fetched? ==>
        IsPostprocessed(fetch.items, allReleases) && releases == Prefix(allReleases, PageSize) && errorText.None?
      ensures !old(isLoading) && fetch.Failed? ==>
        errorText == Some(fetch.message) && allReleases == [] && releases == []
      ensures isLoadingMore == old(isLoadingMore)
      ensures old(Valid()) ==> Valid()
    {
      if isLoading {
        return;
      }
      isLoading := true;
      errorText := None;
      match fetch {
        case Fetched(items) =>
          allReleases := Postprocess(items);
          releases := Prefix(allReleases, PageSize);
        case Failed(message) =>
          errorText := Some(message);
          allReleases := [];
          releases := [];
      }
      isLoading := false;
    }

    /** `appendNextPage()`: reveals up to one more page when there is one and no append is under way. */
    method AppendNextPage()
      modifies this
      ensures !old(isLoadingMore) && old(HasMorePages()) ==>
        releases == old(releases) + old(allReleases)[|old(releases)|..Min(|old(releases)| + PageSize, |old(allReleases)|)]
      ensures old(isLoadingMore) || !old(HasMorePages()) ==> releases == old(releases)
      ensures allReleases == old(allReleases) && errorText == old(errorText) && isLoading == old(isLoading)
      ensures isLoadingMore == old(isLoadingMore)
      ensures old(Valid()) ==> Valid() && releases == Prefix(allReleases, old(|releases|) + (if !old(isLoadingMore) && old(HasMorePages()) then PageSize else 0))
    {
      if isLoadingMore || !HasMorePages() {
        return;
      }
      isLoadingMore := true;
      var start := |releases|;
      var end := Min(start + PageSize, |allReleases|);
      releases := releases + allReleases[start..end];
      isLoadingMore := false;
    }

    /** `loadMoreIfNeeded(currentItem:)`: the next page, once the last visible release comes into view. */
    method LoadMoreIfNeeded(item: Option<XcodeRelease>)
      modifies this
      ensures var triggered := old(HasMorePages()) && item.Some? && old(releases) != []
                               && item.value.Id() == old(releases)[|old(releases)| - 1].Id() && !old(isLoadingMore);
        && (triggered ==> releases == old(releases) + old(allReleases)[|old(releases)|..Min(|old(releases)| + PageSize, |old(allReleases)|)])
        && (!triggered ==> releases == old(releases))
      ensures allReleases == old(allReleases) && errorText == old(errorText) && isLoading == old(isLoading)
      ensures isLoadingMore == old(isLoadingMore)
      ensures old(Valid()) ==> Valid()
    {
      if !HasMorePages() {
        return;
      }
      if item.None? {
        return;
      }
      if releases != [] && item.value.Id() == releases[|releases| - 1].Id() {
        AppendNextPage();
      }
    }
  }

  function Min(a: int, b: int): int {
    if a < b then a else b
  }

  /** The visible list after `pages` appends, starting from the first page. */
  function AfterPages(all: seq<XcodeRelease>, pages: nat): (visible: seq<XcodeRelease>)
    ensures visible == Prefix(all, PageSize * (pages + 1))
  {
    if pages == 0 then Prefix(all, PageSize)
    else
      var earlier := AfterPages(all, pages - 1);
      if |earlier| < |all| then earlier + all[|earlier|..Min(|earlier| + PageSize, |all|)] else earlier
  }

  /** Enough appends reveal the whole list: `|all| / 20` of them after the first page. */
  lemma PagesReachEnd(all: seq<XcodeRelease>)
    ensures AfterPages(all, |all| / PageSize) == all
  {
  }
}
