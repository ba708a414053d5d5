/**
 * The project gallery: the project references, ordered by their display
 * order, cut to at most `maxItems` entries. The sort runs on a copy, so
 * the caller's list is never reordered; values model that here.
 */
module ProjectGallery {
  import opened Wrappers
  import opened Sorting

  datatype ProjectReference = ProjectReference(id: string, title: string, description: string, imageUrl: string, displayOrder: int)

  function DisplayOrder(p: ProjectReference): int { p.displayOrder }

  /** `maxItems` defaults to the number of projects when the prop is not given. */
  function MaxItems(projects: seq<ProjectReference>, maxItems: Option<int>): int {
    if maxItems.Some? then maxItems.value else |projects|
  }

  /** `[...projects].sort(by displayOrder).slice(0, maxItems)`. */
  function Displayed(projects: seq<ProjectReference>, maxItems: Option<int>): seq<ProjectReference> {
    SliceTo(SortBy(projects, DisplayOrder), MaxItems(projects, maxItems))
  }

  /** A prefix of a sorted list is sorted, and takes from the list no more than it holds. */
  lemma PrefixOfSorted<T>(s: seq<T>, key: T -> int, k: nat)
    requires k <= |s| && SortedBy(s, key)
    ensures SortedBy(s[..k], key)
    ensures multiset(s[..k]) <= multiset(s)
  {
    assert s == s[..k] + s[k..];
    assert multiset(s) == multiset(s[..k]) + multiset(s[k..]);
  }

  /**
   * What the gallery shows: projects in display order, each taken from the
   * input, as many as `maxItems` allows (a negative `maxItems` drops that
   * many from the end, as `slice` does), all of them when it is not given.
   * The shown projects are the front of the sorted list, so no project
   * left out comes earlier in display order than one shown.
   */
  lemma DisplayedMeaning(projects: seq<ProjectReference>, maxItems: Option<int>)
    ensures SortedBy(Displayed(projects, maxItems), DisplayOrder)
    ensures multiset(Displayed(projects, maxItems)) <= multiset(projects)
    ensures maxItems.None? ==> multiset(Displayed(projects, maxItems)) == multiset(projects)
    ensures Displayed(projects, maxItems) == SortBy(projects, DisplayOrder)[..|Displayed(projects, maxItems)|]
    ensures forall i, j :: 0 <= i < |Displayed(projects, maxItems)| <= j < |projects| ==>
      Displayed(projects, maxItems)[i].displayOrder <= SortBy(projects, DisplayOrder)[j].displayOrder
    ensures |Displayed(projects, maxItems)| ==
      var m := MaxItems(projects, maxItems);
      if m >= |projects| then |projects| else if m >= 0 then m else if |projects| + m < 0 then 0 else |projects| + m
  {
    var sorted := SortBy(projects, DisplayOrder);
    var shown := Displayed(projects, maxItems);
    PrefixOfSorted(sorted, DisplayOrder, |shown|);
    assert shown == sorted[..|shown|];
    assert |sorted| == |multiset(sorted)| == |multiset(projects)| == |projects|;
  }

  /**
   * With or without a limit, the shown projects of one display order are
   * the first ones of that order in the input, in the input's order.
   */
  lemma DisplayedStableLimited(projects: seq<ProjectReference>, maxItems: Option<int>, k: int)
    ensures WithKey(Displayed(projects, maxItems), DisplayOrder, k) <= WithKey(projects, DisplayOrder, k)
  {
    var sorted := SortBy(projects, DisplayOrder);
    var shown := Displayed(projects, maxItems);
    assert sorted == shown + sorted[|shown|..];
    FilterAppend(shown, sorted[|shown|..], KeyIs(DisplayOrder, k));
    SortByStable(projects, DisplayOrder, k);
  }

  /** Without a limit, the projects with one display order appear in their input order. */
  lemma DisplayedStable(projects: seq<ProjectReference>, k: int)
    ensures WithKey(Displayed(projects, None), DisplayOrder, k) == WithKey(projects, DisplayOrder, k)
  {
    SortByStable(projects, DisplayOrder, k);
    var sorted := SortBy(projects, DisplayOrder);
    assert |sorted| == |multiset(sorted)| == |multiset(projects)| == |projects|;
    assert Displayed(projects, None) == sorted;
  }

  /** Every project shown is one of the input's, and a shown project's predecessors come no later in display order. */
  lemma DisplayedFromInput(projects: seq<ProjectReference>, maxItems: Option<int>, i: nat)
    requires i < |Displayed(projects, maxItems)|
    ensures Displayed(projects, maxItems)[i] in projects
    ensures forall j :: 0 <= j < i ==> Displayed(projects, maxItems)[j].displayOrder <= Displayed(projects, maxItems)[i].displayOrder
  {
    DisplayedMeaning(projects, maxItems);
    var shown := Displayed(projects, maxItems);
    assert shown[i] in multiset(shown);
  }
}
