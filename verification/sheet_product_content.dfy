/**
 * The detail sheet of a product feature: the feature's entries become
 * tabs numbered "1", "2", ... in entry order, keeping only entries with a
 * title, and two buttons step through the tabs without wrapping. The
 * translated feature data is a parameter; its entries are listed in key order.
 */
module SheetProductContent {
  import opened Wrappers
  import opened Strings
  import opened Sorting

  datatype TabData = TabData(title: string, description: seq<string>, details: seq<(string, string)>)

  /** A tab: its number as text, the entry's key and the entry's title. */
  datatype Tab = Tab(value: string, key: string, caption: string)

  function Titled(): ((string, TabData)) -> bool {
    (e: (string, TabData)) => e.1.title != ""
  }

  /** `tabContent`: the titled entries, numbered from "1" upwards. */
  function TabContent(entries: seq<(string, TabData)>): (tabs: seq<Tab>)
    ensures var titled := Filter(entries, Titled());
      |tabs| == |titled|
      && forall i :: 0 <= i < |tabs| ==> tabs[i] == Tab(NatToString(i + 1), titled[i].0, titled[i].1.title)
  {
    var titled := Filter(entries, Titled());
    seq(|titled|, i requires 0 <= i < |titled| => Tab(NatToString(i + 1), titled[i].0, titled[i].1.title))
  }

  /** What the sheet shows: a message for missing or empty data, another when no entry has a title, and the tabs otherwise. */
  datatype View = NoData | NoTitledTabs | Tabs(tabs: seq<Tab>)

  function ViewOf(featureData: Option<seq<(string, TabData)>>): (v: View)
    ensures v.Tabs? ==> featureData.Some? && |v.tabs| > 0 && v.tabs == TabContent(featureData.value)
    ensures v == NoData <==> featureData.None? || |featureData.value| == 0
  {
    if featureData.None? || |featureData.value| == 0 then NoData
    else
      var tabs := TabContent(featureData.value);
      if |tabs| == 0 then NoTitledTabs else Tabs(tabs)
  }

  /** The second fallback shows exactly when there is data but no entry has a title. */
  lemma NoTitledTabsMeaning(entries: seq<(string, TabData)>)
    ensures ViewOf(Some(entries)) == NoTitledTabs <==>
      |entries| > 0 && forall i :: 0 <= i < |entries| ==> entries[i].1.title == ""
  {
    if exists i :: 0 <= i < |entries| && entries[i].1.title != "" {
      var i :| 0 <= i < |entries| && entries[i].1.title != "";
      FilterKeeps(entries, Titled(), entries[i]);
    } else {
      FilterNone(entries, Titled());
    }
  }

  /** `tabs.findIndex(t => t.value === v)`: the first tab carrying the value, or -1. */
  function FindIndex(tabs: seq<Tab>, v: string): (r: int)
    ensures -1 <= r < |tabs|
    ensures r == -1 <==> forall j :: 0 <= j < |tabs| ==> tabs[j].value != v
    ensures r >= 0 ==> tabs[r].value == v && forall j :: 0 <= j < r ==> tabs[j].value != v
  {
    if |tabs| == 0 then -1
    else if tabs[0].value == v then 0
    else
      var r := FindIndex(tabs[1..], v);
      if r == -1 then -1 else r + 1
  }

  /** The tab numbers are distinct, so looking a tab up by its number finds that very tab. */
  lemma FindTabNumber(entries: seq<(string, TabData)>, i: nat)
    requires i < |TabContent(entries)|
    ensures FindIndex(TabContent(entries), NatToString(i + 1)) == i
  {
    var tabs := TabContent(entries);
    var r := FindIndex(tabs, NatToString(i + 1));
    assert tabs[i].value == NatToString(i + 1);
    NatToStringInjective(r + 1, i + 1);
  }

  /** The sheet's state: the tabs of the current feature and the value of the active tab. */
  class TabState {
    const tabs: seq<Tab>
    var activeTab: string

    /** The tab values are distinct and the active tab is one of them; otherwise `find(...)!` yields nothing and rendering fails. */
    ghost predicate Valid()
      reads this
    {
      (forall i, j :: 0 <= i < j < |tabs| ==> tabs[i].value != tabs[j].value)
      && FindIndex(tabs, activeTab) >= 0
    }

    constructor (entries: seq<(string, TabData)>)
      requires |TabContent(entries)| > 0
      ensures tabs == TabContent(entries) && activeTab == "1"
      ensures Valid() && CurrentIndex() == 0
    {
      tabs := TabContent(entries);
      activeTab := "1";
      new;
      FindTabNumber(entries, 0);
      TabValuesDistinct(entries);
    }

    function CurrentIndex(): int
      reads this
    {
      FindIndex(tabs, activeTab)
    }

    function PrevDisabled(): bool
      reads this
    {
      CurrentIndex() == 0
    }

    function NextDisabled(): bool
      reads this
    {
      CurrentIndex() == |tabs| - 1
    }

    /** The counter `index + 1 / n`. */
    function Counter(): string
      reads this
      requires Valid()
    {
      NatToString(CurrentIndex() + 1) + " / " + NatToString(|tabs|)
    }

    /** The next button's caption: the following tab's title, when there is one. */
    function NextCaption(): Option<string>
      reads this
      requires Valid()
    {
      if CurrentIndex() < |tabs| - 1 then Some(tabs[CurrentIndex() + 1].caption) else None
    }

    /** Advances exactly one tab unless the next button is disabled. */
    method GoToNext()
      requires Valid()
      modifies this
      ensures Valid()
      ensures CurrentIndex() == if old(NextDisabled()) then old(CurrentIndex()) else old(CurrentIndex()) + 1
    {
      var current := FindIndex(tabs, activeTab);
      if current < |tabs| - 1 {
        activeTab := tabs[current + 1].value;
        DistinctFind(tabs, current + 1);
      }
    }

    /** Moves back exactly one tab unless the previous button is disabled. */
    method GoToPrev()
      requires Valid()
      modifies this
      ensures Valid()
      ensures CurrentIndex() == if old(PrevDisabled()) then old(CurrentIndex()) else old(CurrentIndex()) - 1
    {
      var current := FindIndex(tabs, activeTab);
      if current > 0 {
        activeTab := tabs[current - 1].value;
        DistinctFind(tabs, current - 1);
      }
    }
  }

  /** In a list of distinct values, each value is found at its own position. */
  lemma DistinctFind(tabs: seq<Tab>, i: nat)
    requires i < |tabs|
    requires forall a, b :: 0 <= a < b < |tabs| ==> tabs[a].value != tabs[b].value
    ensures FindIndex(tabs, tabs[i].value) == i
  {
  }

  /** The tabs of any feature carry distinct values, as the navigation requires. */
  lemma TabValuesDistinct(entries: seq<(string, TabData)>)
    ensures var tabs := TabContent(entries);
      forall i, j :: 0 <= i < j < |tabs| ==> tabs[i].value != tabs[j].value
  {
    var tabs := TabContent(entries);
    forall i, j | 0 <= i < j < |tabs|
      ensures tabs[i].value != tabs[j].value
    {
      if tabs[i].value == tabs[j].value {
        NatToStringInjective(i + 1, j + 1);
      }
    }
  }
}
