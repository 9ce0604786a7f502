/** The tab bar (v2/src/components/molecules/TabNavigation.tsx): one button
    per tab, in order, active when its label is the active tab, and
    reporting its own label when clicked. */
module TabNavigation {
  import opened Sequences

  /** A rendered tab button: its label, whether it is highlighted, and the
      value its click passes to `onTabChange`. */
  datatype TabButton = TabButton(name: string, isActive: bool, reports: string)

  /** `tabs.map(...)`: the buttons for `tabs` with `activeTab` selected. */
  function TabButtons(tabs: seq<string>, activeTab: string): (bs: seq<TabButton>)
    ensures |bs| == |tabs|
    ensures forall i :: 0 <= i < |tabs| ==> bs[i].name == tabs[i] && bs[i].reports == tabs[i]
    ensures forall i :: 0 <= i < |tabs| ==> (bs[i].isActive <==> tabs[i] == activeTab)
  {
    if tabs == [] then []
    else TabButtons(tabs[..|tabs| - 1], activeTab)
         + [TabButton(tabs[|tabs| - 1], tabs[|tabs| - 1] == activeTab, tabs[|tabs| - 1])]
  }

  /** How many buttons are highlighted. */
  function ActiveCount(bs: seq<TabButton>): nat {
    if bs == [] then 0
    else ActiveCount(bs[..|bs| - 1]) + (if bs[|bs| - 1].isActive then 1 else 0)
  }

  /** Exactly as many buttons are highlighted as there are tabs equal to
      the active tab. */
  lemma {:induction false} ActiveCountIsOccurrences(tabs: seq<string>, activeTab: string)
    ensures ActiveCount(TabButtons(tabs, activeTab)) == multiset(tabs)[activeTab]
  {
    if tabs != [] {
      var init := tabs[..|tabs| - 1];
      assert tabs == init + [tabs[|tabs| - 1]];
      var bs := TabButtons(tabs, activeTab);
      assert bs[..|bs| - 1] == TabButtons(init, activeTab);
      ActiveCountIsOccurrences(init, activeTab);
    }
  }

  /** With distinct tabs, exactly one button is highlighted when the
      active tab is among them, and none when it is not. */
  lemma OneActiveButton(tabs: seq<string>, activeTab: string)
    requires Distinct(tabs)
    ensures activeTab in tabs ==> ActiveCount(TabButtons(tabs, activeTab)) == 1
    ensures activeTab !in tabs ==> ActiveCount(TabButtons(tabs, activeTab)) == 0
  {
    ActiveCountIsOccurrences(tabs, activeTab);
    DistinctOccursOnce(tabs, activeTab);
  }
}
