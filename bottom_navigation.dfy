/** The bottom navigation bar: a fixed list of tabs, the family-member filter, the
    active-tab highlight and the click that switches tabs. Labels, icons and colours
    are presentation; only the tab ids are modelled. */
module BottomNavigation {
  import opened JsText
  import Layout

  datatype Tab = Tab(id: string)

  /** The five tabs, in display order. */
  const AllTabs: seq<Tab> := [Tab("home"), Tab("charts"), Tab("journal"), Tab("predictive"), Tab("profile")]

  /** The filter applied for family members: everything but the journal. */
  predicate NotJournal(tab: Tab) {
    tab.id !in ["journal"]
  }

  function Ids(tabs: seq<Tab>): (ids: seq<string>)
    ensures |ids| == |tabs|
    ensures forall i :: 0 <= i < |tabs| ==> ids[i] == tabs[i].id
  {
    seq(|tabs|, i requires 0 <= i < |tabs| => tabs[i].id)
  }

  /** The tabs the bar shows. */
  function VisibleTabs(isFamilyMember: bool): (tabs: seq<Tab>)
    ensures |tabs| <= |AllTabs|
    ensures isFamilyMember ==> Tab("journal") !in tabs
  {
    if isFamilyMember then Filter(AllTabs, NotJournal) else AllTabs
  }

  /** Patients and professionals see home, charts, journal, predictive, profile in that
      order; family members see the same list without the journal. */
  lemma VisibleTabsExactly(isFamilyMember: bool)
    ensures !isFamilyMember ==> Ids(VisibleTabs(false)) == ["home", "charts", "journal", "predictive", "profile"]
    ensures isFamilyMember ==> Ids(VisibleTabs(true)) == ["home", "charts", "predictive", "profile"]
  {
    FamilyFilter();
  }

  lemma FamilyFilter()
    ensures Filter(AllTabs, NotJournal) == [Tab("home"), Tab("charts"), Tab("predictive"), Tab("profile")]
  {
    var t := AllTabs;
    assert NotJournal(t[0]) && NotJournal(t[1]) && !NotJournal(t[2]) && NotJournal(t[3]) && NotJournal(t[4]);
    assert t[4..][1..] == [];
    assert Filter(t[4..], NotJournal) == [t[4]];
    assert t[3..][1..] == t[4..];
    assert Filter(t[3..], NotJournal) == [t[3], t[4]];
    assert t[2..][1..] == t[3..];
    assert Filter(t[2..], NotJournal) == [t[3], t[4]];
    assert t[1..][1..] == t[2..];
    assert Filter(t[1..], NotJournal) == [t[1], t[3], t[4]];
  }

  /** The family list keeps the order of the full list. */
  lemma FamilyTabsKeepOrder()
    ensures IsSubsequence(VisibleTabs(true), AllTabs)
  {
    FilterIsSubsequence(AllTabs, NotJournal);
  }

  /** isActive: a tab is highlighted when its id is the active tab. */
  function IsActive(activeTab: string, tab: Tab): bool {
    activeTab == tab.id
  }

  /** Clicking a tab reports that tab's id to the parent, which makes it the active tab. */
  function Click(tab: Tab): (newActiveTab: string)
    ensures IsActive(newActiveTab, tab)
  {
    tab.id
  }

  /** The tab ids of the bar are distinct, so at most one tab is highlighted. */
  lemma AtMostOneActive(isFamilyMember: bool, activeTab: string, i: nat, j: nat)
    requires i < |VisibleTabs(isFamilyMember)| && j < |VisibleTabs(isFamilyMember)|
    requires IsActive(activeTab, VisibleTabs(isFamilyMember)[i])
    requires IsActive(activeTab, VisibleTabs(isFamilyMember)[j])
    ensures i == j
  {
    VisibleTabsExactly(isFamilyMember);
    var ids := Ids(VisibleTabs(isFamilyMember));
    assert ids[i] == ids[j];
  }

  /** After clicking a visible tab, exactly that tab is highlighted. */
  lemma ClickHighlightsOnlyThatTab(isFamilyMember: bool, i: nat, j: nat)
    requires i < |VisibleTabs(isFamilyMember)| && j < |VisibleTabs(isFamilyMember)|
    ensures var tabs := VisibleTabs(isFamilyMember);
            IsActive(Click(tabs[i]), tabs[j]) <==> i == j
  {
    var tabs := VisibleTabs(isFamilyMember);
    if IsActive(Click(tabs[i]), tabs[j]) {
      AtMostOneActive(isFamilyMember, Click(tabs[i]), i, j);
    }
  }

  /** The bar and Layout's shouldShowTab disagree: a family member's bar still offers the
      profile tab that shouldShowTab hides (shouldShowTab is not applied to the bar). */
  lemma FamilyBarShowsProfile()
    ensures Tab("profile") in VisibleTabs(true)
    ensures !Layout.ShouldShowTab(true, "profile")
  {
    VisibleTabsExactly(true);
    assert VisibleTabs(true)[3] == Tab("profile");
  }
}
