/** The screen wrapper: which tabs a family member may see, and when the bottom
    navigation bar is rendered. */
module Layout {

  /** The tabs hidden from a family member. */
  const RestrictedTabs: seq<string> := ["profile", "family"]

  /** shouldShowTab: every tab for a patient or professional; for a family member,
      every tab except the restricted ones. */
  function ShouldShowTab(isFamilyMember: bool, tab: string): (show: bool)
    ensures !isFamilyMember ==> show
    ensures isFamilyMember ==> (show <==> tab != "profile" && tab != "family")
  {
    !isFamilyMember || tab !in RestrictedTabs
  }

  /** The bottom navigation bar is rendered on every tab but the payment one. */
  function ShowsBottomNavigation(activeTab: string): (shown: bool)
    ensures shown <==> activeTab != "payment"
  {
    activeTab != "payment"
  }

  /** The main content area reserves room for the bar except on the payment and chat tabs. */
  function ReservesNavigationSpace(activeTab: string): (padded: bool)
    ensures padded ==> ShowsBottomNavigation(activeTab)
    ensures padded <==> activeTab != "payment" && activeTab != "chat"
  {
    activeTab != "payment" && activeTab != "chat"
  }
}
