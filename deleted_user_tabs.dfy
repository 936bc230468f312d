/**
  The tab strip of the Exchange "deleted user" pages: which tabs it offers
  and which one is highlighted. Quota checks and the user's account type are
  inputs; the culture-aware ignore-case string comparison is an abstract case
  fold (two strings compare equal when their folds are equal).
 */
module ExchangeServerUserControls {
  import opened Wrappers

  datatype Quota = OrganizationSecurityGroups | Exchange2007DistributionLists

  /** The account types the member-of test names; every other value of the
      enumeration is `OtherAccountType`. */
  datatype ExchangeAccountType = Mailbox | Room | Equipment | OtherAccountType

  /** A call `BindTabs` makes to the outside: a quota check, or the web
      service call that fetches the user's general settings. */
  datatype Lookup = QuotaCheck(quota: Quota) | UserGeneralSettings

  /** A tab: its id and the resource key of its localized caption. */
  datatype Tab = Tab(id: string, textKey: string)

  const GeneralTabId := "view_deleted_user"
  const MemberOfTabId := "deleted_user_memberof"

  /** When the member-of tab is offered. */
  predicate MemberOfAllowed(quotaPasses: Quota -> bool, accountType: ExchangeAccountType)
  {
    || quotaPasses(OrganizationSecurityGroups)
    || (quotaPasses(Exchange2007DistributionLists)
        && (accountType == Mailbox || accountType == Room || accountType == Equipment))
  }

  /** `String.Compare(id, selectedTab, true) == 0`; a null selection matches
      no tab id. */
  predicate Matches(id: string, selectedTab: Option<string>, fold: string -> string): (b: bool)
    ensures selectedTab.None? ==> !b
    // selecting a tab by its exact id always matches it
    ensures selectedTab == Some(id) ==> b
  {
    selectedTab.Some? && fold(id) == fold(selectedTab.value)
  }

  /** The first half of `BindTabs`: the tab list, and the outside calls made
      while building it. `userAccountType` is what the user lookup returns. */
  method BuildTabs(quotaPasses: Quota -> bool, userAccountType: ExchangeAccountType)
    returns (tabs: seq<Tab>, lookups: seq<Lookup>)
    ensures 1 <= |tabs| <= 2
    ensures tabs[0] == Tab(GeneralTabId, "Tab.General")
    ensures |tabs| == 2 <==> MemberOfAllowed(quotaPasses, userAccountType)
    ensures |tabs| == 2 ==> tabs[1] == Tab(MemberOfTabId, "Tab.MemberOf")
    ensures forall i :: 0 <= i < |tabs| && tabs[i].id == MemberOfTabId ==> i == 1
    ensures UserGeneralSettings in lookups <==> !quotaPasses(OrganizationSecurityGroups)
    ensures lookups ==
      if quotaPasses(OrganizationSecurityGroups) then [QuotaCheck(OrganizationSecurityGroups)]
      else [QuotaCheck(OrganizationSecurityGroups), UserGeneralSettings, QuotaCheck(Exchange2007DistributionLists)]
  {
    tabs := [Tab(GeneralTabId, "Tab.General")];
    lookups := [QuotaCheck(OrganizationSecurityGroups)];
    var success := quotaPasses(OrganizationSecurityGroups);
    if !success {
      lookups := lookups + [UserGeneralSettings];
      var accountType := userAccountType;
      lookups := lookups + [QuotaCheck(Exchange2007DistributionLists)];
      success := quotaPasses(Exchange2007DistributionLists)
        && (accountType == Mailbox || accountType == Room || accountType == Equipment);
    }
    if success {
      tabs := tabs + [Tab(MemberOfTabId, "Tab.MemberOf")];
    }
    assert |GeneralTabId| != |MemberOfTabId|;
  }

  /** The second half of `BindTabs`: the index of the first tab whose id
      matches the selection, or the tab count when none does. */
  method FindSelectedIndex(tabs: seq<Tab>, selectedTab: Option<string>, fold: string -> string)
    returns (idx: nat)
    ensures idx <= |tabs|
    ensures forall j :: 0 <= j < idx ==> !Matches(tabs[j].id, selectedTab, fold)
    ensures idx < |tabs| ==> Matches(tabs[idx].id, selectedTab, fold)
    ensures (forall j :: 0 <= j < |tabs| ==> !Matches(tabs[j].id, selectedTab, fold)) ==> idx == |tabs|
    ensures selectedTab.None? ==> idx == |tabs|
  {
    idx := 0;
    while idx < |tabs|
      invariant idx <= |tabs|
      invariant forall j :: 0 <= j < idx ==> !Matches(tabs[j].id, selectedTab, fold)
    {
      if Matches(tabs[idx].id, selectedTab, fold) {
        break;
      }
      idx := idx + 1;
    }
  }

  /** The data list that shows the tabs. */
  class DataList {
    var selectedIndex: int
    var dataSource: seq<Tab>

    constructor ()
      ensures selectedIndex == -1 && dataSource == []
    {
      selectedIndex := -1;
      dataSource := [];
    }
  }

  class DeletedUserTabs {
    var selectedTab: Option<string>
    const dlTabs: DataList

    /** Sets up the control as the page framework hands it over: no tab
        selected yet, and the given data list. */
    constructor (dlTabs: DataList)
      ensures this.dlTabs == dlTabs && selectedTab.None?
    {
      this.dlTabs := dlTabs;
      selectedTab := None;
    }

    /** Builds the tab list, binds it and highlights the selected tab. */
    method BindTabs(quotaPasses: Quota -> bool, userAccountType: ExchangeAccountType, fold: string -> string)
      returns (lookups: seq<Lookup>)
      modifies dlTabs
      ensures selectedTab == old(selectedTab)
      ensures var tabs := dlTabs.dataSource;
        && 1 <= |tabs| <= 2
        && tabs[0] == Tab(GeneralTabId, "Tab.General")
        && (|tabs| == 2 <==> MemberOfAllowed(quotaPasses, userAccountType))
        && (|tabs| == 2 ==> tabs[1] == Tab(MemberOfTabId, "Tab.MemberOf"))
        && 0 <= dlTabs.selectedIndex <= |tabs|
        && (forall j :: 0 <= j < dlTabs.selectedIndex ==> !Matches(tabs[j].id, selectedTab, fold))
        && (dlTabs.selectedIndex < |tabs| ==> Matches(tabs[dlTabs.selectedIndex].id, selectedTab, fold))
      ensures lookups ==
        if quotaPasses(OrganizationSecurityGroups) then [QuotaCheck(OrganizationSecurityGroups)]
        else [QuotaCheck(OrganizationSecurityGroups), UserGeneralSettings, QuotaCheck(Exchange2007DistributionLists)]
      ensures UserGeneralSettings in lookups <==> !quotaPasses(OrganizationSecurityGroups)
    {
      var tabsList;
      tabsList, lookups := BuildTabs(quotaPasses, userAccountType);
      var idx := FindSelectedIndex(tabsList, selectedTab, fold);
      dlTabs.selectedIndex := idx;
      dlTabs.dataSource := tabsList;
    }
  }
}
