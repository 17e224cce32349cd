/** The home page's tab shell (app/page.tsx:14-15, 91-199): one mutable
    tab id and `renderContent`, which picks the view to mount for it. */
module Page {
  import opened Common

  /** The five views `renderContent` can mount. */
  datatype View = DashboardView | OffersView | SalesView | InventoryView | MarketingView

  /** The tab id under which each view is reached. */
  function TabId(view: View): string
  {
    match view
    case DashboardView => "dashboard"
    case OffersView => "offers"
    case SalesView => "sales"
    case InventoryView => "inventory"
    case MarketingView => "marketing"
  }

  const TabIds: seq<string> := ["dashboard", "offers", "sales", "inventory", "marketing"]

  /** The tab the page opens on (app/page.tsx:15). */
  const InitialTab: string := "dashboard"

  /** The `switch (activeTab)` of `renderContent`: one view for each of the
      five ids, `null` for every other string. */
  function RenderContent(tab: string): (r: Option<View>)
    ensures r.Some? <==> tab in TabIds
    ensures r.Some? ==> TabId(r.value) == tab
  {
    if tab == "dashboard" then Some(DashboardView)
    else if tab == "offers" then Some(OffersView)
    else if tab == "sales" then Some(SalesView)
    else if tab == "inventory" then Some(InventoryView)
    else if tab == "marketing" then Some(MarketingView)
    else None
  }

  /** Each view is mounted by its own id and by no other: the dispatch and
      `TabId` are inverse to each other. */
  lemma RenderContentInverse(tab: string, view: View)
    ensures RenderContent(TabId(view)) == Some(view)
    ensures RenderContent(tab) == Some(view) <==> tab == TabId(view)
  {
  }

  /** The dashboard's four quick-action buttons (app/page.tsx:120, 127, 134,
      141) and the tabs they switch to. */
  const QuickActionTabs: seq<string> := ["sales", "inventory", "offers", "marketing"]

  /** Every quick action leads to a view, and away from the dashboard. */
  lemma QuickActionsLeaveDashboard(i: nat)
    requires i < |QuickActionTabs|
    ensures RenderContent(QuickActionTabs[i]).Some?
    ensures RenderContent(QuickActionTabs[i]) != Some(DashboardView)
  {
  }

  /** The `Home` component's state. */
  class Home {
    var activeTab: string

    constructor ()
      ensures activeTab == InitialTab
      ensures Content() == Some(DashboardView)
    {
      activeTab := InitialTab;
    }

    /** What `renderContent()` returns in the current state. */
    function Content(): Option<View>
      reads this
    {
      RenderContent(activeTab)
    }

    /** `setActiveTab`, as the navigation and the quick actions call it. */
    method SetActiveTab(tab: string)
      modifies this
      ensures activeTab == tab
      ensures Content().Some? <==> tab in TabIds
    {
      activeTab := tab;
    }
  }
}
