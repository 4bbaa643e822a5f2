/** The dashboard page: which panels the session's state and role unlock. */
module Dashboard {
  import opened Wrappers
  import Records
  import Sidebar

  datatype Panel =
    | FarmerAnalytics | ProductProfitAnalysis | FarmerTransactions | FarmerHistory
    | FarmerStockSold | FarmerMostSoldCategory | FarmerMarketPriceGraph
    | RetailerAnalytics | PurchaseAnalysis | RetailerHistory | RetailerStockBought
    | RetailerMarketPriceGraph

  const FarmerPanels: seq<Panel> := [FarmerAnalytics, ProductProfitAnalysis, FarmerTransactions,
    FarmerHistory, FarmerStockSold, FarmerMostSoldCategory, FarmerMarketPriceGraph]
  const RetailerPanels: seq<Panel> := [RetailerAnalytics, PurchaseAnalysis, RetailerHistory,
    RetailerStockBought, RetailerMarketPriceGraph]

  datatype View = LoginPrompt | Panels(panels: seq<Panel>) | RoleNotRecognized

  predicate IsFarmerPanel(p: Panel)
  {
    p.FarmerAnalytics? || p.ProductProfitAnalysis? || p.FarmerTransactions? || p.FarmerHistory? ||
    p.FarmerStockSold? || p.FarmerMostSoldCategory? || p.FarmerMarketPriceGraph?
  }

  /** Logged out: the login prompt whatever the role. Logged in: the seven
      farmer panels or the five retailer panels, in page order, and the
      "role not recognized" notice for any other role. A role never sees
      the other role's panels. */
  function DashboardView(isLoggedIn: bool, role: Option<string>): (v: View)
    ensures !isLoggedIn <==> v == LoginPrompt
    ensures isLoggedIn && role == Some(Records.FarmerRole) <==> v == Panels(FarmerPanels)
    ensures isLoggedIn && role == Some(Records.RetailerRole) <==> v == Panels(RetailerPanels)
    ensures v == RoleNotRecognized <==> isLoggedIn && role != Some(Records.FarmerRole) && role != Some(Records.RetailerRole)
    ensures v.Panels? && role == Some(Records.FarmerRole) ==> forall p :: p in v.panels ==> IsFarmerPanel(p)
    ensures v.Panels? && role == Some(Records.RetailerRole) ==> forall p :: p in v.panels ==> !IsFarmerPanel(p)
  {
    if !isLoggedIn then LoginPrompt
    else if role == Some(Records.FarmerRole) then Panels(FarmerPanels)
    else if role == Some(Records.RetailerRole) then Panels(RetailerPanels)
    else RoleNotRecognized
  }

  /** The sidebar and the dashboard agree: the sidebar offers a third,
      role-specific link exactly when the dashboard shows panels. */
  lemma SidebarAgreesWithDashboard(isLoggedIn: bool, role: Option<string>)
    ensures (|Sidebar.NavItems(isLoggedIn, role)| == 3 && isLoggedIn) <==> DashboardView(isLoggedIn, role).Panels?
  {
    if isLoggedIn {
      var items := Sidebar.LoggedInNavItems(role);
      if role != Some(Records.FarmerRole) && role != Some(Records.RetailerRole) {
        assert items == [Sidebar.Profile, Sidebar.DashboardItem];
      }
    }
  }
}
