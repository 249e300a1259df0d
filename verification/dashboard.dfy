/** The landing page: the module cards a user may open, their subtitles, the quick stats and the alert banners. */
module Dashboard {
  import opened Options
  import opened Text
  import opened Seqs
  import opened Domain
  import opened AuthContext

  /** The dashboard figures; every one of them is a count. */
  datatype DashboardStats = DashboardStats(
    totalAssets: nat, activeAssets: nat, pendingPM: nat, overduePM: nat, openBreakdowns: nat,
    criticalBreakdowns: nat, lowStockItems: nat, totalSpares: nat, activeMeters: nat, kpiAlerts: nat)

  datatype ModuleCard = ModuleCard(title: string, path: string, value: string, subtitle: string,
                                   permission: Option<string>)

  /** `count > 0 ? `${count} what` : okText` */
  function CountOrOk(count: nat, what: string, okText: string): string {
    if count > 0 then NatToString(count) + " " + what else okText
  }

  /** `moduleCards` */
  function ModuleCards(stats: DashboardStats): seq<ModuleCard> {
    [ ModuleCard("Assets Register", "/assets", NatToString(stats.totalAssets),
                 NatToString(stats.activeAssets) + " active", Some("view_assets")),
      ModuleCard("Preventive Maintenance", "/pm", NatToString(stats.pendingPM),
                 CountOrOk(stats.overduePM, "overdue", "All on schedule"), Some("view_pm")),
      ModuleCard("Breakdown Maintenance", "/breakdowns", NatToString(stats.openBreakdowns),
                 CountOrOk(stats.criticalBreakdowns, "critical", "No critical issues"), Some("view_breakdowns")),
      ModuleCard("Spare Inventory", "/spares", NatToString(stats.totalSpares),
                 CountOrOk(stats.lowStockItems, "low stock", "Stock levels OK"), Some("view_spares")),
      ModuleCard("Utilities Monitoring", "/utilities", NatToString(stats.activeMeters), "Active meters",
                 Some("view_utilities")),
      ModuleCard("KPI Monitoring", "/kpi", NatToString(stats.kpiAlerts), "This quarter", Some("view_kpi")),
      ModuleCard("Analytics", "/analytics", "—", "Coming soon", Some("view_analytics")) ]
  }

  /** The subtitle opens with the count exactly when it is positive; otherwise it is the fixed text. */
  lemma SubtitleShowsCountWhenPositive(count: nat, what: string, okText: string)
    requires okText != [] && !IsDigit(okText[0])
    ensures var s := CountOrOk(count, what, okText);
      && (IsDigit(s[0]) <==> count > 0)
      && (count > 0 ==> StartsWith(s, NatToString(count)) && s[|NatToString(count)|] == ' ')
      && (count == 0 ==> s == okText)
  {
  }

  /** The three counting subtitles follow that rule. */
  lemma CardSubtitles(stats: DashboardStats)
    ensures var cards := ModuleCards(stats);
      && (IsDigit(cards[1].subtitle[0]) <==> stats.overduePM > 0)
      && (IsDigit(cards[2].subtitle[0]) <==> stats.criticalBreakdowns > 0)
      && (IsDigit(cards[3].subtitle[0]) <==> stats.lowStockItems > 0)
      && (stats.overduePM == 0 ==> cards[1].subtitle == "All on schedule")
      && (stats.criticalBreakdowns == 0 ==> cards[2].subtitle == "No critical issues")
      && (stats.lowStockItems == 0 ==> cards[3].subtitle == "Stock levels OK")
  {
    SubtitleShowsCountWhenPositive(stats.overduePM, "overdue", "All on schedule");
    SubtitleShowsCountWhenPositive(stats.criticalBreakdowns, "critical", "No critical issues");
    SubtitleShowsCountWhenPositive(stats.lowStockItems, "low stock", "Stock levels OK");
  }

  /** `!card.permission || hasPermission(card.permission)` */
  predicate CardVisible(user: Option<User>, perms: RolePermissions, card: ModuleCard) {
    !Truthy(card.permission) || HasPermission(user, perms, card.permission.value)
  }

  /** `filteredModules` */
  function FilteredModules(user: Option<User>, perms: RolePermissions, stats: DashboardStats): (r: seq<ModuleCard>)
    ensures forall card :: card in r <==> card in ModuleCards(stats) && CardVisible(user, perms, card)
  {
    Filter(ModuleCards(stats), card => CardVisible(user, perms, card))
  }

  /** Every card requires a permission, so a signed-out visitor sees none, and one holding all seven sees them all in order. */
  lemma ModuleVisibility(user: Option<User>, perms: RolePermissions, stats: DashboardStats)
    ensures user.None? ==> FilteredModules(user, perms, stats) == []
    ensures (forall card :: card in ModuleCards(stats) ==> HasPermission(user, perms, card.permission.value)) ==>
      FilteredModules(user, perms, stats) == ModuleCards(stats)
  {
    var cards := ModuleCards(stats);
    CardsNeedPermissions(stats);
    assert forall card :: card in cards ==> Truthy(card.permission);
    FilterAllOrNone(cards, card => CardVisible(user, perms, card));
  }

  lemma CardsNeedPermissions(stats: DashboardStats)
    ensures forall j :: 0 <= j < |ModuleCards(stats)| ==> Truthy(ModuleCards(stats)[j].permission)
  {
  }

  /** One of the three alert banners. */
  datatype Banner = Banner(kind: string, message: string, action: string, target: string)

  /** The banners of the alerts section, in page order. */
  function Alerts(stats: DashboardStats): seq<Banner> {
    (if stats.overduePM > 0 then
      [Banner("warning", NatToString(stats.overduePM) + " preventive maintenance tasks are overdue", "View PM", "/pm")]
     else [])
    + (if stats.criticalBreakdowns > 0 then
      [Banner("critical", NatToString(stats.criticalBreakdowns) + " critical breakdowns require immediate attention",
              "View Breakdowns", "/breakdowns")]
     else [])
    + (if stats.lowStockItems > 0 then
      [Banner("info", NatToString(stats.lowStockItems) + " spare parts are below reorder level", "View Inventory",
              "/spares")]
     else [])
  }

  /** The condition guarding the alerts section. */
  predicate ShowAlertsSection(stats: DashboardStats) {
    stats.overduePM > 0 || stats.criticalBreakdowns > 0 || stats.lowStockItems > 0
  }

  /** The section appears exactly when it has a banner, and each banner appears exactly when its own count is positive. */
  lemma AlertRules(stats: DashboardStats)
    ensures ShowAlertsSection(stats) <==> Alerts(stats) != []
    ensures (exists b :: b in Alerts(stats) && b.target == "/pm") <==> stats.overduePM > 0
    ensures (exists b :: b in Alerts(stats) && b.target == "/breakdowns") <==> stats.criticalBreakdowns > 0
    ensures (exists b :: b in Alerts(stats) && b.target == "/spares") <==> stats.lowStockItems > 0
    ensures |Alerts(stats)| <= 3
  {
    var a := Alerts(stats);
    if stats.overduePM > 0 {
      assert a[0].target == "/pm";
    }
    if stats.criticalBreakdowns > 0 {
      assert a[if stats.overduePM > 0 then 1 else 0].target == "/breakdowns";
    }
    if stats.lowStockItems > 0 {
      assert a[|a| - 1].target == "/spares";
    }
  }

  /** A quick-stat tile. */
  datatype QuickStat = QuickStat(caption: string, value: string, trend: string, trendUp: bool)

  /** The "Open Issues" tile. */
  function OpenIssues(stats: DashboardStats): QuickStat {
    QuickStat("Open Issues", NatToString(stats.openBreakdowns),
              CountOrOk(stats.criticalBreakdowns, "critical", "None critical"), stats.criticalBreakdowns == 0)
  }

  /** The quick stats are rendered only for users holding `view_kpi`. */
  predicate ShowQuickStats(user: Option<User>, perms: RolePermissions) {
    HasPermission(user, perms, "view_kpi")
  }

  /** The tile's trend points up exactly when no breakdown is critical, which is also when its text names no count. */
  lemma OpenIssuesTrend(stats: DashboardStats)
    ensures OpenIssues(stats).trendUp <==> stats.criticalBreakdowns == 0
    ensures OpenIssues(stats).trendUp <==> OpenIssues(stats).trend == "None critical"
  {
    SubtitleShowsCountWhenPositive(stats.criticalBreakdowns, "critical", "None critical");
  }
}
