/** `app/routes/client_dashboard.py`: the tenant dashboard page, showing the ten newest
    reports, the ten newest handbook rows and the number of counterparties. */
module ClientDashboard {
  import opened Wrappers
  import opened Dates
  import opened Http
  import opened Rows
  import opened TenantSchema
  import opened MainDb
  import opened ClientDbManager
  import opened ClientUtils

  const DashboardLimit := 10

  /** The three values the tenant session loads. */
  datatype DashboardView = DashboardView(reports: seq<Report>, calendar: seq<CalendarHandbook>, clientsCount: nat)

  /** The fallback when any of the three queries fails. */
  const EmptyView := DashboardView([], [], 0)

  /** Whether all three queries go through: the database exists with its reports, handbook
      and clients tables. */
  predicate DashboardLoads(dbs: map<string, TenantDb>, n: string) {
    n in dbs && ReportsTable in dbs[n].tables && HandbookTable in dbs[n].tables && ClientsTable in dbs[n].tables
  }

  /** The session block: the top ten reports and handbook rows by descending id and the
      client count, or the empty view when a query raises. */
  function LoadDashboard(dbs: map<string, TenantDb>, n: string): DashboardView {
    if !DashboardLoads(dbs, n) then EmptyView
    else
      var db := dbs[n];
      DashboardView(TopDesc(db.reports, ReportId, DashboardLimit), TopDesc(db.handbook, HandbookId, DashboardLimit),
                    |db.clients|)
  }

  /** The ten rows (or all, when fewer) with the highest keys, highest first, drawn from
      `rows`: no row left out has a higher key than a row kept. */
  predicate TopTen<T(==)>(top: seq<T>, rows: seq<T>, key: T -> int) {
    |top| == (if |rows| <= DashboardLimit then |rows| else DashboardLimit)
    && SortedDesc(top, key) && multiset(top) <= multiset(rows)
    && forall x, y :: x in rows && x !in top && y in top ==> key(x) <= key(y)
  }

  /** On a failed load all three values are empty; otherwise the lists are the top ten
      reports and handbook rows by id and the count is the number of counterparties. */
  lemma DashboardViewSpec(dbs: map<string, TenantDb>, n: string)
    ensures !DashboardLoads(dbs, n) ==> LoadDashboard(dbs, n) == EmptyView
    ensures DashboardLoads(dbs, n) ==>
              var v := LoadDashboard(dbs, n);
              v.clientsCount == |dbs[n].clients|
              && TopTen(v.reports, dbs[n].reports, ReportId) && TopTen(v.calendar, dbs[n].handbook, HandbookId)
  {
    if DashboardLoads(dbs, n) {
      TopDescSpec(dbs[n].reports, ReportId, DashboardLimit);
      TopDescSpec(dbs[n].handbook, HandbookId, DashboardLimit);
    }
  }

  /** What the template receives as `dashboard_data`. */
  datatype DashboardData = DashboardData(clientsCount: nat, reports: seq<Report>, calendar: seq<CalendarHandbook>,
                                         today: string)

  datatype DashboardPage = DashboardPage(clientId: int, clientName: string, company: HeaderSettings,
                                         data: DashboardData)

  /** `client_dashboard`: 404 without a tenant database; otherwise the loaded view (never an
      error), the header settings, the client name (the company name or "Клиент") and
      today's date. */
  method ClientDashboardPage(d: Directory, server: SqlServer, clientId: int, commitFails: bool, now: DateTime,
                             clock: Option<Date>) returns (r: Result<DashboardPage, HttpError>)
    requires clock.Some? ==> ValidDate(clock.value)
    modifies server
    ensures ProvisionedOrg(d.orgs, clientId).None? ==>
              r == Err(HttpError(NotFound, TenantDatabaseNotFound)) && server.databases == old(server.databases)
    ensures ProvisionedOrg(d.orgs, clientId).Some? ==>
              var org := ProvisionedOrg(d.orgs, clientId).value;
              var v := LoadDashboard(old(server.databases), org.databaseName.value);
              var s := SettingsLookup(d.orgs, old(server.databases), clientId, commitFails, now);
              r == Ok(DashboardPage(clientId, OrElse(org.companyName, FallbackClientName), s.header,
                                    DashboardData(v.clientsCount, v.reports, v.calendar, GetTodayDate(clock))))
              && server.databases == s.dbs
  {
    var found := ProvisionedOrg(d.orgs, clientId);
    if found.None? {
      return Err(HttpError(NotFound, TenantDatabaseNotFound));
    }
    var org := found.value;
    var view := LoadDashboard(server.databases, org.databaseName.value);
    var company := GetClientCompanySettings(d, server, clientId, commitFails, now);
    var client := OrElse(org.companyName, FallbackClientName);
    r := Ok(DashboardPage(clientId, client, company, DashboardData(view.clientsCount, view.reports, view.calendar,
                                                                  GetTodayDate(clock))));
  }
}
