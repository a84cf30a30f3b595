/** `app/services/client_auth_service.py`: SHA-256 password checks against a tenant's own
    `client_users` table and the dashboard counters of a tenant database. Every failure
    inside either call (an unknown database, a missing table, a date outside Python's
    range) is caught: login yields None and the dashboard yields the empty dictionary,
    modelled as None. */
module ClientAuthService {
  import opened Wrappers
  import opened Config
  import opened Dates
  import opened Rows
  import opened TenantSchema
  import opened MainDb
  import opened Security
  import UserService

  /** `hash_password`: the hex SHA-256 digest of the UTF-8 password. */
  function HashPassword(prims: Primitives, password: string): string {
    prims.sha256Hex(password)
  }

  /** `verify_password`. */
  predicate VerifyPassword(prims: Primitives, plain: string, hashed: string) {
    HashPassword(prims, plain) == hashed
  }

  predicate MatchesLogin(u: TenantUser, login: string) {
    u.email == login || u.login == login
  }

  /** `authenticate_client_user`: the first row whose email or login equals `login`; its
      hash (NULL or empty read as ""); `is_active` must be true. */
  function AuthenticateClientUser(dbs: map<string, TenantDb>, databaseName: string, prims: Primitives,
                                  login: string, password: string): (r: Option<TenantUser>)
    ensures r.Some? <==>
              databaseName in dbs && ClientUsersTable in dbs[databaseName].tables
              && var users := dbs[databaseName].users;
                 var k := FirstIndex(users, (u: TenantUser) => MatchesLogin(u, login));
                 k.Some? && VerifyPassword(prims, password, users[k.value].hashedPassword.GetOr(""))
                 && IsTrue(users[k.value].isActive)
    ensures r.Some? ==> r.value in dbs[databaseName].users && MatchesLogin(r.value, login)
                        && r.value.isActive == Some(true)
                        && (forall j :: 0 <= j < |dbs[databaseName].users| && MatchesLogin(dbs[databaseName].users[j], login)
                              ==> r.value == dbs[databaseName].users[j] || exists i :: 0 <= i < j && dbs[databaseName].users[i] == r.value)
  {
    if databaseName !in dbs || ClientUsersTable !in dbs[databaseName].tables then None
    else
      var users := dbs[databaseName].users;
      match FirstIndex(users, (u: TenantUser) => MatchesLogin(u, login))
      case None => None
      case Some(k) =>
        if !VerifyPassword(prims, password, users[k].hashedPassword.GetOr("")) then None
        else if !IsTrue(users[k].isActive) then None
        else Some(users[k])
  }

  /** A row the directory mirrored into a tenant carries the directory's bcrypt hash, so
      with a SHA-256 hex digest (64 characters) and bcrypt hashes (60 characters) it never
      passes this check, whatever password is tried. */
  lemma MirroredUserFailsShaCheck(db: TenantDb, u: ClientUser, prims: Primitives, password: string,
                                  plain: string, now: DateTime)
    requires forall p :: |prims.sha256Hex(p)| == 64
    requires forall q :: |prims.bcryptHash(q)| == 60
    requires u.hashedPassword == GetPasswordHash(prims, password)
    ensures var m := UserService.MirrorInsert(db, u, now).users[|db.users|];
            !VerifyPassword(prims, plain, m.hashedPassword.GetOr(""))
  {
    var m := UserService.MirrorInsert(db, u, now).users[|db.users|];
    assert m.hashedPassword.GetOr("") == prims.bcryptHash(BcryptInput(password));
    assert |HashPassword(prims, plain)| == 64;
  }

  // ---------- dashboard ----------

  datatype Dashboard = Dashboard(
    clientsCount: nat, reportsCount: nat, overdueReports: nat, activeReports: nat,
    newClientsCount: nat, expiringSignaturesCount: nat, calendarEvents: nat)

  const Overdue := "просрочен"
  const InProgress := "в работе"
  const Prepared := "подготовлен"

  predicate IsOverdue(r: Report) {
    r.status == Some(Overdue)
  }

  predicate IsActiveReport(r: Report) {
    r.status == Some(InProgress) || r.status == Some(Prepared)
  }

  /** `created_at >= week_ago`; a NULL timestamp never compares true. */
  predicate CreatedSince(c: Client, day: int) {
    c.createdAt.Some? && ValidDate(c.createdAt.value.date) && AtOrAfter(c.createdAt.value, day)
  }

  /** `end_date >= today and end_date <= today + 30 days`. */
  predicate EndsWithin(s: DigitalSignature, first: int, last: int) {
    s.endDate.Some? && ValidDate(s.endDate.value.date) && AtOrAfter(s.endDate.value, first) && AtOrBefore(s.endDate.value, last)
  }

  /** `date >= month_start and date < month_end`. */
  predicate InMonthWindow(e: CalendarEvent, start: int, end: int) {
    ValidDate(e.date.date) && AtOrAfter(e.date, start) && StrictlyBefore(e.date, end)
  }

  const DashboardTables: set<Table> := {ClientsTable, ReportsTable, SignaturesTable, EventsTable}

  /** `get_client_dashboard_data`. It fails (the empty dictionary) when the database or
      one of its four tables is missing, or when `today - 7 days`, `today + 30 days` or the
      first of next month falls outside years 1..9999. */
  function GetClientDashboardData(dbs: map<string, TenantDb>, databaseName: string, today: Date): (r: Option<Dashboard>)
    requires ValidDate(today)
    ensures r.None? <==>
              databaseName !in dbs || !(DashboardTables <= dbs[databaseName].tables)
              || DayNumber(today) - 7 < 1 || DayNumber(today) + 30 > MaxDay
              || (today.month == 12 && today.year == MaxYear)
    ensures r.Some? ==> r.value.overdueReports + r.value.activeReports <= r.value.reportsCount
    ensures r.Some? ==> r.value.clientsCount == |dbs[databaseName].clients| && r.value.reportsCount == |dbs[databaseName].reports|
    ensures r.Some? ==> r.value.newClientsCount <= r.value.clientsCount
  {
    if databaseName !in dbs || !(DashboardTables <= dbs[databaseName].tables) then None
    else
      var db := dbs[databaseName];
      match (AddDays(today, -7), AddDays(today, 30), MonthEnd(today))
      case (Some(weekAgo), Some(last), Some(monthEnd)) =>
        var first := DayNumber(today);
        var start := DayNumber(MonthStart(today));
        var end := DayNumber(monthEnd);
        CountDisjoint(db.reports, IsOverdue, IsActiveReport);
        Some(Dashboard(
          |db.clients|,
          |db.reports|,
          Count(db.reports, IsOverdue),
          Count(db.reports, IsActiveReport),
          Count(db.clients, (c: Client) => CreatedSince(c, weekAgo)),
          Count(db.signatures, (s: DigitalSignature) => EndsWithin(s, first, last)),
          Count(db.events, (e: CalendarEvent) => InMonthWindow(e, start, end))))
      case _ => None
  }

  /** The counters of a successful call are exactly these filters. */
  lemma DashboardCounts(dbs: map<string, TenantDb>, databaseName: string, today: Date)
    requires ValidDate(today) && GetClientDashboardData(dbs, databaseName, today).Some?
    ensures var r := GetClientDashboardData(dbs, databaseName, today).value;
            var db := dbs[databaseName];
            var n := DayNumber(today);
            r.overdueReports == |Filter(db.reports, IsOverdue)|
            && r.activeReports == |Filter(db.reports, IsActiveReport)|
            && r.newClientsCount == |Filter(db.clients, (c: Client) => CreatedSince(c, n - 7))|
            && r.expiringSignaturesCount == |Filter(db.signatures, (s: DigitalSignature) => EndsWithin(s, n, n + 30))|
            && r.calendarEvents == |Filter(db.events, (e: CalendarEvent) =>
                                     InMonthWindow(e, DayNumber(MonthStart(today)), DayNumber(MonthEnd(today).value)))|
  {
    var db := dbs[databaseName];
    var n := DayNumber(today);
    FilterCount(db.reports, IsOverdue);
    FilterCount(db.reports, IsActiveReport);
    FilterCount(db.clients, (c: Client) => CreatedSince(c, n - 7));
    FilterCount(db.signatures, (s: DigitalSignature) => EndsWithin(s, n, n + 30));
    FilterCount(db.events, (e: CalendarEvent) =>
      InMonthWindow(e, DayNumber(MonthStart(today)), DayNumber(MonthEnd(today).value)));
  }

  /** The signature window at its edges: an end at midnight 30 days out counts, any later
      instant does not, an end yesterday does not, and any time today does. */
  lemma SignatureWindowEdges(s: DigitalSignature, today: Date)
    requires ValidDate(today) && s.endDate.Some? && ValidDate(s.endDate.value.date)
    ensures var n := DayNumber(today);
            var t := s.endDate.value;
            (DayNumber(t.date) == n + 30 && IsMidnight(t) ==> EndsWithin(s, n, n + 30))
            && (DayNumber(t.date) == n + 30 && !IsMidnight(t) ==> !EndsWithin(s, n, n + 30))
            && (DayNumber(t.date) > n + 30 ==> !EndsWithin(s, n, n + 30))
            && (DayNumber(t.date) < n ==> !EndsWithin(s, n, n + 30))
            && (DayNumber(t.date) == n ==> EndsWithin(s, n, n + 30))
  {
  }

  /** The event window is exactly the current calendar month. */
  lemma EventWindowIsCurrentMonth(e: CalendarEvent, today: Date)
    requires ValidDate(today) && ValidDate(e.date.date) && MonthEnd(today).Some?
    ensures InMonthWindow(e, DayNumber(MonthStart(today)), DayNumber(MonthEnd(today).value))
            <==> e.date.date.year == today.year && e.date.date.month == today.month
  {
    MonthWindowExact(today, e.date.date);
  }

  /** A client counts as new exactly when its creation date is at most seven days ago,
      whatever the time of day. */
  lemma NewClientWindow(c: Client, today: Date)
    requires ValidDate(today) && c.createdAt.Some? && ValidDate(c.createdAt.value.date)
    ensures CreatedSince(c, DayNumber(today) - 7) <==> DayNumber(today) - DayNumber(c.createdAt.value.date) <= 7
  {
  }
}
