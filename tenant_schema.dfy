/** `app/models/client_template.py`: the eleven tables of every tenant database, one
    datatype per entity (nullable columns are Option, columns declared `nullable=False` are
    plain), the column defaults applied on insert, and the foreign-key delete rules. A
    tenant database is the set of tables that exist in it and the rows of each. */
module TenantSchema {
  import opened Wrappers
  import opened Dates
  import opened Rows

  datatype Table =
    | ClientUsersTable | ClientsTable | AccessTable | SignaturesTable | SettingsTable
    | PeriodsTable | TemplatesTable | ReportsTable | HistoryTable | HandbookTable | EventsTable

  /** `__tablename__` of each entity. */
  function TableName(t: Table): string {
    match t
    case ClientUsersTable => "client_users"
    case ClientsTable => "clients"
    case AccessTable => "client_user_client_access"
    case SignaturesTable => "digital_signatures"
    case SettingsTable => "company_settings"
    case PeriodsTable => "report_periods"
    case TemplatesTable => "report_templates"
    case ReportsTable => "reports"
    case HistoryTable => "client_report_history"
    case HandbookTable => "calendar_handbook"
    case EventsTable => "calendar_events"
  }

  /** `ClientBase.metadata.tables`. */
  const AllTables: set<Table> :=
    {ClientUsersTable, ClientsTable, AccessTable, SignaturesTable, SettingsTable,
     PeriodsTable, TemplatesTable, ReportsTable, HistoryTable, HandbookTable, EventsTable}

  const TenantTableNames: set<string> :=
    {"client_users", "clients", "client_user_client_access", "digital_signatures",
     "company_settings", "report_periods", "report_templates", "reports",
     "client_report_history", "calendar_handbook", "calendar_events"}

  /** Reads a table name back; the partner of `TableName`. */
  function TableFromName(n: string): Option<Table> {
    if n == "client_users" then Some(ClientUsersTable)
    else if n == "clients" then Some(ClientsTable)
    else if n == "client_user_client_access" then Some(AccessTable)
    else if n == "digital_signatures" then Some(SignaturesTable)
    else if n == "company_settings" then Some(SettingsTable)
    else if n == "report_periods" then Some(PeriodsTable)
    else if n == "report_templates" then Some(TemplatesTable)
    else if n == "reports" then Some(ReportsTable)
    else if n == "client_report_history" then Some(HistoryTable)
    else if n == "calendar_handbook" then Some(HandbookTable)
    else if n == "calendar_events" then Some(EventsTable)
    else None
  }

  /** Every table has its own name, and the name identifies the table. */
  lemma TableNameRoundTrip(t: Table)
    ensures TableFromName(TableName(t)) == Some(t)
  {
  }

  lemma TableNameInjective(a: Table, b: Table)
    requires TableName(a) == TableName(b)
    ensures a == b
  {
    TableNameRoundTrip(a);
    TableNameRoundTrip(b);
  }

  /** The tenant schema is exactly the eleven named tables. */
  lemma SchemaIsElevenTables()
    ensures forall t: Table :: t in AllTables
    ensures (set t | t in AllTables :: TableName(t)) == TenantTableNames
  {
    forall t: Table ensures t in AllTables {
      match t
      case ClientUsersTable => case ClientsTable => case AccessTable => case SignaturesTable =>
      case SettingsTable => case PeriodsTable => case TemplatesTable => case ReportsTable =>
      case HistoryTable => case HandbookTable => case EventsTable =>
    }
    var names := set t | t in AllTables :: TableName(t);
    forall n | n in TenantTableNames ensures n in names {
      var t := TableFromName(n);
      assert t.Some? && TableName(t.value) == n;
    }
  }

  /** `ClientUser` of the tenant schema (`client_users`). */
  datatype TenantUser = TenantUser(
    id: int, mainUserId: Option<int>, fullName: string, email: string, login: string,
    profileName: Option<string>, hashedPassword: Option<string>, isActive: Option<bool>,
    createdAt: Option<DateTime>, updatedAt: Option<DateTime>)

  /** `Client` (`clients`); `Organization` is another name for it. */
  datatype Client = Client(
    id: int, shortName: Option<string>, fullName: Option<string>, inn: Option<string>,
    kpp: Option<string>, ogrn: Option<string>, address: Option<string>, email: Option<string>,
    phone: Option<string>, isActive: Option<bool>, createdAt: Option<DateTime>,
    updatedAt: Option<DateTime>)

  type Organization = Client

  /** `ClientUserClientAccess` (`client_user_client_access`). */
  datatype Access = Access(
    id: int, userId: int, clientId: int, canViewCalendar: bool,
    createdAt: Option<DateTime>, updatedAt: Option<DateTime>)

  /** `DigitalSignature` (`digital_signatures`). */
  datatype DigitalSignature = DigitalSignature(
    id: int, clientId: int, ownerName: string, certificateNumber: Option<string>,
    startDate: Option<DateTime>, endDate: Option<DateTime>, isActive: Option<bool>,
    createdAt: Option<DateTime>, updatedAt: Option<DateTime>)

  /** `CompanySettings` (`company_settings`). */
  datatype CompanySettings = CompanySettings(
    id: int, companyName: Option<string>, logoPath: Option<string>, currency: Option<string>,
    timezone: Option<string>, fiscalYearStart: Option<string>, reportEmail: Option<string>,
    phone: Option<string>, address: Option<string>, createdAt: Option<DateTime>,
    updatedAt: Option<DateTime>)

  /** `ReportPeriod` (`report_periods`). */
  datatype ReportPeriod = ReportPeriod(
    id: int, name: string, startDate: Option<DateTime>, endDate: Option<DateTime>,
    isClosed: Option<bool>, createdAt: Option<DateTime>)

  /** `ReportTemplate` (`report_templates`). */
  datatype ReportTemplate = ReportTemplate(
    id: int, name: string, description: Option<string>, isActive: Option<bool>,
    createdAt: Option<DateTime>)

  /** `Report` (`reports`). */
  datatype Report = Report(
    id: int, templateId: Option<int>, periodId: Option<int>, clientId: Option<int>,
    createdBy: Option<int>, createdAt: Option<DateTime>, status: Option<string>,
    filePath: Option<string>)

  /** `ClientReportHistory` (`client_report_history`). */
  datatype ReportHistory = ReportHistory(
    id: int, reportId: Option<int>, changedBy: Option<int>, changeType: Option<string>,
    comment: Option<string>, timestamp: Option<DateTime>)

  /** `CalendarHandbook` (`calendar_handbook`). */
  datatype CalendarHandbook = CalendarHandbook(
    id: int, name: string, description: Option<string>, defaultDay: Option<int>,
    defaultMonth: Option<int>, isActive: Option<bool>, createdAt: Option<DateTime>)

  /** `CalendarEvent` (`calendar_events`). */
  datatype CalendarEvent = CalendarEvent(
    id: int, title: string, date: DateTime, clientId: Option<int>, handbookId: Option<int>,
    description: Option<string>, createdAt: Option<DateTime>)

  /** The primary keys the views index and order by. */
  function ClientId(c: Client): int { c.id }
  function ReportId(r: Report): int { r.id }
  function PeriodId(p: ReportPeriod): int { p.id }
  function HandbookId(h: CalendarHandbook): int { h.id }

  /** One tenant database: the tables created in it and their rows. Each table has its own
      IDENTITY counter, starting at 1; `nextUserId` and `nextSettingsId` are the counters of
      `client_users` and `company_settings`, the two tables the modelled code inserts into. */
  datatype TenantDb = TenantDb(
    tables: set<Table>,
    users: seq<TenantUser>, clients: seq<Client>, accesses: seq<Access>,
    signatures: seq<DigitalSignature>, settings: seq<CompanySettings>,
    periods: seq<ReportPeriod>, templates: seq<ReportTemplate>, reports: seq<Report>,
    history: seq<ReportHistory>, handbook: seq<CalendarHandbook>, events: seq<CalendarEvent>,
    nextUserId: nat, nextSettingsId: nat)

  /** What `CREATE DATABASE` leaves: no tables at all. */
  const EmptyDb := TenantDb({}, [], [], [], [], [], [], [], [], [], [], [], 1, 1)

  /** Rows exist only in tables that exist. */
  predicate RowsInTables(db: TenantDb) {
    (ClientUsersTable !in db.tables ==> db.users == [])
    && (ClientsTable !in db.tables ==> db.clients == [])
    && (AccessTable !in db.tables ==> db.accesses == [])
    && (SignaturesTable !in db.tables ==> db.signatures == [])
    && (SettingsTable !in db.tables ==> db.settings == [])
    && (PeriodsTable !in db.tables ==> db.periods == [])
    && (TemplatesTable !in db.tables ==> db.templates == [])
    && (ReportsTable !in db.tables ==> db.reports == [])
    && (HistoryTable !in db.tables ==> db.history == [])
    && (HandbookTable !in db.tables ==> db.handbook == [])
    && (EventsTable !in db.tables ==> db.events == [])
  }

  /** Same rows in every table, whichever tables exist. */
  predicate SameRows(a: TenantDb, b: TenantDb) {
    a.users == b.users && a.clients == b.clients && a.accesses == b.accesses
    && a.signatures == b.signatures && a.settings == b.settings && a.periods == b.periods
    && a.templates == b.templates && a.reports == b.reports && a.history == b.history
    && a.handbook == b.handbook && a.events == b.events
  }

  /** `metadata.create_all(checkfirst=True)`: creates each missing table, empty, and leaves
      existing tables and their rows alone. */
  function CreateAll(db: TenantDb): (r: TenantDb)
    ensures r.tables == db.tables + AllTables && SameRows(r, db)
            && r.nextUserId == db.nextUserId && r.nextSettingsId == db.nextSettingsId
    ensures RowsInTables(r)
  {
    db.(tables := db.tables + AllTables)
  }

  /** A `CompanySettings` row inserted with only `company_name` given: currency "RUB",
      timezone "Europe/Moscow", fiscal year start "01.01", timestamps from the clock and every
      other column NULL. */
  function NewCompanySettings(id: int, companyName: string, now: DateTime): (r: CompanySettings)
    ensures r.id == id && r.companyName == Some(companyName)
    ensures r.currency == Some("RUB") && r.timezone == Some("Europe/Moscow") && r.fiscalYearStart == Some("01.01")
    ensures r.logoPath.None? && r.reportEmail.None? && r.phone.None? && r.address.None?
    ensures r.createdAt == Some(now) && r.updatedAt == Some(now)
  {
    CompanySettings(id, Some(companyName), None, Some("RUB"), Some("Europe/Moscow"), Some("01.01"),
                    None, None, None, Some(now), Some(now))
  }

  /** Appends a settings row, drawing its id from the settings table's own identity counter. */
  function AddSettings(db: TenantDb, companyName: string, now: DateTime): (r: TenantDb)
    ensures r.settings == db.settings + [NewCompanySettings(db.nextSettingsId, companyName, now)]
    ensures r.tables == db.tables && r.nextSettingsId == db.nextSettingsId + 1
    ensures r.(settings := db.settings, nextSettingsId := db.nextSettingsId) == db
  {
    db.(settings := db.settings + [NewCompanySettings(db.nextSettingsId, companyName, now)],
        nextSettingsId := db.nextSettingsId + 1)
  }

  /** A tenant `ClientUser` insert. `is_active` is given explicitly by every caller here;
      the column default True applies only when it is omitted (`isActive` None). */
  function NewTenantUser(id: int, mainUserId: Option<int>, fullName: string, email: string, login: string,
                         hashedPassword: Option<string>, isActive: Option<bool>, now: DateTime): (r: TenantUser)
    ensures r.id == id && r.mainUserId == mainUserId && r.fullName == fullName && r.email == email && r.login == login
    ensures r.hashedPassword == hashedPassword && r.profileName.None?
    ensures r.isActive == Some(isActive.GetOr(true))
    ensures r.createdAt == Some(now) && r.updatedAt == Some(now)
  {
    TenantUser(id, mainUserId, fullName, email, login, None, hashedPassword,
               Some(isActive.GetOr(true)), Some(now), Some(now))
  }

  /** The delete rules a foreign key can carry. */
  datatype OnDelete = Cascade | NoAction

  datatype DbError = ForeignKeyViolation(table: Table)

  /** Deleting a `Client`: access rows and signatures go with it (ON DELETE CASCADE);
      reports and calendar events that still point at it block the delete (no rule). */
  function DeleteClient(db: TenantDb, id: int): (r: Result<TenantDb, DbError>)
    ensures r.Err? <==> (exists i :: 0 <= i < |db.reports| && db.reports[i].clientId == Some(id))
                        || (exists i :: 0 <= i < |db.events| && db.events[i].clientId == Some(id))
    ensures r.Ok? ==> (forall c :: c in r.value.clients <==> c in db.clients && c.id != id)
    ensures r.Ok? ==> (forall a :: a in r.value.accesses <==> a in db.accesses && a.clientId != id)
    ensures r.Ok? ==> (forall s :: s in r.value.signatures <==> s in db.signatures && s.clientId != id)
    ensures r.Ok? ==> r.value.(clients := db.clients, accesses := db.accesses, signatures := db.signatures) == db
  {
    if (exists i :: 0 <= i < |db.reports| && db.reports[i].clientId == Some(id)) then Err(ForeignKeyViolation(ReportsTable))
    else if (exists i :: 0 <= i < |db.events| && db.events[i].clientId == Some(id)) then Err(ForeignKeyViolation(EventsTable))
    else Ok(db.(clients := Filter(db.clients, (c: Client) => c.id != id),
                accesses := Filter(db.accesses, (a: Access) => a.clientId != id),
                signatures := Filter(db.signatures, (s: DigitalSignature) => s.clientId != id)))
  }

  /** Deleting a tenant `ClientUser`: its access rows go with it (ORM `delete-orphan` and
      ON DELETE CASCADE); reports it created and history rows it changed block the delete. */
  function DeleteTenantUser(db: TenantDb, id: int): (r: Result<TenantDb, DbError>)
    ensures r.Err? <==> (exists i :: 0 <= i < |db.reports| && db.reports[i].createdBy == Some(id))
                        || (exists i :: 0 <= i < |db.history| && db.history[i].changedBy == Some(id))
    ensures r.Ok? ==> (forall u :: u in r.value.users <==> u in db.users && u.id != id)
    ensures r.Ok? ==> (forall a :: a in r.value.accesses <==> a in db.accesses && a.userId != id)
    ensures r.Ok? ==> r.value.(users := db.users, accesses := db.accesses) == db
  {
    if (exists i :: 0 <= i < |db.reports| && db.reports[i].createdBy == Some(id)) then Err(ForeignKeyViolation(ReportsTable))
    else if (exists i :: 0 <= i < |db.history| && db.history[i].changedBy == Some(id)) then Err(ForeignKeyViolation(HistoryTable))
    else Ok(db.(users := Filter(db.users, (u: TenantUser) => u.id != id),
                accesses := Filter(db.accesses, (a: Access) => a.userId != id)))
  }

  /** Deleting a `Report`: its history rows go with it (ON DELETE CASCADE); nothing else
      refers to reports. */
  function DeleteReport(db: TenantDb, id: int): (r: TenantDb)
    ensures forall x :: x in r.reports <==> x in db.reports && x.id != id
    ensures forall h :: h in r.history <==> h in db.history && h.reportId != Some(id)
    ensures r.(reports := db.reports, history := db.history) == db
  {
    db.(reports := Filter(db.reports, (x: Report) => x.id != id),
        history := Filter(db.history, (h: ReportHistory) => h.reportId != Some(id)))
  }

  /** After a successful cascade no access row or signature refers to the deleted client. */
  lemma DeleteClientLeavesNoDangling(db: TenantDb, id: int)
    requires DeleteClient(db, id).Ok?
    ensures forall i :: 0 <= i < |DeleteClient(db, id).value.accesses| ==> DeleteClient(db, id).value.accesses[i].clientId != id
    ensures forall i :: 0 <= i < |DeleteClient(db, id).value.signatures| ==> DeleteClient(db, id).value.signatures[i].clientId != id
  {
    var r := DeleteClient(db, id).value;
    forall i | 0 <= i < |r.accesses| ensures r.accesses[i].clientId != id {
      assert r.accesses[i] in r.accesses;
    }
    forall i | 0 <= i < |r.signatures| ensures r.signatures[i].clientId != id {
      assert r.signatures[i] in r.signatures;
    }
  }
}
