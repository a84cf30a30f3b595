/** `app/routes/calendar.py`: the tenant calendar page, which projects every handbook row
    into an event, looking its client, report and period up in maps built from the tenant
    tables. */
module Calendar {
  import opened Wrappers
  import opened Dates
  import opened Http
  import opened TenantSchema
  import opened MainDb
  import opened ClientDbManager
  import opened ClientUtils

  /** A Python attribute value as the projection passes it on; `ANull` is None. */
  datatype AttrValue = AInt(i: int) | AStr(s: string) | ABool(b: bool) | ATime(t: DateTime) | ANull

  function IntOrNull(v: Option<int>): AttrValue {
    if v.Some? then AInt(v.value) else ANull
  }

  function StrOrNull(v: Option<string>): AttrValue {
    if v.Some? then AStr(v.value) else ANull
  }

  function BoolOrNull(v: Option<bool>): AttrValue {
    if v.Some? then ABool(v.value) else ANull
  }

  function TimeOrNull(v: Option<DateTime>): AttrValue {
    if v.Some? then ATime(v.value) else ANull
  }

  /** The attributes a handbook row has: its seven columns. */
  const HandbookColumns: set<string> :=
    {"id", "name", "description", "default_day", "default_month", "is_active", "created_at"}

  /** `hasattr(h, name)` and `getattr(h, name)` together: None when the row has no such
      attribute. */
  function HandbookAttr(h: CalendarHandbook, name: string): (r: Option<AttrValue>)
    ensures r.Some? <==> name in HandbookColumns
    ensures name == "id" ==> r == Some(AInt(h.id))
  {
    if name == "id" then Some(AInt(h.id))
    else if name == "name" then Some(AStr(h.name))
    else if name == "description" then Some(StrOrNull(h.description))
    else if name == "default_day" then Some(IntOrNull(h.defaultDay))
    else if name == "default_month" then Some(IntOrNull(h.defaultMonth))
    else if name == "is_active" then Some(BoolOrNull(h.isActive))
    else if name == "created_at" then Some(TimeOrNull(h.createdAt))
    else None
  }

  /** `getattr(h, name, None)`. */
  function GetAttr(h: CalendarHandbook, name: string): AttrValue {
    match HandbookAttr(h, name)
    case Some(v) => v
    case None => ANull
  }

  /** The integer key a value finds in a dictionary keyed by ids: Python's `True == 1` and
      `False == 0` make a boolean find 1 or 0; None, text and timestamps find nothing. */
  function DictKey(v: AttrValue): Option<int> {
    match v
    case AInt(k) => Some(k)
    case ABool(b) => Some(if b then 1 else 0)
    case _ => None
  }

  /** `m.get(v)`. */
  function Lookup<T>(m: map<int, T>, v: AttrValue): (r: Option<T>)
    ensures r.Some? <==> DictKey(v).Some? && DictKey(v).value in m
    ensures r.Some? ==> r.value == m[DictKey(v).value]
  {
    match DictKey(v)
    case Some(k) => if k in m then Some(m[k]) else None
    case None => None
  }

  /** `{key(x): x for x in rows}`: a later row with the same key replaces an earlier one. */
  function MapOf<T>(rows: seq<T>, key: T -> int): map<int, T> {
    if rows == [] then map[]
    else MapOf(rows[..|rows| - 1], key)[key(rows[|rows| - 1]) := rows[|rows| - 1]]
  }

  /** The keys of the dictionary are the keys of the rows. */
  lemma {:induction false} MapOfKeys<T>(rows: seq<T>, key: T -> int, k: int)
    ensures k in MapOf(rows, key) <==> exists i :: 0 <= i < |rows| && key(rows[i]) == k
  {
    if rows != [] {
      var init := rows[..|rows| - 1];
      MapOfKeys(init, key, k);
      if exists i :: 0 <= i < |init| && key(init[i]) == k {
        var i :| 0 <= i < |init| && key(init[i]) == k;
        assert rows[i] == init[i];
      }
      if key(rows[|rows| - 1]) != k && exists i :: 0 <= i < |rows| && key(rows[i]) == k {
        var i :| 0 <= i < |rows| && key(rows[i]) == k;
        assert init[i] == rows[i];
      }
    }
  }

  /** Each key maps to the last row carrying it. */
  lemma {:induction false} MapOfLast<T>(rows: seq<T>, key: T -> int, i: nat)
    requires i < |rows|
    requires forall j :: i < j < |rows| ==> key(rows[j]) != key(rows[i])
    ensures key(rows[i]) in MapOf(rows, key) && MapOf(rows, key)[key(rows[i])] == rows[i]
  {
    var init := rows[..|rows| - 1];
    if i < |rows| - 1 {
      assert init[i] == rows[i];
      MapOfLast(init, key, i);
    }
  }

  /** Builds the dictionary of one query's rows, one insertion per row. */
  method IndexById<T>(rows: seq<T>, key: T -> int) returns (m: map<int, T>)
    ensures m == MapOf(rows, key)
  {
    m := map[];
    var i := 0;
    while i < |rows|
      invariant 0 <= i <= |rows|
      invariant m == MapOf(rows[..i], key)
    {
      assert rows[..i + 1][..i] == rows[..i];
      m := m[key(rows[i]) := rows[i]];
      i := i + 1;
    }
    assert rows[..|rows|] == rows;
  }

  /** The attributes tried for the due date, in order. */
  const DueAttrs: seq<string> := ["due_date", "deadline_date", "next_due_date"]

  /** The value of the first attribute in `names` the row has, or None. */
  function FirstPresent(h: CalendarHandbook, names: seq<string>): AttrValue {
    if names == [] then ANull
    else if HandbookAttr(h, names[0]).Some? then HandbookAttr(h, names[0]).value
    else FirstPresent(h, names[1..])
  }

  /** The first attribute present decides; with none present the value is None. */
  lemma {:induction false} FirstPresentSpec(h: CalendarHandbook, names: seq<string>, i: nat)
    requires i < |names| && HandbookAttr(h, names[i]).Some?
    requires forall j :: 0 <= j < i ==> HandbookAttr(h, names[j]).None?
    ensures FirstPresent(h, names) == HandbookAttr(h, names[i]).value
  {
    if i > 0 {
      FirstPresentSpec(h, names[1..], i - 1);
    }
  }

  lemma {:induction false} FirstPresentNone(h: CalendarHandbook, names: seq<string>)
    requires forall j :: 0 <= j < |names| ==> HandbookAttr(h, names[j]).None?
    ensures FirstPresent(h, names) == ANull
  {
    if names != [] {
      FirstPresentNone(h, names[1..]);
    }
  }

  /** The inner loop: the first of `due_date`, `deadline_date`, `next_due_date` the row has. */
  method DueDate(h: CalendarHandbook) returns (due: AttrValue)
    ensures due == FirstPresent(h, DueAttrs)
  {
    due := ANull;
    var i := 0;
    while i < |DueAttrs|
      invariant 0 <= i <= |DueAttrs|
      invariant due == ANull
      invariant FirstPresent(h, DueAttrs) == FirstPresent(h, DueAttrs[i..])
    {
      assert DueAttrs[i..][0] == DueAttrs[i] && DueAttrs[i..][1..] == DueAttrs[i + 1..];
      var present := HandbookAttr(h, DueAttrs[i]);
      if present.Some? {
        due := present.value;
        break;
      }
      i := i + 1;
    }
  }

  /** One calendar event. */
  datatype Event = Event(
    id: int, client: Option<Client>, report: Option<Report>, period: Option<ReportPeriod>,
    dueDate: AttrValue, status: AttrValue, comment: AttrValue)

  /** The event built from one handbook row. */
  function Project(h: CalendarHandbook, clients: map<int, Client>, reports: map<int, Report>,
                   periods: map<int, ReportPeriod>): Event {
    Event(h.id, Lookup(clients, GetAttr(h, "client_id")), Lookup(reports, GetAttr(h, "report_id")),
          Lookup(periods, GetAttr(h, "period_id")), FirstPresent(h, DueAttrs),
          GetAttr(h, "status"), GetAttr(h, "comment"))
  }

  /** A handbook row has none of the attributes the projection asks for besides `id`, so
      every event carries its row's id and nothing else, whatever the maps hold. */
  lemma {:induction false} EventsAreBare(h: CalendarHandbook, clients: map<int, Client>, reports: map<int, Report>,
                                         periods: map<int, ReportPeriod>)
    ensures Project(h, clients, reports, periods) == Event(h.id, None, None, None, ANull, ANull, ANull)
  {
    forall j | 0 <= j < |DueAttrs| ensures HandbookAttr(h, DueAttrs[j]).None? {
      assert DueAttrs[j] !in HandbookColumns;
    }
    FirstPresentNone(h, DueAttrs);
  }

  /** The outer loop: one event per handbook row, in query order. */
  method ProjectEvents(handbook: seq<CalendarHandbook>, clients: map<int, Client>, reports: map<int, Report>,
                       periods: map<int, ReportPeriod>) returns (events: seq<Event>)
    ensures |events| == |handbook|
    ensures forall i :: 0 <= i < |handbook| ==> events[i] == Project(handbook[i], clients, reports, periods)
  {
    events := [];
    var i := 0;
    while i < |handbook|
      invariant 0 <= i <= |handbook|
      invariant |events| == i
      invariant forall k :: 0 <= k < i ==> events[k] == Project(handbook[k], clients, reports, periods)
    {
      var h := handbook[i];
      var due := DueDate(h);
      events := events + [Event(h.id, Lookup(clients, GetAttr(h, "client_id")), Lookup(reports, GetAttr(h, "report_id")),
                                Lookup(periods, GetAttr(h, "period_id")), due,
                                GetAttr(h, "status"), GetAttr(h, "comment"))];
      i := i + 1;
    }
  }

  /** Whether the loads that have no fallback go through: the database exists and has its
      handbook, reports and clients tables. */
  predicate CalendarLoads(dbs: map<string, TenantDb>, n: string) {
    n in dbs && HandbookTable in dbs[n].tables && ReportsTable in dbs[n].tables && ClientsTable in dbs[n].tables
  }

  /** The periods dictionary: empty when that query fails. */
  function PeriodsMap(db: TenantDb): map<int, ReportPeriod> {
    if PeriodsTable in db.tables then MapOf(db.periods, PeriodId) else map[]
  }

  /** The events of one tenant database. */
  function CalendarEvents(db: TenantDb): seq<Event> {
    seq(|db.handbook|, i requires 0 <= i < |db.handbook| =>
      Project(db.handbook[i], MapOf(db.clients, ClientId), MapOf(db.reports, ReportId), PeriodsMap(db)))
  }

  /** The tenant session's part of the page: three dictionaries, then the events. */
  method LoadEvents(server: SqlServer, n: string) returns (r: Option<seq<Event>>)
    ensures r.None? <==> !CalendarLoads(server.databases, n)
    ensures r.Some? ==> r.value == CalendarEvents(server.databases[n])
  {
    if !CalendarLoads(server.databases, n) {
      return None;
    }
    var db := server.databases[n];
    var handbook := db.handbook;
    var reports := IndexById(db.reports, ReportId);
    var periods: map<int, ReportPeriod> := map[];
    if PeriodsTable in db.tables {
      periods := IndexById(db.periods, PeriodId);
    }
    var clients := IndexById(db.clients, ClientId);
    var events := ProjectEvents(handbook, clients, reports, periods);
    r := Some(events);
  }

  /** A page's events: one per handbook row, in order, carrying only the row's id. */
  lemma CalendarEventsAreBare(db: TenantDb)
    ensures |CalendarEvents(db)| == |db.handbook|
    ensures forall i :: 0 <= i < |db.handbook| ==>
              CalendarEvents(db)[i] == Event(db.handbook[i].id, None, None, None, ANull, ANull, ANull)
  {
    forall i | 0 <= i < |db.handbook|
      ensures CalendarEvents(db)[i] == Event(db.handbook[i].id, None, None, None, ANull, ANull, ANull)
    {
      EventsAreBare(db.handbook[i], MapOf(db.clients, ClientId), MapOf(db.reports, ReportId), PeriodsMap(db));
    }
  }

  /** What the template receives. */
  datatype CalendarPage = CalendarPage(
    clientId: int, clientName: string, events: seq<Event>, company: HeaderSettings, today: string)

  /** `client_calendar_page`: 404 without a tenant database; a failed handbook, reports or
      clients load propagates (a 500); otherwise the events, then the header settings, the
      client name (the company name or "Клиент") and today's date. */
  method ClientCalendarPage(d: Directory, server: SqlServer, clientId: int, commitFails: bool, now: DateTime,
                            clock: Option<Date>) returns (r: Result<CalendarPage, HttpError>)
    requires clock.Some? ==> ValidDate(clock.value)
    modifies server
    ensures ProvisionedOrg(d.orgs, clientId).None? ==>
              r == Err(HttpError(NotFound, TenantDatabaseNotFound)) && server.databases == old(server.databases)
    ensures ProvisionedOrg(d.orgs, clientId).Some? ==>
              var org := ProvisionedOrg(d.orgs, clientId).value;
              var n := org.databaseName.value;
              if !CalendarLoads(old(server.databases), n) then
                r == Err(HttpError(InternalError, UncaughtErrorDetail)) && server.databases == old(server.databases)
              else
                var s := SettingsLookup(d.orgs, old(server.databases), clientId, commitFails, now);
                r == Ok(CalendarPage(clientId, OrElse(org.companyName, FallbackClientName),
                                     CalendarEvents(old(server.databases)[n]), s.header, GetTodayDate(clock)))
                && server.databases == s.dbs
  {
    var found := ProvisionedOrg(d.orgs, clientId);
    if found.None? {
      return Err(HttpError(NotFound, TenantDatabaseNotFound));
    }
    var org := found.value;
    var events := LoadEvents(server, org.databaseName.value);
    if events.None? {
      return Err(HttpError(InternalError, UncaughtErrorDetail));
    }
    var company := GetClientCompanySettings(d, server, clientId, commitFails, now);
    var name := OrElse(org.companyName, FallbackClientName);
    r := Ok(CalendarPage(clientId, name, events.value, company, GetTodayDate(clock)));
  }
}
