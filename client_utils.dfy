/** `app/utils/client_utils.py`: the portal header's company settings and today's date. */
module ClientUtils {
  import opened Wrappers
  import opened Dates
  import opened TenantSchema
  import opened MainDb
  import opened ClientDbManager

  const DefaultCompanyName := "Моя компания"

  /** The header values: a company name and a logo, which is always None because the
      settings row has a `logo_path` column and no `logo` attribute. */
  datatype HeaderSettings = HeaderSettings(companyName: string, logo: Option<string>)

  const DefaultHeader := HeaderSettings(DefaultCompanyName, None)

  /** What a header look-up returns and the catalog it leaves. */
  datatype SettingsOutcome = SettingsOutcome(header: HeaderSettings, dbs: map<string, TenantDb>)

  /** `get_client_company_settings`. Without a tenant database the defaults come back and
      no session is opened. Otherwise the first settings row is read, one being inserted
      (named after the organisation, else "Моя компания") when the table is empty; a
      failure anywhere (no such database or table, a failed commit) gives the defaults. */
  function SettingsLookup(orgs: seq<Org>, dbs: map<string, TenantDb>, clientId: int, commitFails: bool,
                          now: DateTime): SettingsOutcome
  {
    match ProvisionedOrg(orgs, clientId)
    case None => SettingsOutcome(DefaultHeader, dbs)
    case Some(org) =>
      var n := org.databaseName.value;
      if n !in dbs || SettingsTable !in dbs[n].tables then SettingsOutcome(DefaultHeader, dbs)
      else if dbs[n].settings != [] then
        SettingsOutcome(HeaderSettings(OrElse(dbs[n].settings[0].companyName, DefaultCompanyName), None), dbs)
      else if commitFails then SettingsOutcome(DefaultHeader, dbs)
      else
        var name := OrElse(org.companyName, DefaultCompanyName);
        SettingsOutcome(HeaderSettings(name, None), dbs[n := AddSettings(dbs[n], name, now)])
  }

  /** The look-up as the route runs it, against the server's catalog. */
  method GetClientCompanySettings(d: Directory, server: SqlServer, clientId: int, commitFails: bool, now: DateTime)
    returns (r: HeaderSettings)
    modifies server
    ensures SettingsOutcome(r, server.databases) == SettingsLookup(d.orgs, old(server.databases), clientId, commitFails, now)
  {
    var found := ProvisionedOrg(d.orgs, clientId);
    if found.None? {
      return DefaultHeader;
    }
    var org := found.value;
    var n := org.databaseName.value;
    if n !in server.databases || SettingsTable !in server.databases[n].tables {
      return DefaultHeader;
    }
    if server.databases[n].settings == [] {
      if commitFails {
        return DefaultHeader;
      }
      server.databases := server.databases[n := AddSettings(server.databases[n], OrElse(org.companyName, DefaultCompanyName), now)];
    }
    var cs := server.databases[n].settings[0];
    r := HeaderSettings(OrElse(cs.companyName, DefaultCompanyName), None);
  }

  /** The header always has a non-empty name and never a logo; an organisation without a
      database gets the defaults and the catalog is left alone. */
  lemma HeaderAlwaysNamed(orgs: seq<Org>, dbs: map<string, TenantDb>, clientId: int, commitFails: bool, now: DateTime)
    ensures var o := SettingsLookup(orgs, dbs, clientId, commitFails, now);
            o.header.logo.None? && o.header.companyName != ""
            && (ProvisionedOrg(orgs, clientId).None? ==> o == SettingsOutcome(DefaultHeader, dbs))
  {
  }

  /** The look-up changes nothing but the tenant's own settings table, and that only by one
      inserted row when the table was empty. */
  lemma SettingsLookupFrame(orgs: seq<Org>, dbs: map<string, TenantDb>, clientId: int, commitFails: bool, now: DateTime)
    ensures var o := SettingsLookup(orgs, dbs, clientId, commitFails, now);
            o.dbs == dbs
            || (ProvisionedOrg(orgs, clientId).Some?
                && var n := ProvisionedOrg(orgs, clientId).value.databaseName.value;
                   n in dbs && dbs[n].settings == [] && o.dbs.Keys == dbs.Keys
                   && o.dbs[n].settings == [NewCompanySettings(dbs[n].nextSettingsId, o.header.companyName, now)]
                   && (forall m :: m in dbs && m != n ==> o.dbs[m] == dbs[m]))
  {
  }

  /** A second look-up shows the same header and changes nothing: the row the first one
      inserted is the one the second one reads. */
  lemma SettingsLookupIdempotent(orgs: seq<Org>, dbs: map<string, TenantDb>, clientId: int,
                                   commitFails: bool, now: DateTime, later: DateTime)
    ensures var o := SettingsLookup(orgs, dbs, clientId, commitFails, now);
            SettingsLookup(orgs, o.dbs, clientId, commitFails, later) == o
  {
  }

  const EpochDate := "1970-01-01"

  /** `get_today_date`: `datetime.now().strftime("%Y-%m-%d")`; None stands for a clock
      that raises, where the epoch date is returned. */
  function GetTodayDate(clock: Option<Date>): (r: string)
    requires clock.Some? ==> ValidDate(clock.value)
    ensures |r| == 10 && r[4] == '-' && r[7] == '-'
    ensures clock.Some? ==> ParseYmd(r) == Some(clock.value)
    ensures clock.None? ==> r == EpochDate
  {
    match clock
    case Some(today) =>
      FormatYmdRoundTrip(today);
      FormatYmd(today)
    case None => EpochDate
  }
}
