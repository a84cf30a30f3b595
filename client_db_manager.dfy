/** `app/managers/client_db_manager.py`: provisioning of one tenant database on the SQL
    Server instance and the connection URL/session helpers. The instance is the class
    `SqlServer`, whose catalog maps database names to tenant databases; the steps that
    talk to the server can fail, and which one fails (if any) is the `fault` parameter. */
module ClientDbManager {
  import opened Wrappers
  import opened Text
  import opened Config
  import opened Dates
  import opened TenantSchema
  import opened MainDb

  // ---------- connection URL ----------

  const UrlScheme := "mssql+pyodbc://@"
  const UrlOptionsTail := "&trusted_connection=yes&TrustServerCertificate="

  /** `_build_client_url`: Windows authentication, the driver name form-encoded, and the
      certificate flag spelled "yes" or "no". */
  function BuildClientUrl(cfg: Settings, quotePlus: string -> string, databaseName: string): string {
    UrlScheme + cfg.dbServer + "/" + databaseName + "?driver=" + quotePlus(cfg.dbDriver)
    + UrlOptionsTail + TrustFlag(cfg.trustServerCertificate)
  }

  /** The database a URL of this shape names: the path between the first '/' after the
      host and the first '?'. */
  function UrlDatabase(url: string): (r: Option<string>)
    ensures r.Some? ==> '?' !in r.value
  {
    if |url| >= |UrlScheme| && url[..|UrlScheme|] == UrlScheme then
      match SplitFirst(url[|UrlScheme|..], '/')
      case Some((_, tail)) => Some(Before(tail, '?'))
      case None => None
    else None
  }

  /** The URL names the database it was built for, as long as the server name has no '/'
      and the database name no '?'. */
  lemma UrlNamesDatabase(cfg: Settings, quotePlus: string -> string, databaseName: string)
    requires '/' !in cfg.dbServer && '?' !in databaseName
    ensures UrlDatabase(BuildClientUrl(cfg, quotePlus, databaseName)) == Some(databaseName)
  {
    var query := "driver=" + quotePlus(cfg.dbDriver) + UrlOptionsTail + TrustFlag(cfg.trustServerCertificate);
    var tail := databaseName + ['?'] + query;
    var rest := cfg.dbServer + ['/'] + tail;
    UrlShape(cfg, quotePlus, databaseName);
    UrlDatabaseAfterScheme(rest);
    SplitFirstAt(cfg.dbServer, '/', tail);
    BeforeAt(databaseName, '?', query);
  }

  /** The URL split at its two separators. */
  lemma UrlShape(cfg: Settings, quotePlus: string -> string, databaseName: string)
    ensures BuildClientUrl(cfg, quotePlus, databaseName)
            == UrlScheme + (cfg.dbServer + ['/'] + (databaseName + ['?']
               + ("driver=" + quotePlus(cfg.dbDriver) + UrlOptionsTail + TrustFlag(cfg.trustServerCertificate))))
  {
  }

  lemma UrlDatabaseAfterScheme(rest: string)
    ensures UrlDatabase(UrlScheme + rest)
            == match SplitFirst(rest, '/') case Some((_, tail)) => Some(Before(tail, '?')) case None => None
  {
    var url := UrlScheme + rest;
    assert url[..|UrlScheme|] == UrlScheme && url[|UrlScheme|..] == rest;
  }

  /** Different tenants get different URLs. */
  lemma UrlInjective(cfg: Settings, quotePlus: string -> string, a: string, b: string)
    requires '/' !in cfg.dbServer && '?' !in a && '?' !in b
    requires BuildClientUrl(cfg, quotePlus, a) == BuildClientUrl(cfg, quotePlus, b)
    ensures a == b
  {
    UrlNamesDatabase(cfg, quotePlus, a);
    UrlNamesDatabase(cfg, quotePlus, b);
  }

  /** The certificate flag at the end of the URL follows the setting's spelling. */
  lemma UrlTrustFlag(cfg: Settings, quotePlus: string -> string, databaseName: string)
    ensures TrustSpelling(cfg.trustServerCertificate) ==>
              BuildClientUrl(cfg, quotePlus, databaseName)[|BuildClientUrl(cfg, quotePlus, databaseName)| - 3..] == "yes"
    ensures !TrustSpelling(cfg.trustServerCertificate) ==>
              BuildClientUrl(cfg, quotePlus, databaseName)[|BuildClientUrl(cfg, quotePlus, databaseName)| - 2..] == "no"
  {
    TrustFlagSpelling(cfg.trustServerCertificate);
    var url := BuildClientUrl(cfg, quotePlus, databaseName);
    var flag := TrustFlag(cfg.trustServerCertificate);
    var front := UrlScheme + cfg.dbServer + "/" + databaseName + "?driver=" + quotePlus(cfg.dbDriver) + UrlOptionsTail;
    assert url == front + flag;
    assert url[|url| - |flag|..] == flag;
  }

  /** An engine is identified by its URL; no engine or session is cached. */
  datatype Engine = Engine(url: string)
  datatype Session = Session(engine: Engine)

  /** `get_engine`: a fresh engine on the tenant's URL. */
  function GetEngine(cfg: Settings, quotePlus: string -> string, databaseName: string): (e: Engine)
    ensures '/' !in cfg.dbServer && '?' !in databaseName ==> UrlDatabase(e.url) == Some(databaseName)
  {
    UrlNamesDatabaseWhenPlain(cfg, quotePlus, databaseName);
    Engine(BuildClientUrl(cfg, quotePlus, databaseName))
  }

  lemma UrlNamesDatabaseWhenPlain(cfg: Settings, quotePlus: string -> string, databaseName: string)
    ensures '/' !in cfg.dbServer && '?' !in databaseName ==>
              UrlDatabase(BuildClientUrl(cfg, quotePlus, databaseName)) == Some(databaseName)
  {
    if '/' !in cfg.dbServer && '?' !in databaseName {
      UrlNamesDatabase(cfg, quotePlus, databaseName);
    }
  }

  /** `get_client_session`: a new session bound to a new engine for that database. */
  function GetClientSession(cfg: Settings, quotePlus: string -> string, databaseName: string): (s: Session)
    ensures '/' !in cfg.dbServer && '?' !in databaseName ==> UrlDatabase(s.engine.url) == Some(databaseName)
  {
    Session(GetEngine(cfg, quotePlus, databaseName))
  }

  // ---------- provisioning ----------

  /** What `create_client_database` is handed as `client_org`: the organisation row, or (as
      one caller does) the text of its id, on which every attribute access raises. */
  datatype OrgArg = OrgObject(org: Org) | IdText(text: string)

  /** The server-side step that fails, if any. */
  datatype Fault = NoFault | MasterDown | CreateFails | SchemaFails | SeedFails

  datatype ProvisionError =
    | AttributeError      // an attribute read on a value that has no such attribute
    | MasterUnreachable   // the pyodbc connection to master could not be opened
    | CreateDatabaseFailed
    | SchemaFailed        // `create_all` failed; its DDL runs in one transaction
    | SeedFailed          // the commit of the default settings row failed

  /** `database_name or (client_org.database_name or f"client_{client_org.id}")`. */
  function ChooseName(arg: OrgArg, databaseName: Option<string>): (r: Result<string, ProvisionError>)
    ensures Truthy(databaseName) ==> r == Ok(databaseName.value)
    ensures !Truthy(databaseName) && arg.IdText? ==> r == Err(AttributeError)
    ensures !Truthy(databaseName) && arg.OrgObject? && Truthy(arg.org.databaseName) ==> r == Ok(arg.org.databaseName.value)
    ensures !Truthy(databaseName) && arg.OrgObject? && !Truthy(arg.org.databaseName) ==> r == Ok(DefaultDbName(arg.org.id))
    ensures r.Ok? ==> r.value != []
  {
    if Truthy(databaseName) then Ok(databaseName.value)
    else match arg
      case IdText(_) => Err(AttributeError)
      case OrgObject(o) => Ok(OrElse(o.databaseName, DefaultDbName(o.id)))
  }

  /** A name the code can splice unescaped into `CREATE DATABASE [...]` and into the URL
      path: no `]` to close the bracket early and no `?` to start the query string. */
  predicate PlainName(n: string) {
    ']' !in n && '?' !in n
  }

  /** `f"client_{id}"`. */
  function DefaultDbName(id: nat): (r: string)
    ensures |r| > 7 && r[..7] == "client_" && '/' !in r && PlainName(r)
  {
    var digits := NatToString(id);
    assert forall k :: 0 <= k < |digits| ==> IsDigit(digits[k]);
    var r := "client_" + digits;
    assert forall k :: 7 <= k < |r| ==> r[k] == digits[k - 7];
    r
  }

  /** Distinct organisations get distinct default names. */
  lemma DefaultDbNameInjective(a: nat, b: nat)
    requires DefaultDbName(a) == DefaultDbName(b)
    ensures a == b
  {
    assert NatToString(a) == DefaultDbName(a)[7..];
    assert NatToString(b) == DefaultDbName(b)[7..];
    NatToStringInjective(a, b);
  }

  /** `client_org.company_name or f"Клиент {client_org.id}"`. */
  function SeedCompanyName(arg: OrgArg): (r: Result<string, ProvisionError>)
    ensures arg.IdText? <==> r == Err(AttributeError)
    ensures arg.OrgObject? && Truthy(arg.org.companyName) ==> r == Ok(arg.org.companyName.value)
    ensures arg.OrgObject? && !Truthy(arg.org.companyName) ==> r == Ok("Клиент " + NatToString(arg.org.id))
  {
    match arg
    case IdText(_) => Err(AttributeError)
    case OrgObject(o) => Ok(OrElse(o.companyName, "Клиент " + NatToString(o.id)))
  }

  /** The result of one call and the catalog it leaves. */
  datatype Outcome = Outcome(result: Result<string, ProvisionError>, dbs: map<string, TenantDb>)

  /** `create_client_database` as a function of the catalog: choose the name; connect to
      master; create the database unless `DB_ID` finds it; create the missing tables; insert
      a default settings row when the table is empty; return the name. Whatever a failing
      step has already done on the server stays done. */
  function Provision(dbs: map<string, TenantDb>, arg: OrgArg, databaseName: Option<string>,
                     fault: Fault, now: DateTime): Outcome
  {
    match ChooseName(arg, databaseName)
    case Err(e) => Outcome(Err(e), dbs)
    case Ok(n) =>
      if fault == MasterDown then Outcome(Err(MasterUnreachable), dbs)
      else if n !in dbs && fault == CreateFails then Outcome(Err(CreateDatabaseFailed), dbs)
      else
        var created := if n in dbs then dbs else dbs[n := EmptyDb];
        if fault == SchemaFails then Outcome(Err(SchemaFailed), created)
        else
          var withSchema := created[n := CreateAll(created[n])];
          if withSchema[n].settings != [] then Outcome(Ok(n), withSchema)
          else match SeedCompanyName(arg)
            case Err(e) => Outcome(Err(e), withSchema)
            case Ok(company) =>
              if fault == SeedFails then Outcome(Err(SeedFailed), withSchema)
              else Outcome(Ok(n), withSchema[n := AddSettings(withSchema[n], company, now)])
  }

  /** The SQL Server instance: its catalog of databases. */
  class SqlServer {
    var databases: map<string, TenantDb>

    constructor (initial: map<string, TenantDb>)
      ensures databases == initial
    {
      databases := initial;
    }

    /** `ClientDBManager.create_client_database`. */
    method CreateClientDatabase(arg: OrgArg, databaseName: Option<string>, fault: Fault, now: DateTime)
      returns (r: Result<string, ProvisionError>)
      modifies this
      ensures Outcome(r, databases) == Provision(old(databases), arg, databaseName, fault, now)
    {
      var chosen := ChooseName(arg, databaseName);
      if chosen.Err? {
        return Err(chosen.error);
      }
      var n := chosen.value;
      // 1) CREATE DATABASE unless DB_ID(n) finds it
      if fault == MasterDown {
        return Err(MasterUnreachable);
      }
      if n !in databases {
        if fault == CreateFails {
          return Err(CreateDatabaseFailed);
        }
        databases := databases[n := EmptyDb];
      }
      // 2) the tenant schema
      if fault == SchemaFails {
        return Err(SchemaFailed);
      }
      databases := databases[n := CreateAll(databases[n])];
      // 3) the default settings row
      if databases[n].settings == [] {
        var company := SeedCompanyName(arg);
        if company.Err? {
          return Err(company.error);
        }
        if fault == SeedFails {
          return Err(SeedFailed);
        }
        databases := databases[n := AddSettings(databases[n], company.value, now)];
      }
      r := Ok(n);
    }
  }

  // ---------- properties of provisioning ----------

  /** A successful call returns the chosen name, and that database then has every tenant
      table and at least one settings row. */
  lemma ProvisionSuccess(dbs: map<string, TenantDb>, arg: OrgArg, databaseName: Option<string>, fault: Fault, now: DateTime)
    ensures var o := Provision(dbs, arg, databaseName, fault, now);
            o.result.Ok? ==> ChooseName(arg, databaseName) == o.result && o.result.value in o.dbs
                             && AllTables <= o.dbs[o.result.value].tables && o.dbs[o.result.value].settings != []
  {
  }

  /** A call touches no database but the one it chose: every other database is still there,
      unchanged, and none appears. */
  lemma ProvisionTouchesOnlyChosen(dbs: map<string, TenantDb>, arg: OrgArg, databaseName: Option<string>, fault: Fault, now: DateTime)
    ensures var o := Provision(dbs, arg, databaseName, fault, now);
            (ChooseName(arg, databaseName).Err? ==> o.dbs == dbs)
            && (ChooseName(arg, databaseName).Ok? ==>
                  o.dbs.Keys <= dbs.Keys + {ChooseName(arg, databaseName).value}
                  && forall k :: k in dbs && k != ChooseName(arg, databaseName).value ==> k in o.dbs && o.dbs[k] == dbs[k])
  {
    ProvisionUpdatesOne(dbs, arg, databaseName, fault, now);
  }

  /** The catalog after provisioning is the old one with at most the chosen entry replaced. */
  lemma ProvisionUpdatesOne(dbs: map<string, TenantDb>, arg: OrgArg, databaseName: Option<string>, fault: Fault, now: DateTime)
    ensures var o := Provision(dbs, arg, databaseName, fault, now);
            o.dbs == dbs
            || (ChooseName(arg, databaseName).Ok? && ChooseName(arg, databaseName).value in o.dbs
                && o.dbs == dbs[ChooseName(arg, databaseName).value := o.dbs[ChooseName(arg, databaseName).value]])
  {
    match ChooseName(arg, databaseName)
    case Err(_) =>
    case Ok(n) =>
      if fault != MasterDown && !(n !in dbs && fault == CreateFails) {
        var created := if n in dbs then dbs else dbs[n := EmptyDb];
        assert created == dbs[n := created[n]];
        if fault != SchemaFails {
          var withSchema := created[n := CreateAll(created[n])];
          assert withSchema == dbs[n := withSchema[n]];
          if withSchema[n].settings == [] && SeedCompanyName(arg).Ok? && fault != SeedFails {
            var seeded := AddSettings(withSchema[n], SeedCompanyName(arg).value, now);
            assert withSchema[n := seeded] == dbs[n := seeded];
          }
        }
      }
  }

  /** An existing database is never recreated: its rows survive, its tables only grow, and
      its settings change only when they were empty, by exactly one default row. */
  lemma ProvisionKeepsExisting(dbs: map<string, TenantDb>, arg: OrgArg, databaseName: Option<string>, fault: Fault, now: DateTime)
    requires ChooseName(arg, databaseName).Ok? && ChooseName(arg, databaseName).value in dbs
    ensures var n := ChooseName(arg, databaseName).value;
            var o := Provision(dbs, arg, databaseName, fault, now);
            n in o.dbs && dbs[n].tables <= o.dbs[n].tables
            && o.dbs[n].users == dbs[n].users && o.dbs[n].clients == dbs[n].clients
            && o.dbs[n].reports == dbs[n].reports && o.dbs[n].events == dbs[n].events
            && o.dbs[n].handbook == dbs[n].handbook && o.dbs[n].history == dbs[n].history
            && o.dbs[n].accesses == dbs[n].accesses && o.dbs[n].signatures == dbs[n].signatures
            && o.dbs[n].periods == dbs[n].periods && o.dbs[n].templates == dbs[n].templates
            && (dbs[n].settings != [] ==> o.dbs[n].settings == dbs[n].settings)
            && (o.dbs[n].settings != dbs[n].settings ==>
                  dbs[n].settings == [] && arg.OrgObject?
                  && o.dbs[n].settings == [NewCompanySettings(dbs[n].nextSettingsId, SeedCompanyName(arg).value, now)])
  {
  }

  /** Every successful call on an empty settings table seeds the row from the organisation's
      company name (or "Клиент <id>"). */
  lemma ProvisionSeedsDefault(dbs: map<string, TenantDb>, arg: OrgArg, databaseName: Option<string>, fault: Fault, now: DateTime)
    requires ChooseName(arg, databaseName).Ok?
    requires var n := ChooseName(arg, databaseName).value; n !in dbs || dbs[n].settings == []
    requires Provision(dbs, arg, databaseName, fault, now).result.Ok?
    ensures var n := ChooseName(arg, databaseName).value;
            var o := Provision(dbs, arg, databaseName, fault, now);
            arg.OrgObject?
            && o.dbs[n].settings == [NewCompanySettings(if n in dbs then dbs[n].nextSettingsId else 1, SeedCompanyName(arg).value, now)]
  {
  }

  /** With the organisation row in hand, a plain chosen name and no server fault,
      provisioning succeeds from any catalog, including one a failed earlier call left
      half-built. */
  lemma ProvisionSucceedsWithoutFault(dbs: map<string, TenantDb>, org: Org, databaseName: Option<string>, now: DateTime)
    requires var c := ChooseName(OrgObject(org), databaseName); c.Ok? && PlainName(c.value)
    ensures Provision(dbs, OrgObject(org), databaseName, NoFault, now).result == ChooseName(OrgObject(org), databaseName)
    ensures Provision(dbs, OrgObject(org), databaseName, NoFault, now).result.Ok?
  {
  }

  /** Idempotence: after a successful call, the same call again (at any later time, with no
      fault) returns the same name and leaves the catalog as it is. */
  lemma {:induction false} ProvisionIdempotent(dbs: map<string, TenantDb>, arg: OrgArg, databaseName: Option<string>,
                                               fault: Fault, now: DateTime, later: DateTime)
    requires Provision(dbs, arg, databaseName, fault, now).result.Ok?
    ensures var o1 := Provision(dbs, arg, databaseName, fault, now);
            var o2 := Provision(o1.dbs, arg, databaseName, NoFault, later);
            o2 == o1
  {
    var o1 := Provision(dbs, arg, databaseName, fault, now);
    var n := o1.result.value;
    ProvisionSuccess(dbs, arg, databaseName, fault, now);
    assert CreateAll(o1.dbs[n]) == o1.dbs[n] by {
      assert o1.dbs[n].tables + AllTables == o1.dbs[n].tables;
    }
    assert o1.dbs[n := CreateAll(o1.dbs[n])] == o1.dbs;
  }

  /** A call whose schema step fails on a fresh name leaves an empty database behind; a
      retry without fault then completes it. */
  lemma PartialFailureThenRetry(dbs: map<string, TenantDb>, org: Org, databaseName: Option<string>, now: DateTime, later: DateTime)
    requires ChooseName(OrgObject(org), databaseName).value !in dbs
    ensures var n := ChooseName(OrgObject(org), databaseName).value;
            var o1 := Provision(dbs, OrgObject(org), databaseName, SchemaFails, now);
            var o2 := Provision(o1.dbs, OrgObject(org), databaseName, NoFault, later);
            o1.result == Err(SchemaFailed) && n in o1.dbs && o1.dbs[n] == EmptyDb
            && o2.result == Ok(n) && o2.dbs[n].tables == AllTables
            && o2.dbs[n].settings == [NewCompanySettings(1, SeedCompanyName(OrgObject(org)).value, later)]
  {
  }

  /** The chosen database ends up as it was, empty, or with the whole schema. */
  lemma ProvisionChosenShape(dbs: map<string, TenantDb>, arg: OrgArg, databaseName: Option<string>, fault: Fault, now: DateTime)
    requires ChooseName(arg, databaseName).Ok?
    ensures var n := ChooseName(arg, databaseName).value;
            var o := Provision(dbs, arg, databaseName, fault, now);
            n in o.dbs ==> (n in dbs && o.dbs[n] == dbs[n]) || o.dbs[n] == EmptyDb || AllTables <= o.dbs[n].tables
  {
  }

  /** Provisioning keeps every database's rows inside its existing tables. */
  lemma ProvisionKeepsRowsInTables(dbs: map<string, TenantDb>, arg: OrgArg, databaseName: Option<string>, fault: Fault, now: DateTime)
    requires forall k :: k in dbs ==> RowsInTables(dbs[k])
    ensures var o := Provision(dbs, arg, databaseName, fault, now);
            forall k :: k in o.dbs ==> RowsInTables(o.dbs[k])
  {
    var o := Provision(dbs, arg, databaseName, fault, now);
    ProvisionTouchesOnlyChosen(dbs, arg, databaseName, fault, now);
    if ChooseName(arg, databaseName).Ok? {
      ProvisionChosenShape(dbs, arg, databaseName, fault, now);
    }
  }
}
