/** `app/utils/auto_db_creator.py`: provision a tenant's database on demand. The code
    passes the text of the organisation's id where the provisioner expects the
    organisation row, so `CreateDatabaseForClient` models it as written and
    `CreateDatabaseForClientFixed` models it with the row passed. */
module AutoDbCreator {
  import opened Wrappers
  import opened Text
  import opened Dates
  import opened TenantSchema
  import opened MainDb
  import opened ClientDbManager

  /** `create_database_for_client` as written: an unknown id gives false; a tenant that
      already has a name gives true untouched; otherwise it provisions with `str(client.id)`
      as the organisation and `client.login` as the name, and any exception gives false. */
  method CreateDatabaseForClient(d: Directory, server: SqlServer, clientId: int, fault: Fault, now: DateTime)
    returns (ok: bool)
    requires d.Valid()
    modifies d, server
    ensures d.Valid()
    ensures d.users == old(d.users) && d.profiles == old(d.profiles) && d.admins == old(d.admins)
    ensures old(d.FindOrg(clientId)).None? ==> !ok && d.orgs == old(d.orgs) && server.databases == old(server.databases)
    ensures old(d.FindOrg(clientId)).Some? && HasDatabase(old(d.orgs)[old(d.FindOrg(clientId)).value]) ==>
              ok && d.orgs == old(d.orgs) && server.databases == old(server.databases)
    ensures old(d.FindOrg(clientId)).Some? && !HasDatabase(old(d.orgs)[old(d.FindOrg(clientId)).value]) ==>
              var k := old(d.FindOrg(clientId)).value;
              var org := old(d.orgs)[k];
              var o := Provision(old(server.databases), IdText(NatToString(org.id)), org.login, fault, now);
              server.databases == o.dbs && ok == o.result.Ok?
              && (o.result.Ok? ==> d.orgs == old(d.orgs)[k := Renamed(org, o.result.value, now)])
              && (o.result.Err? ==> d.orgs == old(d.orgs))
  {
    var k := d.FindOrg(clientId);
    if k.None? {
      return false;
    }
    var org := d.orgs[k.value];
    if HasDatabase(org) {
      return true;
    }
    var created := server.CreateClientDatabase(IdText(NatToString(org.id)), org.login, fault, now);
    if created.Err? {
      return false;
    }
    d.SetDatabaseName(k.value, created.value, now);
    ok := true;
  }

  /** As written, the call can only succeed by landing on a database that already exists
      and already has settings, that is one provisioned before, possibly for another tenant;
      it never provisions a new tenant. */
  lemma IdTextNeverProvisionsNew(dbs: map<string, TenantDb>, text: string, login: Option<string>, fault: Fault, now: DateTime)
    ensures var o := Provision(dbs, IdText(text), login, fault, now);
            o.result.Ok? ==> Truthy(login) && login.value in dbs && dbs[login.value].settings != []
                             && o.result.value == login.value
    ensures !Truthy(login) ==> Provision(dbs, IdText(text), login, fault, now) == Outcome(Err(AttributeError), dbs)
  {
  }

  /** The concrete case: a fresh tenant whose legacy login is "acme". The call reports
      failure, yet leaves a database "acme" behind with every table and no settings row,
      and the tenant still has no database name. */
  lemma FreshLoginLeavesUnseededDatabase(org: Org, now: DateTime)
    requires org.login == Some("acme")
    ensures var o := Provision(map[], IdText(NatToString(org.id)), org.login, NoFault, now);
            o.result == Err(AttributeError)
            && o.dbs.Keys == {"acme"} && o.dbs["acme"].tables == AllTables && o.dbs["acme"].settings == []
  {
  }

  /** `create_database_for_client` with the organisation row passed, as the provisioner
      expects. Without a server fault, and for a chosen name the code can splice unescaped,
      it now always gives true and binds the tenant to a database that has every table and
      a settings row. */
  method CreateDatabaseForClientFixed(d: Directory, server: SqlServer, clientId: int, fault: Fault, now: DateTime)
    returns (ok: bool)
    requires d.Valid()
    modifies d, server
    ensures d.Valid()
    ensures d.users == old(d.users) && d.profiles == old(d.profiles) && d.admins == old(d.admins)
    ensures old(d.FindOrg(clientId)).None? ==> !ok && d.orgs == old(d.orgs) && server.databases == old(server.databases)
    ensures old(d.FindOrg(clientId)).Some? && HasDatabase(old(d.orgs)[old(d.FindOrg(clientId)).value]) ==>
              ok && d.orgs == old(d.orgs) && server.databases == old(server.databases)
    ensures |d.orgs| == |old(d.orgs)|
    ensures old(d.FindOrg(clientId)).Some? && fault == NoFault ==>
              var org := old(d.orgs)[old(d.FindOrg(clientId)).value];
              HasDatabase(org) || PlainName(OrElse(org.login, DefaultDbName(org.id))) ==> ok
    ensures old(d.FindOrg(clientId)).Some? && !HasDatabase(old(d.orgs)[old(d.FindOrg(clientId)).value]) && fault == NoFault
            && PlainName(OrElse(old(d.orgs)[old(d.FindOrg(clientId)).value].login,
                                DefaultDbName(old(d.orgs)[old(d.FindOrg(clientId)).value].id))) ==>
              var k := old(d.FindOrg(clientId)).value;
              HasDatabase(d.orgs[k]) && d.orgs[k].databaseName.value in server.databases
              && AllTables <= server.databases[d.orgs[k].databaseName.value].tables
              && server.databases[d.orgs[k].databaseName.value].settings != []
    ensures old(d.FindOrg(clientId)).Some? && !HasDatabase(old(d.orgs)[old(d.FindOrg(clientId)).value]) ==>
              var k := old(d.FindOrg(clientId)).value;
              var org := old(d.orgs)[k];
              var o := Provision(old(server.databases), OrgObject(org), org.login, fault, now);
              server.databases == o.dbs && ok == o.result.Ok?
              && (o.result.Ok? ==> d.orgs == old(d.orgs)[k := Renamed(org, o.result.value, now)])
              && (o.result.Err? ==> d.orgs == old(d.orgs))
  {
    var k := d.FindOrg(clientId);
    if k.None? {
      return false;
    }
    var org := d.orgs[k.value];
    if HasDatabase(org) {
      return true;
    }
    if PlainName(OrElse(org.login, DefaultDbName(org.id))) {
      ProvisionSucceedsWithoutFault(server.databases, org, org.login, now);
    }
    ProvisionSuccess(server.databases, OrgObject(org), org.login, fault, now);
    var created := server.CreateClientDatabase(OrgObject(org), org.login, fault, now);
    if created.Err? {
      return false;
    }
    d.SetDatabaseName(k.value, created.value, now);
    ok := true;
  }
}
