/** `app/services/user_service.py`: registering a tenant organisation (directory row, then
    its database), registering a tenant user (directory row, then its mirror in the tenant
    database) and directory login for tenant users. */
module UserService {
  import opened Wrappers
  import opened Config
  import opened Dates
  import opened Rows
  import opened TenantSchema
  import opened MainDb
  import opened Security
  import opened ClientDbManager

  datatype ServiceError =
    | Provisioning(cause: ProvisionError)   // raised by `create_client_database`
    | IntegrityError                        // a directory commit rejected by a constraint
    | NoTenantDatabase                      // the ValueError before mirroring
    | MirrorFailed                          // the tenant insert or its commit failed
    | VerifyRaised                          // passlib raised on the stored hash

  /** The organisation row as `create_client_organization` first commits it. */
  function InsertedOrg(id: nat, companyName: string, notes: Option<string>, now: DateTime): Org {
    Org(id, None, Some(companyName), notes, Some(true), Some(now), Some(now), None, None, None, None, None)
  }

  /** `create_client_organization`: commit an active organisation, provision `client_{id}`
      for it, then record and commit the name. When provisioning raises, the organisation
      is already committed and keeps no database name. */
  method CreateClientOrganization(d: Directory, server: SqlServer, companyName: string, notes: Option<string>,
                                  fault: Fault, now: DateTime) returns (r: Result<Org, ServiceError>)
    requires d.Valid()
    modifies d, server
    ensures d.Valid()
    ensures |d.orgs| == |old(d.orgs)| + 1 && d.orgs[..|old(d.orgs)|] == old(d.orgs) && d.nextOrgId == old(d.nextOrgId) + 1
    ensures var org := InsertedOrg(old(d.nextOrgId), companyName, notes, now);
            var o := Provision(old(server.databases), OrgObject(org), Some(DefaultDbName(org.id)), fault, now);
            server.databases == o.dbs
            && (o.result.Ok? ==> d.orgs[|old(d.orgs)|] == org.(databaseName := Some(DefaultDbName(org.id)))
                                 && r == Ok(d.orgs[|old(d.orgs)|]))
            && (o.result.Err? ==> d.orgs[|old(d.orgs)|] == org && r == Err(Provisioning(o.result.error)))
    ensures d.users == old(d.users) && d.profiles == old(d.profiles) && d.admins == old(d.admins)
    ensures d.nextUserId == old(d.nextUserId) && d.nextProfileId == old(d.nextProfileId)
  {
    var org := d.AddOrg(Some(companyName), notes, now);
    var dbName := DefaultDbName(org.id);
    var created := server.CreateClientDatabase(OrgObject(org), Some(dbName), fault, now);
    if created.Err? {
      return Err(Provisioning(created.error));
    }
    d.SetDatabaseName(|d.orgs| - 1, created.value, now);
    r := Ok(d.orgs[|d.orgs| - 1]);
  }

  /** The profile names `create_client_user` accepts as the owner profile. */
  predicate IsOwnerName(p: UserProfile) {
    p.name == OwnerProfileName || p.name == OwnerProfileNameEn
  }

  const OwnerProfileDescription := "Профиль владельца клиента"

  /** The mirror row: the directory user's id as `main_user_id`, the same email, login,
      full name and hash, and active. */
  function MirrorInsert(db: TenantDb, u: ClientUser, now: DateTime): (r: TenantDb)
    ensures |r.users| == |db.users| + 1 && r.users[..|db.users|] == db.users
    ensures var m := r.users[|db.users|];
            m.mainUserId == Some(u.id) && m.email == u.email && m.login == u.login && m.fullName == u.fullName
            && m.hashedPassword == Some(u.hashedPassword) && m.isActive == Some(true) && m.id == db.nextUserId
    ensures r.(users := db.users, nextUserId := db.nextUserId) == db && r.nextUserId == db.nextUserId + 1
    ensures ClientUsersTable in db.tables && RowsInTables(db) ==> RowsInTables(r)
  {
    db.(users := db.users + [NewTenantUser(db.nextUserId, Some(u.id), u.fullName, u.email, u.login,
                                           Some(u.hashedPassword), Some(true), now)],
        nextUserId := db.nextUserId + 1)
  }

  /** Whether the mirror insert into `name` can go through: the database exists and has
      its `client_users` table, and the tenant commit does not fail. */
  predicate MirrorPossible(dbs: map<string, TenantDb>, name: string, mirrorFault: bool) {
    name in dbs && ClientUsersTable in dbs[name].tables && !mirrorFault
  }

  /** The database `create_client_user` mirrors into: the organisation's non-empty
      `database_name`, or None when the organisation is missing or has no name. */
  function TenantDatabaseOf(orgs: seq<Org>, orgId: int): (r: Option<string>)
    ensures r.Some? ==> r.value != []
  {
    match ProvisionedOrg(orgs, orgId)
    case None => None
    case Some(o) => Some(o.databaseName.value)
  }

  /** The mirror goes to the first organisation with that id, and only when it has a name. */
  lemma TenantDatabaseOfSpec(orgs: seq<Org>, orgId: int)
    ensures TenantDatabaseOf(orgs, orgId).Some? <==>
              exists k :: 0 <= k < |orgs| && orgs[k].id == orgId && HasDatabase(orgs[k])
                          && forall j :: 0 <= j < k ==> orgs[j].id != orgId
    ensures TenantDatabaseOf(orgs, orgId).Some? ==>
              exists k :: 0 <= k < |orgs| && orgs[k].id == orgId && orgs[k].databaseName == TenantDatabaseOf(orgs, orgId)
  {
  }

  /** `create_client_user`. Steps: find or create the owner profile; hash the password and
      commit the directory user; require the organisation's database name (a ValueError
      after that commit); insert and commit the mirror. */
  method CreateClientUser(d: Directory, server: SqlServer, prims: Primitives, orgId: nat, email: string,
                          login: string, password: string, fullName: string, phone: Option<string>,
                          mirrorFault: bool, now: DateTime) returns (r: Result<ClientUser, ServiceError>)
    requires d.Valid()
    modifies d, server
    ensures d.Valid()
    ensures d.orgs == old(d.orgs) && d.admins == old(d.admins)
    // the owner profile: reused when one exists, created otherwise
    ensures FirstIndex(old(d.profiles), IsOwnerName).Some? ==> d.profiles == old(d.profiles)
    ensures FirstIndex(old(d.profiles), IsOwnerName).None? ==>
              d.profiles == old(d.profiles) + [UserProfile(old(d.nextProfileId), OwnerProfileName, Some(OwnerProfileDescription), Some(now))]
    ensures FirstIndex(d.profiles, IsOwnerName).Some?
    // the directory user; a missing organisation fails its foreign key
    ensures !d.OrgIdExists(orgId) ==>
              r == Err(IntegrityError) && d.users == old(d.users) && server.databases == old(server.databases)
    ensures d.OrgIdExists(orgId) ==>
              d.users == old(d.users) + [ClientUser(old(d.nextUserId), orgId, email, login, GetPasswordHash(prims, password),
                                                    fullName, phone, d.profiles[FirstIndex(d.profiles, IsOwnerName).value].id,
                                                    Some(true), Some(now), Some(now))]
    // the mirror
    ensures d.OrgIdExists(orgId) && TenantDatabaseOf(d.orgs, orgId).None? ==>
              r == Err(NoTenantDatabase) && server.databases == old(server.databases)
    ensures r.Ok? <==> d.OrgIdExists(orgId) && TenantDatabaseOf(d.orgs, orgId).Some?
                       && MirrorPossible(old(server.databases), TenantDatabaseOf(d.orgs, orgId).value, mirrorFault)
    ensures r.Ok? ==> r.value == d.users[|d.users| - 1]
                      && var n := TenantDatabaseOf(d.orgs, orgId).value;
                         server.databases == old(server.databases)[n := MirrorInsert(old(server.databases)[n], r.value, now)]
    ensures r.Err? ==> server.databases == old(server.databases)
  {
    var user := AddDirectoryUser(d, prims, orgId, email, login, password, fullName, phone, now);
    if user.Err? {
      return Err(IntegrityError);
    }
    r := MirrorForOrg(server, d.orgs, orgId, user.value, mirrorFault, now);
  }

  /** The directory half of `create_client_user`: the owner profile, then the hashed user
      committed with it; a missing organisation fails the foreign key. */
  method AddDirectoryUser(d: Directory, prims: Primitives, orgId: nat, email: string, login: string,
                          password: string, fullName: string, phone: Option<string>, now: DateTime)
    returns (r: Result<ClientUser, ServiceError>)
    requires d.Valid()
    modifies d
    ensures d.Valid()
    ensures d.orgs == old(d.orgs) && d.admins == old(d.admins)
    ensures FirstIndex(old(d.profiles), IsOwnerName).Some? ==> d.profiles == old(d.profiles)
    ensures FirstIndex(old(d.profiles), IsOwnerName).None? ==>
              d.profiles == old(d.profiles) + [UserProfile(old(d.nextProfileId), OwnerProfileName, Some(OwnerProfileDescription), Some(now))]
    ensures FirstIndex(d.profiles, IsOwnerName).Some?
    ensures r.Err? <==> !d.OrgIdExists(orgId)
    ensures r.Err? ==> r == Err(IntegrityError) && d.users == old(d.users)
    ensures r.Ok? ==>
              d.users == old(d.users) + [ClientUser(old(d.nextUserId), orgId, email, login, GetPasswordHash(prims, password),
                                                    fullName, phone, d.profiles[FirstIndex(d.profiles, IsOwnerName).value].id,
                                                    Some(true), Some(now), Some(now))]
              && r.value == d.users[|d.users| - 1]
  {
    var profile := EnsureOwnerProfile(d, now);
    var hashed := GetPasswordHash(prims, password);
    var user := d.AddUser(orgId, email, login, hashed, fullName, phone, profile.id, Some(true), now);
    if user.Err? {
      return Err(IntegrityError);
    }
    r := Ok(user.value);
  }

  /** The tail of `create_client_user` once the directory user is committed: look up the
      organisation's database name (a ValueError without one), then mirror. */
  method MirrorForOrg(server: SqlServer, orgs: seq<Org>, orgId: nat, user: ClientUser, mirrorFault: bool,
                      now: DateTime) returns (r: Result<ClientUser, ServiceError>)
    modifies server
    ensures TenantDatabaseOf(orgs, orgId).None? ==> r == Err(NoTenantDatabase)
    ensures r.Ok? <==> TenantDatabaseOf(orgs, orgId).Some?
                       && MirrorPossible(old(server.databases), TenantDatabaseOf(orgs, orgId).value, mirrorFault)
    ensures r.Ok? ==> r.value == user
                      && var n := TenantDatabaseOf(orgs, orgId).value;
                         server.databases == old(server.databases)[n := MirrorInsert(old(server.databases)[n], user, now)]
    ensures r.Err? ==> server.databases == old(server.databases)
  {
    var target := TenantDatabaseOf(orgs, orgId);
    if target.None? {
      return Err(NoTenantDatabase);
    }
    r := MirrorUser(server, target.value, user, mirrorFault, now);
  }

  /** The mirror step: a tenant session on `name`, one insert, one commit. */
  method MirrorUser(server: SqlServer, name: string, user: ClientUser, mirrorFault: bool, now: DateTime)
    returns (r: Result<ClientUser, ServiceError>)
    modifies server
    ensures r.Ok? <==> MirrorPossible(old(server.databases), name, mirrorFault)
    ensures r.Ok? ==> r.value == user && server.databases == old(server.databases)[name := MirrorInsert(old(server.databases)[name], user, now)]
    ensures r.Err? ==> r == Err(MirrorFailed) && server.databases == old(server.databases)
  {
    if !MirrorPossible(server.databases, name, mirrorFault) {
      return Err(MirrorFailed);
    }
    server.databases := server.databases[name := MirrorInsert(server.databases[name], user, now)];
    r := Ok(user);
  }

  /** The profile step of `create_client_user`: the first profile named "Владелец" or
      "Owner", or else a newly committed "Владелец". */
  method EnsureOwnerProfile(d: Directory, now: DateTime) returns (profile: UserProfile)
    requires d.Valid()
    modifies d
    ensures d.Valid()
    ensures FirstIndex(old(d.profiles), IsOwnerName).Some? ==> d.profiles == old(d.profiles)
    ensures FirstIndex(old(d.profiles), IsOwnerName).None? ==>
              d.profiles == old(d.profiles) + [UserProfile(old(d.nextProfileId), OwnerProfileName, Some(OwnerProfileDescription), Some(now))]
    ensures FirstIndex(d.profiles, IsOwnerName).Some? && d.profiles[FirstIndex(d.profiles, IsOwnerName).value] == profile
    ensures d.ProfileIdExists(profile.id)
    ensures d.orgs == old(d.orgs) && d.admins == old(d.admins) && d.users == old(d.users)
    ensures d.nextOrgId == old(d.nextOrgId) && d.nextUserId == old(d.nextUserId) && d.nextAdminId == old(d.nextAdminId)
  {
    var found := FirstIndex(d.profiles, IsOwnerName);
    if found.Some? {
      profile := d.profiles[found.value];
      return;
    }
    assert forall i :: 0 <= i < |d.profiles| ==> d.profiles[i].name != OwnerProfileName by {
      forall i | 0 <= i < |d.profiles| ensures d.profiles[i].name != OwnerProfileName {
        assert !IsOwnerName(d.profiles[i]);
      }
    }
    var added := d.AddProfile(OwnerProfileName, Some(OwnerProfileDescription), now);
    profile := added.value;
    assert d.profiles[|d.profiles| - 1] == profile;
    assert IsOwnerName(d.profiles[|d.profiles| - 1]);
  }

  /** `authenticate_client_user`: the first directory user with that login; then the
      password; then `is_active` (NULL counts as inactive). A verifier that raises
      propagates. */
  function AuthenticateClientUser(users: seq<ClientUser>, prims: Primitives, login: string, password: string)
    : (r: Result<Option<ClientUser>, ServiceError>)
    ensures FirstIndex(users, (u: ClientUser) => u.login == login).None? ==> r == Ok(None)
    ensures FirstIndex(users, (u: ClientUser) => u.login == login).Some? ==>
              var u := users[FirstIndex(users, (u: ClientUser) => u.login == login).value];
              (r.Err? <==> VerifyPassword(prims, password, u.hashedPassword).None?)
              && (r == Ok(Some(u)) <==> VerifyPassword(prims, password, u.hashedPassword) == Some(true) && IsTrue(u.isActive))
              && (r == Ok(None) <==> VerifyPassword(prims, password, u.hashedPassword) == Some(false)
                                     || (VerifyPassword(prims, password, u.hashedPassword) == Some(true) && !IsTrue(u.isActive)))
    ensures r.Ok? && r.value.Some? ==>
              FirstIndex(users, (u: ClientUser) => u.login == login).Some?
              && r.value.value == users[FirstIndex(users, (u: ClientUser) => u.login == login).value]
              && r.value.value.login == login
  {
    match FirstIndex(users, (u: ClientUser) => u.login == login)
    case None => Ok(None)
    case Some(i) =>
      var u := users[i];
      match VerifyPassword(prims, password, u.hashedPassword)
      case None => Err(VerifyRaised)
      case Some(ok) =>
        if !ok then Ok(None)
        else if !IsTrue(u.isActive) then Ok(None)
        else Ok(Some(u))
  }
}
