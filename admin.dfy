/** `app/routes/admin.py`: registration of a tenant from a JSON body, and the manual
    (re)provisioning of a tenant's database. */
module Admin {
  import opened Wrappers
  import opened Text
  import opened Config
  import opened Dates
  import opened Http
  import opened TenantSchema
  import opened MainDb
  import opened ClientDbManager
  import opened Rows
  import opened Security
  import UserService

  /** A JSON value as far as this code looks at it: a string, or anything else (null, a
      number, ...), on which `.strip()` raises. */
  datatype JsonValue = JStr(s: string) | JNonString

  type Payload = map<string, JsonValue>

  /** `data.get(key, "").strip()`: None where the value is not a string. */
  function GetStripped(data: Payload, key: string): (r: Option<string>)
    ensures key !in data ==> r == Some("")
    ensures key in data && data[key].JStr? ==> r == Some(Strip(data[key].s))
    ensures key in data && data[key].JNonString? ==> r.None?
  {
    if key !in data then Some("")
    else match data[key]
      case JStr(s) => Some(Strip(s))
      case JNonString => None
  }

  datatype Registration = Registration(
    companyName: string, notes: string, email: string, phone: string,
    contactPerson: string, login: string, password: string)

  const RegistrationFailed := "Ошибка регистрации клиента"
  const NoCompanyName := "Не указано название организации."
  const NoCredentials := "Не указан логин или пароль пользователя."
  const NoEmail := "Не указан email пользователя."

  /** Every field the handler reads is absent or a string. */
  predicate TextOnly(data: Payload) {
    GetStripped(data, "company_name").Some? && GetStripped(data, "notes").Some?
    && GetStripped(data, "email").Some? && GetStripped(data, "phone").Some?
    && GetStripped(data, "contact_person").Some? && GetStripped(data, "login").Some?
    && GetStripped(data, "password").Some?
  }

  /** The seven fields, each defaulted to "" and stripped; any non-string field makes the
      handler answer 500 before validation. */
  function ParseRegistration(data: Payload): (r: Result<Registration, HttpError>)
    ensures r.Ok? <==> TextOnly(data)
    ensures r.Err? ==> r.error == HttpError(InternalError, RegistrationFailed)
    ensures r.Ok? ==> r.value.companyName == GetStripped(data, "company_name").value
                      && r.value.login == GetStripped(data, "login").value
                      && r.value.password == GetStripped(data, "password").value
                      && r.value.email == GetStripped(data, "email").value
                      && r.value.notes == GetStripped(data, "notes").value
                      && r.value.phone == GetStripped(data, "phone").value
                      && r.value.contactPerson == GetStripped(data, "contact_person").value
  {
    if !TextOnly(data) then Err(HttpError(InternalError, RegistrationFailed))
    else Ok(Registration(
      GetStripped(data, "company_name").value, GetStripped(data, "notes").value,
      GetStripped(data, "email").value, GetStripped(data, "phone").value,
      GetStripped(data, "contact_person").value, GetStripped(data, "login").value,
      GetStripped(data, "password").value))
  }

  /** The three checks, in order: company name, then login and password, then email. */
  function ValidateRegistration(reg: Registration): (r: Option<HttpError>)
    ensures r.None? <==> reg.companyName != "" && reg.login != "" && reg.password != "" && reg.email != ""
    ensures r.Some? ==> r.value.status == BadRequest
  {
    if reg.companyName == "" then Some(HttpError(BadRequest, NoCompanyName))
    else if reg.login == "" || reg.password == "" then Some(HttpError(BadRequest, NoCredentials))
    else if reg.email == "" then Some(HttpError(BadRequest, NoEmail))
    else None
  }

  /** The raw value of a text field, "" when absent. */
  function Raw(data: Payload, key: string): string
    requires key !in data || data[key].JStr?
  {
    if key in data then data[key].s else ""
  }

  /** Validation seen from the raw payload: a field counts as given exactly when it holds a
      non-whitespace character, and the first missing one in the order company name,
      login/password, email decides the message. A whitespace-only password is refused. */
  lemma ValidationOnRawPayload(data: Payload)
    requires TextOnly(data)
    ensures var reg := ParseRegistration(data).value;
            var v := ValidateRegistration(reg);
            (AllSpace(Raw(data, "company_name")) ==> v == Some(HttpError(BadRequest, NoCompanyName)))
            && ((!AllSpace(Raw(data, "company_name")) && (AllSpace(Raw(data, "login")) || AllSpace(Raw(data, "password"))))
                ==> v == Some(HttpError(BadRequest, NoCredentials)))
            && ((!AllSpace(Raw(data, "company_name")) && !AllSpace(Raw(data, "login")) && !AllSpace(Raw(data, "password"))
                 && AllSpace(Raw(data, "email"))) ==> v == Some(HttpError(BadRequest, NoEmail)))
            && (v.None? <==> !AllSpace(Raw(data, "company_name")) && !AllSpace(Raw(data, "login"))
                             && !AllSpace(Raw(data, "password")) && !AllSpace(Raw(data, "email")))
  {
    StrippedIsEmptyIffBlank(data, "company_name");
    StrippedIsEmptyIffBlank(data, "login");
    StrippedIsEmptyIffBlank(data, "password");
    StrippedIsEmptyIffBlank(data, "email");
  }

  lemma StrippedIsEmptyIffBlank(data: Payload, key: string)
    requires key !in data || data[key].JStr?
    ensures GetStripped(data, key).Some?
    ensures GetStripped(data, key).value == "" <==> AllSpace(Raw(data, key))
  {
    StripEmptyIff(Raw(data, key));
  }

  /** `contact_person or login`. */
  function OwnerFullName(reg: Registration): (r: string)
    ensures reg.contactPerson != "" ==> r == reg.contactPerson
    ensures reg.contactPerson == "" ==> r == reg.login
  {
    if reg.contactPerson != "" then reg.contactPerson else reg.login
  }

  /** What the registration endpoint answers. */
  datatype RegisterResponse =
    | Registered(clientId: nat, databaseName: Option<string>, message: string)   // 201
    | RegisterFailed(error: HttpError)

  /** A new organisation gets the mirror target it was provisioned with: its id is above
      every earlier id, so the first organisation with that id is the new one. */
  lemma NewOrgIsFirstWithId(orgs: seq<Org>, org: Org)
    requires forall i :: 0 <= i < |orgs| ==> orgs[i].id < org.id
    requires HasDatabase(org)
    ensures UserService.TenantDatabaseOf(orgs + [org], org.id) == Some(org.databaseName.value)
  {
    var all := orgs + [org];
    var p := (o: Org) => o.id == org.id;
    assert forall i :: 0 <= i < |orgs| ==> !p(all[i]);
    assert p(all[|orgs|]);
  }

  /** Whether provisioning the organisation that registration inserts succeeds. */
  predicate ProvisionSucceeds(dbs: map<string, TenantDb>, id: nat, reg: Registration, fault: Fault, now: DateTime) {
    Provision(dbs, OrgObject(UserService.InsertedOrg(id, reg.companyName, Some(reg.notes), now)),
              Some(DefaultDbName(id)), fault, now).result.Ok?
  }

  /** `POST /clients`. Nothing is written before validation passes. */
  method RegisterClient(d: Directory, server: SqlServer, prims: Primitives, data: Payload,
                        fault: Fault, mirrorFault: bool, now: DateTime) returns (resp: RegisterResponse)
    requires d.Valid()
    modifies d, server
    ensures d.Valid()
    ensures ParseRegistration(data).Err? ==>
              resp == RegisterFailed(ParseRegistration(data).error)
              && d.orgs == old(d.orgs) && d.users == old(d.users) && server.databases == old(server.databases)
    ensures ParseRegistration(data).Ok? && ValidateRegistration(ParseRegistration(data).value).Some? ==>
              resp == RegisterFailed(ValidateRegistration(ParseRegistration(data).value).value)
              && d.orgs == old(d.orgs) && d.users == old(d.users) && server.databases == old(server.databases)
    ensures ParseRegistration(data).Err? || ValidateRegistration(ParseRegistration(data).value).Some? ==>
              d.profiles == old(d.profiles)
    ensures d.admins == old(d.admins)
    ensures ParseRegistration(data).Ok? && ValidateRegistration(ParseRegistration(data).value).None? ==>
              var reg := ParseRegistration(data).value;
              RegisterOutcome(reg, resp, old(d.orgs), d.orgs, old(d.users), d.users, old(d.nextOrgId),
                              old(server.databases), fault, mirrorFault, now)
              && RegisterEffects(reg, prims, old(d.users), d.users, old(d.profiles), d.profiles, old(d.nextUserId),
                                 old(d.nextProfileId), old(d.nextOrgId), old(server.databases), server.databases,
                                 fault, mirrorFault, now)
  {
    var parsed := ParseRegistration(data);
    if parsed.Err? {
      return RegisterFailed(parsed.error);
    }
    var reg := parsed.value;
    var invalid := ValidateRegistration(reg);
    if invalid.Some? {
      return RegisterFailed(invalid.value);
    }
    resp := RegisterValidated(d, server, prims, reg, fault, mirrorFault, now);
  }

  /** What registration of a validated request leaves: the organisation is committed
      whatever happens next, named `client_{id}` when provisioning succeeded and unnamed
      otherwise; the answer is 201 exactly when provisioning and the owner's
      mirror both succeed, and carries the new id and `client_{id}`; otherwise it is 500. */
  ghost predicate RegisterOutcome(reg: Registration, resp: RegisterResponse, orgs0: seq<Org>, orgs1: seq<Org>,
                                  users0: seq<ClientUser>, users1: seq<ClientUser>, nextOrgId: nat,
                                  dbs0: map<string, TenantDb>, fault: Fault, mirrorFault: bool, now: DateTime)
  {
    |orgs1| == |orgs0| + 1 && orgs1[..|orgs0|] == orgs0
    && orgs1[|orgs0|].id == nextOrgId && orgs1[|orgs0|].isActive == Some(true)
    && orgs1[|orgs0|].companyName == Some(reg.companyName)
    && orgs1[|orgs0|] == (var o := UserService.InsertedOrg(nextOrgId, reg.companyName, Some(reg.notes), now);
                          if ProvisionSucceeds(dbs0, nextOrgId, reg, fault, now)
                          then o.(databaseName := Some(DefaultDbName(nextOrgId))) else o)
    && (resp.Registered? <==> ProvisionSucceeds(dbs0, nextOrgId, reg, fault, now) && !mirrorFault)
    && (resp.Registered? ==>
          resp.clientId == nextOrgId && resp.databaseName == Some(DefaultDbName(nextOrgId))
          && resp.message == "Клиент '" + reg.companyName + "' успешно зарегистрирован."
          && |users1| == |users0| + 1 && users1[|users0|].orgId == nextOrgId
          && users1[|users0|].fullName == OwnerFullName(reg) && users1[|users0|].login == reg.login)
    && (resp.RegisterFailed? ==> resp.error == HttpError(InternalError, RegistrationFailed))
  }

  /** What registration of a validated request does to the users, profiles and tenant
      databases. When provisioning fails nothing but the organisation was written. Otherwise
      the owner profile is found or created, the owner's directory user is committed (it
      stays even when its mirror then fails; the rollback comes after that commit), and the
      mirror row goes into the new `client_{id}` unless the mirror fails. */
  ghost predicate RegisterEffects(reg: Registration, prims: Primitives, users0: seq<ClientUser>, users1: seq<ClientUser>,
                                  profiles0: seq<UserProfile>, profiles1: seq<UserProfile>, nextUserId: nat,
                                  nextProfileId: nat, nextOrgId: nat, dbs0: map<string, TenantDb>,
                                  dbs1: map<string, TenantDb>, fault: Fault, mirrorFault: bool, now: DateTime)
  {
    var n := DefaultDbName(nextOrgId);
    var o := Provision(dbs0, OrgObject(UserService.InsertedOrg(nextOrgId, reg.companyName, Some(reg.notes), now)),
                       Some(n), fault, now);
    (o.result.Err? ==> dbs1 == o.dbs && users1 == users0 && profiles1 == profiles0)
    && (o.result.Ok? ==> OwnerEffects(reg, prims, users0, users1, profiles0, profiles1, nextUserId, nextProfileId,
                                      nextOrgId, o.dbs, dbs1, mirrorFault, now))
  }

  /** What committing the owner of organisation `orgId` does, from the tables as they were
      after provisioning (`dbs0`). */
  ghost predicate OwnerEffects(reg: Registration, prims: Primitives, users0: seq<ClientUser>, users1: seq<ClientUser>,
                               profiles0: seq<UserProfile>, profiles1: seq<UserProfile>, nextUserId: nat,
                               nextProfileId: nat, orgId: nat, dbs0: map<string, TenantDb>,
                               dbs1: map<string, TenantDb>, mirrorFault: bool, now: DateTime)
  {
    var n := DefaultDbName(orgId);
    (FirstIndex(profiles0, UserService.IsOwnerName).Some? ==> profiles1 == profiles0)
    && (FirstIndex(profiles0, UserService.IsOwnerName).None? ==>
          profiles1 == profiles0 + [UserProfile(nextProfileId, OwnerProfileName, Some(UserService.OwnerProfileDescription), Some(now))])
    && FirstIndex(profiles1, UserService.IsOwnerName).Some?
    && users1 == users0 + [ClientUser(nextUserId, orgId, reg.email, reg.login, GetPasswordHash(prims, reg.password),
                                      OwnerFullName(reg), Some(reg.phone),
                                      profiles1[FirstIndex(profiles1, UserService.IsOwnerName).value].id,
                                      Some(true), Some(now), Some(now))]
    && (mirrorFault ==> dbs1 == dbs0)
    && (!mirrorFault ==> n in dbs0 && dbs1 == dbs0[n := UserService.MirrorInsert(dbs0[n], users1[|users0|], now)])
  }

  /** The part of `POST /clients` after validation. */
  method RegisterValidated(d: Directory, server: SqlServer, prims: Primitives, reg: Registration,
                           fault: Fault, mirrorFault: bool, now: DateTime) returns (resp: RegisterResponse)
    requires d.Valid()
    modifies d, server
    ensures d.Valid()
    ensures RegisterOutcome(reg, resp, old(d.orgs), d.orgs, old(d.users), d.users, old(d.nextOrgId),
                            old(server.databases), fault, mirrorFault, now)
    ensures RegisterEffects(reg, prims, old(d.users), d.users, old(d.profiles), d.profiles, old(d.nextUserId),
                            old(d.nextProfileId), old(d.nextOrgId), old(server.databases), server.databases,
                            fault, mirrorFault, now)
    ensures d.admins == old(d.admins)
  {
    ghost var orgsBefore := d.orgs;
    var org := UserService.CreateClientOrganization(d, server, reg.companyName, Some(reg.notes), fault, now);
    if org.Err? {
      return RegisterFailed(HttpError(InternalError, RegistrationFailed));
    }
    assert d.orgs == orgsBefore + [org.value];
    ghost var inserted := UserService.InsertedOrg(old(d.nextOrgId), reg.companyName, Some(reg.notes), now);
    ProvisionSuccess(old(server.databases), OrgObject(inserted), Some(DefaultDbName(inserted.id)), fault, now);
    assert ClientUsersTable in AllTables;
    assert UserService.MirrorPossible(server.databases, DefaultDbName(org.value.id), mirrorFault) <==> !mirrorFault;
    NewOrgIsFirstWithId(orgsBefore, org.value);
    assert d.OrgIdExists(org.value.id) by {
      assert d.orgs[|d.orgs| - 1].id == org.value.id;
    }
    resp := RegisterOwner(d, server, prims, reg, org.value, mirrorFault, now);
  }

  /** Registration once the organisation is provisioned: the owner's directory user, then
      its mirror in the organisation's tenant database. */
  method RegisterOwner(d: Directory, server: SqlServer, prims: Primitives, reg: Registration, org: Org,
                       mirrorFault: bool, now: DateTime) returns (resp: RegisterResponse)
    requires d.Valid() && d.OrgIdExists(org.id)
    requires org.databaseName == Some(DefaultDbName(org.id))
    requires UserService.TenantDatabaseOf(d.orgs, org.id) == org.databaseName
    requires UserService.MirrorPossible(server.databases, DefaultDbName(org.id), mirrorFault) <==> !mirrorFault
    modifies d, server
    ensures d.Valid() && d.orgs == old(d.orgs) && d.admins == old(d.admins)
    ensures resp.Registered? <==> !mirrorFault
    ensures resp.Registered? ==> resp == Registered(org.id, org.databaseName, "Клиент '" + reg.companyName + "' успешно зарегистрирован.")
    ensures resp.RegisterFailed? ==> resp.error == HttpError(InternalError, RegistrationFailed)
    ensures FirstIndex(old(d.profiles), UserService.IsOwnerName).Some? ==> d.profiles == old(d.profiles)
    ensures FirstIndex(old(d.profiles), UserService.IsOwnerName).None? ==>
              d.profiles == old(d.profiles) + [UserProfile(old(d.nextProfileId), OwnerProfileName,
                                                           Some(UserService.OwnerProfileDescription), Some(now))]
    ensures FirstIndex(d.profiles, UserService.IsOwnerName).Some?
    ensures d.users == old(d.users) + [ClientUser(old(d.nextUserId), org.id, reg.email, reg.login, GetPasswordHash(prims, reg.password),
                                                  OwnerFullName(reg), Some(reg.phone),
                                                  d.profiles[FirstIndex(d.profiles, UserService.IsOwnerName).value].id,
                                                  Some(true), Some(now), Some(now))]
    ensures mirrorFault ==> server.databases == old(server.databases)
    ensures !mirrorFault ==>
              var n := DefaultDbName(org.id);
              n in old(server.databases)
              && server.databases == old(server.databases)[n := UserService.MirrorInsert(old(server.databases)[n], d.users[|old(d.users)|], now)]
    ensures OwnerEffects(reg, prims, old(d.users), d.users, old(d.profiles), d.profiles, old(d.nextUserId), old(d.nextProfileId),
                         org.id, old(server.databases), server.databases, mirrorFault, now)
  {
    var user := UserService.CreateClientUser(d, server, prims, org.id, reg.email, reg.login, reg.password,
                                             OwnerFullName(reg), Some(reg.phone), mirrorFault, now);
    if user.Err? {
      return RegisterFailed(HttpError(InternalError, RegistrationFailed));
    }
    resp := Registered(org.id, org.databaseName, "Клиент '" + reg.companyName + "' успешно зарегистрирован.");
  }

  /** `client.database_name or f"client_{client.id}"`. */
  function DesiredName(org: Org): (r: string)
    ensures HasDatabase(org) ==> r == org.databaseName.value
    ensures !HasDatabase(org) ==> r == DefaultDbName(org.id)
  {
    OrElse(org.databaseName, DefaultDbName(org.id))
  }

  /** Once the name is recorded, the next request asks for the same name again. */
  lemma DesiredNameStable(org: Org)
    ensures DesiredName(org.(databaseName := Some(DesiredName(org)))) == DesiredName(org)
  {
  }

  const ClientNotFound := "Клиент не найден"
  const DatabaseCreationFailed := "Ошибка создания БД"

  datatype CreateDatabaseResponse =
    | DatabaseReady(databaseName: string, message: string)
    | ProvisionRefused(error: HttpError)

  /** `POST /clients/{client_id}/create-database`. */
  method CreateDatabaseForClient(d: Directory, server: SqlServer, clientId: int, fault: Fault, now: DateTime)
    returns (resp: CreateDatabaseResponse)
    requires d.Valid()
    modifies d, server
    ensures d.Valid()
    ensures d.users == old(d.users) && d.profiles == old(d.profiles) && d.admins == old(d.admins) && |d.orgs| == |old(d.orgs)|
    ensures old(d.FindOrg(clientId)).None? ==>
              resp == ProvisionRefused(HttpError(NotFound, ClientNotFound))
              && d.orgs == old(d.orgs) && server.databases == old(server.databases)
    ensures old(d.FindOrg(clientId)).Some? ==>
              var k := old(d.FindOrg(clientId)).value;
              var org := old(d.orgs)[k];
              var o := Provision(old(server.databases), OrgObject(org), Some(DesiredName(org)), fault, now);
              server.databases == o.dbs
              && (o.result.Ok? ==> resp == DatabaseReady(DesiredName(org), "База данных '" + DesiredName(org) + "' успешно создана.")
                                   && d.orgs == old(d.orgs)[k := Renamed(org, DesiredName(org), now)])
              && (o.result.Err? ==> resp == ProvisionRefused(HttpError(InternalError, DatabaseCreationFailed))
                                    && d.orgs == old(d.orgs))
  {
    var k := d.FindOrg(clientId);
    if k.None? {
      return ProvisionRefused(HttpError(NotFound, ClientNotFound));
    }
    var org := d.orgs[k.value];
    var desired := DesiredName(org);
    var created := server.CreateClientDatabase(OrgObject(org), Some(desired), fault, now);
    if created.Err? {
      return ProvisionRefused(HttpError(InternalError, DatabaseCreationFailed));
    }
    d.SetDatabaseName(k.value, created.value, now);
    resp := DatabaseReady(created.value, "База данных '" + created.value + "' успешно создана.");
  }
}
