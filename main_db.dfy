/** `app/models/main_db.py`: the directory ("main") database. Its tables are fields of
    the `Directory` class; a method changes them at the point where the source commits.
    The `to_dict` serialisations are functions over a row and its related rows. */
module MainDb {
  import opened Wrappers
  import opened Dates
  import opened Rows

  /** `User` (`users`): back-office accounts. */
  datatype AdminUser = AdminUser(
    id: nat, email: string, hashedPassword: string, fullName: Option<string>,
    isActive: Option<bool>, isSuperuser: Option<bool>, createdAt: Option<DateTime>)

  /** `UserProfile` (`user_profiles`); the JSON `permissions` column is not modelled. */
  datatype UserProfile = UserProfile(id: nat, name: string, description: Option<string>, createdAt: Option<DateTime>)

  /** `ClientOrganization` (`client_organizations`): one tenant. The last five columns are
      the legacy contact fields. */
  datatype Org = Org(
    id: nat, databaseName: Option<string>, companyName: Option<string>, notes: Option<string>,
    isActive: Option<bool>, createdAt: Option<DateTime>, updatedAt: Option<DateTime>,
    email: Option<string>, phone: Option<string>, contactPerson: Option<string>,
    login: Option<string>, hashedPassword: Option<string>)

  /** `ClientUser` of the directory (`client_users`). */
  datatype ClientUser = ClientUser(
    id: nat, orgId: nat, email: string, login: string, hashedPassword: string, fullName: string,
    phone: Option<string>, profileId: nat, isActive: Option<bool>, createdAt: Option<DateTime>,
    updatedAt: Option<DateTime>)

  /** Python truthiness of a nullable string column. */
  predicate Truthy(s: Option<string>) {
    s.Some? && s.value != ""
  }

  /** `x or default` for a nullable string. */
  function OrElse(s: Option<string>, default: string): (r: string)
    ensures Truthy(s) ==> r == s.value
    ensures !Truthy(s) ==> r == default
  {
    if Truthy(s) then s.value else default
  }

  /** A tenant is provisioned once its `database_name` is non-empty. */
  predicate HasDatabase(org: Org) {
    Truthy(org.databaseName)
  }

  /** Python truthiness of a nullable boolean column: NULL counts as false. */
  predicate IsTrue(b: Option<bool>) {
    b == Some(true)
  }

  /** `query(ClientOrganization).filter(id == orgId).first()`, as an index into the table. */
  function OrgIndex(orgs: seq<Org>, orgId: int): (r: Option<nat>)
    ensures r.None? <==> forall i :: 0 <= i < |orgs| ==> orgs[i].id != orgId
    ensures r.Some? ==> r.value < |orgs| && orgs[r.value].id == orgId && forall j :: 0 <= j < r.value ==> orgs[j].id != orgId
  {
    FirstIndex(orgs, (o: Org) => o.id == orgId)
  }

  /** The same look-up, as the row (what a relationship attribute loads). */
  function OrgById(orgs: seq<Org>, orgId: int): (r: Option<Org>)
    ensures r.None? <==> OrgIndex(orgs, orgId).None?
    ensures r.Some? ==> r.value == orgs[OrgIndex(orgs, orgId).value] && r.value.id == orgId
  {
    match OrgIndex(orgs, orgId)
    case None => None
    case Some(k) => Some(orgs[k])
  }

  /** The guard `if not org or not org.database_name` of the tenant pages: the
      organisation, when it exists and has a database name. */
  function ProvisionedOrg(orgs: seq<Org>, orgId: int): (r: Option<Org>)
    ensures r.Some? <==> OrgById(orgs, orgId).Some? && HasDatabase(OrgById(orgs, orgId).value)
    ensures r.Some? ==> r == OrgById(orgs, orgId)
  {
    match OrgById(orgs, orgId)
    case Some(o) => if HasDatabase(o) then Some(o) else None
    case None => None
  }

  /** The row once `org.database_name = name` is committed. The unit of work issues an UPDATE,
      and with it the `onupdate` stamp of `updated_at`, only when the value really changed. */
  function Renamed(org: Org, name: string, now: DateTime): (r: Org)
    ensures r.databaseName == Some(name) && r.id == org.id
    ensures org.databaseName == Some(name) ==> r == org
    ensures org.databaseName != Some(name) ==>
              r.updatedAt == Some(now) && r.(databaseName := org.databaseName, updatedAt := org.updatedAt) == org
  {
    if org.databaseName == Some(name) then org else org.(databaseName := Some(name), updatedAt := Some(now))
  }

  const OwnerProfileName := "Владелец"
  const OwnerProfileNameEn := "Owner"

  class Directory {
    var admins: seq<AdminUser>
    var profiles: seq<UserProfile>
    var orgs: seq<Org>
    var users: seq<ClientUser>
    var nextAdminId: nat
    var nextProfileId: nat
    var nextOrgId: nat
    var nextUserId: nat

    /** Primary keys are distinct and below their identity counters, `users.email` and
        `user_profiles.name` are unique, and every client user's organisation and profile
        exist (the two foreign keys). `database_name` has no constraint at all. */
    ghost predicate Valid()
      reads this
    {
      nextAdminId > 0 && nextProfileId > 0 && nextOrgId > 0 && nextUserId > 0
      && AdminsKeyed() && ProfilesKeyed() && OrgsKeyed() && UsersKeyed() && ForeignKeys()
    }

    ghost predicate AdminsKeyed()
      reads this
    {
      (forall i :: 0 <= i < |admins| ==> 0 < admins[i].id < nextAdminId)
      && (forall i, j :: 0 <= i < j < |admins| ==> admins[i].id != admins[j].id && admins[i].email != admins[j].email)
    }

    ghost predicate ProfilesKeyed()
      reads this
    {
      (forall i :: 0 <= i < |profiles| ==> 0 < profiles[i].id < nextProfileId)
      && (forall i, j :: 0 <= i < j < |profiles| ==> profiles[i].id != profiles[j].id && profiles[i].name != profiles[j].name)
    }

    ghost predicate OrgsKeyed()
      reads this
    {
      (forall i :: 0 <= i < |orgs| ==> 0 < orgs[i].id < nextOrgId)
      && (forall i, j :: 0 <= i < j < |orgs| ==> orgs[i].id != orgs[j].id)
    }

    ghost predicate UsersKeyed()
      reads this
    {
      (forall i :: 0 <= i < |users| ==> 0 < users[i].id < nextUserId)
      && (forall i, j :: 0 <= i < j < |users| ==> users[i].id != users[j].id)
    }

    ghost predicate ForeignKeys()
      reads this
    {
      forall i :: 0 <= i < |users| ==> OrgIdExists(users[i].orgId) && ProfileIdExists(users[i].profileId)
    }

    predicate OrgIdExists(id: nat)
      reads this
    {
      exists i :: 0 <= i < |orgs| && orgs[i].id == id
    }

    predicate ProfileIdExists(id: nat)
      reads this
    {
      exists i :: 0 <= i < |profiles| && profiles[i].id == id
    }

    constructor ()
      ensures Valid()
      ensures admins == [] && profiles == [] && orgs == [] && users == []
    {
      admins, profiles, orgs, users := [], [], [], [];
      nextAdminId, nextProfileId, nextOrgId, nextUserId := 1, 1, 1, 1;
    }

    /** `query(ClientOrganization).filter(id == orgId).first()` on this directory. */
    function FindOrg(orgId: int): (r: Option<nat>)
      reads this
      ensures r.None? <==> forall i :: 0 <= i < |orgs| ==> orgs[i].id != orgId
      ensures r.Some? ==> r.value < |orgs| && orgs[r.value].id == orgId
    {
      OrgIndex(orgs, orgId)
    }

    /** Inserts and commits an organisation; the server assigns the next id. */
    method AddOrg(companyName: Option<string>, notes: Option<string>, now: DateTime) returns (org: Org)
      requires Valid()
      modifies this
      ensures Valid()
      ensures org == Org(old(nextOrgId), None, companyName, notes, Some(true), Some(now), Some(now),
                         None, None, None, None, None)
      ensures orgs == old(orgs) + [org] && nextOrgId == old(nextOrgId) + 1
      ensures admins == old(admins) && profiles == old(profiles) && users == old(users)
      ensures nextAdminId == old(nextAdminId) && nextProfileId == old(nextProfileId) && nextUserId == old(nextUserId)
    {
      org := Org(nextOrgId, None, companyName, notes, Some(true), Some(now), Some(now), None, None, None, None, None);
      orgs := orgs + [org];
      nextOrgId := nextOrgId + 1;
      assert forall i :: 0 <= i < |users| ==> OrgIdExists(users[i].orgId) by {
        forall i | 0 <= i < |users| ensures OrgIdExists(users[i].orgId) {
          assert old(OrgIdExists(users[i].orgId));
          var k :| 0 <= k < |old(orgs)| && old(orgs)[k].id == users[i].orgId;
          assert orgs[k] == old(orgs)[k];
        }
      }
    }

    /** `org.database_name = name; db.commit()` for the organisation at index `k`; a commit
        that changes the name also stamps `updated_at`. */
    method SetDatabaseName(k: nat, name: string, now: DateTime)
      requires Valid() && k < |orgs|
      modifies this
      ensures Valid()
      ensures orgs == old(orgs)[k := Renamed(old(orgs)[k], name, now)]
      ensures admins == old(admins) && profiles == old(profiles) && users == old(users)
      ensures nextAdminId == old(nextAdminId) && nextProfileId == old(nextProfileId)
      ensures nextOrgId == old(nextOrgId) && nextUserId == old(nextUserId)
    {
      orgs := orgs[k := Renamed(orgs[k], name, now)];
      assert forall i :: 0 <= i < |users| ==> OrgIdExists(users[i].orgId) by {
        forall i | 0 <= i < |users| ensures OrgIdExists(users[i].orgId) {
          assert old(OrgIdExists(users[i].orgId));
          var j :| 0 <= j < |old(orgs)| && old(orgs)[j].id == users[i].orgId;
          assert orgs[j].id == old(orgs)[j].id;
        }
      }
    }

    /** Inserts and commits a profile; a duplicate name violates the unique constraint and
        nothing is stored. */
    method AddProfile(name: string, description: Option<string>, now: DateTime) returns (r: Result<UserProfile, string>)
      requires Valid()
      modifies this
      ensures Valid()
      ensures r.Err? <==> exists i :: 0 <= i < |old(profiles)| && old(profiles)[i].name == name
      ensures r.Ok? ==> r.value == UserProfile(old(nextProfileId), name, description, Some(now))
                        && profiles == old(profiles) + [r.value] && nextProfileId == old(nextProfileId) + 1
      ensures r.Err? ==> profiles == old(profiles) && nextProfileId == old(nextProfileId)
      ensures admins == old(admins) && orgs == old(orgs) && users == old(users)
      ensures nextAdminId == old(nextAdminId) && nextOrgId == old(nextOrgId) && nextUserId == old(nextUserId)
    {
      if exists i :: 0 <= i < |profiles| && profiles[i].name == name {
        return Err("IntegrityError: user_profiles.name");
      }
      var p := UserProfile(nextProfileId, name, description, Some(now));
      profiles := profiles + [p];
      nextProfileId := nextProfileId + 1;
      r := Ok(p);
      assert forall i :: 0 <= i < |users| ==> ProfileIdExists(users[i].profileId) by {
        forall i | 0 <= i < |users| ensures ProfileIdExists(users[i].profileId) {
          assert old(ProfileIdExists(users[i].profileId));
          var k :| 0 <= k < |old(profiles)| && old(profiles)[k].id == users[i].profileId;
          assert profiles[k] == old(profiles)[k];
        }
      }
    }

    /** Inserts and commits a client user; the commit fails on the foreign keys when the
        organisation or the profile does not exist, and then nothing is stored. */
    method AddUser(orgId: nat, email: string, login: string, hashedPassword: string, fullName: string,
                   phone: Option<string>, profileId: nat, isActive: Option<bool>, now: DateTime)
      returns (r: Result<ClientUser, string>)
      requires Valid()
      modifies this
      ensures Valid()
      ensures r.Err? <==> !old(OrgIdExists(orgId)) || !old(ProfileIdExists(profileId))
      ensures r.Ok? ==> r.value == ClientUser(old(nextUserId), orgId, email, login, hashedPassword, fullName,
                                              phone, profileId, isActive, Some(now), Some(now))
                        && users == old(users) + [r.value] && nextUserId == old(nextUserId) + 1
      ensures r.Err? ==> users == old(users) && nextUserId == old(nextUserId)
      ensures admins == old(admins) && orgs == old(orgs) && profiles == old(profiles)
      ensures nextAdminId == old(nextAdminId) && nextOrgId == old(nextOrgId) && nextProfileId == old(nextProfileId)
    {
      if !OrgIdExists(orgId) || !ProfileIdExists(profileId) {
        return Err("IntegrityError: client_users foreign key");
      }
      var u := ClientUser(nextUserId, orgId, email, login, hashedPassword, fullName, phone, profileId,
                          isActive, Some(now), Some(now));
      users := users + [u];
      nextUserId := nextUserId + 1;
      r := Ok(u);
    }

    /** Inserts and commits a back-office user; a duplicate email violates the unique
        constraint and nothing is stored. */
    method AddAdmin(email: string, hashedPassword: string, fullName: Option<string>, isSuperuser: bool, now: DateTime)
      returns (r: Result<AdminUser, string>)
      requires Valid()
      modifies this
      ensures Valid()
      ensures r.Err? <==> exists i :: 0 <= i < |old(admins)| && old(admins)[i].email == email
      ensures r.Ok? ==> r.value == AdminUser(old(nextAdminId), email, hashedPassword, fullName, Some(true),
                                             Some(isSuperuser), Some(now))
                        && admins == old(admins) + [r.value] && nextAdminId == old(nextAdminId) + 1
      ensures r.Err? ==> admins == old(admins) && nextAdminId == old(nextAdminId)
      ensures profiles == old(profiles) && orgs == old(orgs) && users == old(users)
      ensures nextProfileId == old(nextProfileId) && nextOrgId == old(nextOrgId) && nextUserId == old(nextUserId)
    {
      if exists i :: 0 <= i < |admins| && admins[i].email == email {
        return Err("IntegrityError: users.email");
      }
      var a := AdminUser(nextAdminId, email, hashedPassword, fullName, Some(true), Some(isSuperuser), Some(now));
      admins := admins + [a];
      nextAdminId := nextAdminId + 1;
      r := Ok(a);
    }
  }

  /** `database_name` carries no uniqueness constraint: a valid directory can hold two
      organisations bound to the same tenant database. This is a witness for that one
      case, not a statement about all directories. */
  method SharedDatabaseNameIsValid(now: DateTime) returns (d: Directory)
    ensures d.Valid() && |d.orgs| == 2
    ensures d.orgs[0].id != d.orgs[1].id
    ensures d.orgs[0].databaseName == d.orgs[1].databaseName == Some("client_1")
  {
    d := new Directory();
    var a := d.AddOrg(Some("A"), None, now);
    var b := d.AddOrg(Some("B"), None, now);
    d.SetDatabaseName(0, "client_1", now);
    d.SetDatabaseName(1, "client_1", now);
  }

  /** A directory user together with the profile its `profile` relationship loads. */
  datatype UserWithProfile = UserWithProfile(user: ClientUser, profile: Option<UserProfile>)

  predicate IsOwnerProfile(u: UserWithProfile) {
    u.profile.Some? && u.profile.value.name == OwnerProfileName
  }

  /** The owner `to_dict` picks: the first user whose profile is "Владелец", else the
      first user, and none when there are no users. */
  function OwnerIndex(users: seq<UserWithProfile>): (r: Option<nat>)
    ensures r.None? <==> users == []
    ensures r.Some? ==> r.value < |users|
    ensures r.Some? && IsOwnerProfile(users[r.value]) ==> forall j :: 0 <= j < r.value ==> !IsOwnerProfile(users[j])
    ensures r.Some? && !IsOwnerProfile(users[r.value]) ==> r.value == 0 && forall j :: 0 <= j < |users| ==> !IsOwnerProfile(users[j])
    ensures (exists j :: 0 <= j < |users| && IsOwnerProfile(users[j])) ==> r.Some? && IsOwnerProfile(users[r.value])
  {
    match FirstIndex(users, IsOwnerProfile)
    case Some(i) => Some(i)
    case None => if users == [] then None else Some(0)
  }

  /** The dictionary `ClientOrganization.to_dict()` returns. */
  datatype OrgDict = OrgDict(
    id: nat, databaseName: Option<string>, companyName: Option<string>, notes: Option<string>,
    isActive: Option<bool>, createdAt: Option<string>, usersCount: nat,
    email: Option<string>, phone: Option<string>, contactPerson: Option<string>, login: Option<string>)

  function IsoOrNone(t: Option<DateTime>): Option<string> {
    if t.Some? && ValidDateTime(t.value) then Some(IsoFormat(t.value)) else None
  }

  /** `ClientOrganization.to_dict()`, given the organisation's users in relationship order. */
  function OrgToDict(org: Org, users: seq<UserWithProfile>): (r: OrgDict)
    ensures r.id == org.id && r.databaseName == org.databaseName && r.companyName == org.companyName
    ensures r.notes == org.notes && r.isActive == org.isActive
    ensures r.usersCount == |users|
    ensures org.createdAt.None? ==> r.createdAt.None?
    ensures org.createdAt.Some? && ValidDateTime(org.createdAt.value) ==> r.createdAt == Some(IsoFormat(org.createdAt.value))
    ensures users == [] ==> r.email == org.email && r.phone == org.phone
                            && r.contactPerson == org.contactPerson && r.login == org.login
    ensures users != [] ==> exists i :: (0 <= i < |users|
              && r.email == Some(users[i].user.email) && r.phone == users[i].user.phone
              && r.contactPerson == Some(users[i].user.fullName) && r.login == Some(users[i].user.login)
              && (IsOwnerProfile(users[i]) || (i == 0 && forall j :: 0 <= j < |users| ==> !IsOwnerProfile(users[j])))
              && forall j :: 0 <= j < i ==> !IsOwnerProfile(users[j]))
  {
    var owner := OwnerIndex(users);
    var base := OrgDict(org.id, org.databaseName, org.companyName, org.notes, org.isActive,
                        IsoOrNone(org.createdAt), |users|, org.email, org.phone, org.contactPerson, org.login);
    match owner
    case None => base
    case Some(i) =>
      var u := users[i].user;
      base.(email := Some(u.email), phone := u.phone, contactPerson := Some(u.fullName), login := Some(u.login))
  }

  /** The dictionary `ClientUser.to_dict()` returns. */
  datatype UserDict = UserDict(
    id: nat, orgId: nat, companyName: Option<string>, email: string, login: string, fullName: string,
    phone: Option<string>, profileId: nat, profileName: Option<string>, isActive: Option<bool>,
    databaseName: Option<string>, createdAt: Option<string>)

  /** `ClientUser.to_dict()`, given the rows its two relationships load. */
  function UserToDict(u: ClientUser, org: Option<Org>, profile: Option<UserProfile>): (r: UserDict)
    ensures org.None? ==> r.companyName.None? && r.databaseName.None?
    ensures org.Some? ==> r.companyName == org.value.companyName && r.databaseName == org.value.databaseName
    ensures profile.None? <==> r.profileName.None?
    ensures profile.Some? ==> r.profileName == Some(profile.value.name)
    ensures r.id == u.id && r.orgId == u.orgId && r.email == u.email && r.login == u.login
    ensures r.fullName == u.fullName && r.phone == u.phone && r.profileId == u.profileId && r.isActive == u.isActive
    ensures u.createdAt.None? ==> r.createdAt.None?
    ensures u.createdAt.Some? && ValidDateTime(u.createdAt.value) ==> r.createdAt == Some(IsoFormat(u.createdAt.value))
  {
    UserDict(u.id, u.orgId,
             if org.Some? then org.value.companyName else None,
             u.email, u.login, u.fullName, u.phone, u.profileId,
             if profile.Some? then Some(profile.value.name) else None,
             u.isActive,
             if org.Some? then org.value.databaseName else None,
             IsoOrNone(u.createdAt))
  }
}
