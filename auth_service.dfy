/** `app/services/auth_service.py`: back-office accounts, their login and their tokens. */
module AuthService {
  import opened Wrappers
  import opened Config
  import opened Dates
  import opened Rows
  import opened MainDb
  import opened Security

  predicate HasEmail(u: AdminUser, email: string) {
    u.email == email
  }

  /** `authenticate_user`: the first account with that email, if the password verifies;
      `is_active` is not looked at. Python's False is None here; a verifier that raises
      propagates as Err. */
  function AuthenticateUser(admins: seq<AdminUser>, prims: Primitives, email: string, password: string)
    : (r: Result<Option<AdminUser>, string>)
    ensures FirstIndex(admins, (u: AdminUser) => HasEmail(u, email)).None? ==> r == Ok(None)
    ensures FirstIndex(admins, (u: AdminUser) => HasEmail(u, email)).Some? ==>
              var u := admins[FirstIndex(admins, (u: AdminUser) => HasEmail(u, email)).value];
              (r == Ok(Some(u)) <==> VerifyPassword(prims, password, u.hashedPassword) == Some(true))
              && (r == Ok(None) <==> VerifyPassword(prims, password, u.hashedPassword) == Some(false))
    ensures r.Ok? && r.value.Some? ==> r.value.value in admins && r.value.value.email == email
  {
    match FirstIndex(admins, (u: AdminUser) => HasEmail(u, email))
    case None => Ok(None)
    case Some(i) =>
      match VerifyPassword(prims, password, admins[i].hashedPassword)
      case None => Err("passlib could not identify the stored hash")
      case Some(ok) => if ok then Ok(Some(admins[i])) else Ok(None)
  }

  /** An inactive account authenticates like an active one: changing any account's
      `is_active` never changes whether a login succeeds. */
  lemma AuthenticateIgnoresActiveFlag(admins: seq<AdminUser>, prims: Primitives, email: string, password: string, i: nat, flag: Option<bool>)
    requires i < |admins|
    ensures var r1 := AuthenticateUser(admins, prims, email, password);
            var r2 := AuthenticateUser(admins[i := admins[i].(isActive := flag)], prims, email, password);
            r1.Ok? == r2.Ok? && (r1.Ok? ==> r1.value.Some? == r2.value.Some?)
  {
    var b := admins[i := admins[i].(isActive := flag)];
    var p := (u: AdminUser) => HasEmail(u, email);
    assert forall j :: 0 <= j < |admins| ==> (p(b[j]) <==> p(admins[j]));
    FirstIndexSameMatches(admins, b, p);
  }

  /** Two lists that agree on which positions match yield the same first match. */
  lemma {:induction false} FirstIndexSameMatches<T>(a: seq<T>, b: seq<T>, p: T -> bool)
    requires |a| == |b| && forall j :: 0 <= j < |a| ==> (p(b[j]) <==> p(a[j]))
    ensures FirstIndex(a, p) == FirstIndex(b, p)
  {
    if a != [] {
      FirstIndexSameMatches(a[1..], b[1..], p);
    }
  }

  /** `create_user`: the stored password is the hash, `is_superuser` defaults to False and
      the new account is active. A duplicate email is rejected by the unique constraint. */
  method CreateUser(d: Directory, prims: Primitives, email: string, password: string, fullName: string,
                    isSuperuser: Option<bool>, now: DateTime) returns (r: Result<AdminUser, string>)
    requires d.Valid()
    modifies d
    ensures d.Valid()
    ensures r.Err? <==> exists i :: 0 <= i < |old(d.admins)| && old(d.admins)[i].email == email
    ensures r.Ok? ==> d.admins == old(d.admins) + [r.value]
                      && r.value.hashedPassword == GetPasswordHash(prims, password)
                      && r.value.isSuperuser == Some(isSuperuser.GetOr(false)) && r.value.isActive == Some(true)
                      && r.value.email == email && r.value.fullName == Some(fullName)
    ensures r.Err? ==> d.admins == old(d.admins)
    ensures d.orgs == old(d.orgs) && d.users == old(d.users) && d.profiles == old(d.profiles)
  {
    var hashed := GetPasswordHash(prims, password);
    r := d.AddAdmin(email, hashed, Some(fullName), isSuperuser.GetOr(false), now);
  }

  /** `create_access_token_for_user`: `sub` is the email, `user_id` the id, and the lifetime
      `ACCESS_TOKEN_EXPIRE_MINUTES` minutes, a zero setting falling back to 15 minutes. */
  function CreateAccessTokenForUser(cfg: Settings, u: AdminUser, now: int): (t: Token)
    ensures t.claims.Keys == {"sub", "user_id", "exp"}
    ensures t.claims["sub"] == StrClaim(u.email) && t.claims["user_id"] == IntClaim(u.id)
    ensures cfg.accessTokenExpireMinutes != 0 ==> t.claims["exp"] == TimeClaim(now + 60 * cfg.accessTokenExpireMinutes)
    ensures cfg.accessTokenExpireMinutes == 0 ==> t.claims["exp"] == TimeClaim(now + 15 * 60)
  {
    CreateAccessToken(cfg, map["sub" := StrClaim(u.email), "user_id" := IntClaim(u.id)],
                      Some(cfg.accessTokenExpireMinutes * 60), now)
  }
}
