/** `app/routes/client_auth.py`: the tenant user login endpoint, a decision chain over
    the directory user and its organisation. */
module ClientAuth {
  import opened Wrappers
  import opened Text
  import opened Config
  import opened Http
  import opened Rows
  import opened MainDb
  import UserService

  const BadCredentials := "Неверный логин или пароль"
  const AccountDeactivated := "Ваш аккаунт деактивирован"
  const NoDatabaseYet := "База данных для вашего аккаунта еще не создана. Обратитесь к администратору."
  const ServerError := "Внутренняя ошибка сервера"

  datatype LoginResponse =
    | LoggedIn(redirectUrl: string, clientId: nat, userName: string)
    | LoginRefused(error: HttpError)

  /** `f"/client/{id}/dashboard"`. */
  function DashboardUrl(id: nat): string {
    "/client/" + NatToString(id) + "/dashboard"
  }

  /** The redirect names the organisation unambiguously. */
  lemma DashboardUrlInjective(a: nat, b: nat)
    requires DashboardUrl(a) == DashboardUrl(b)
    ensures a == b
  {
    var sa, sb := NatToString(a), NatToString(b);
    assert |sa| == |sb|;
    assert sa == DashboardUrl(a)[8..8 + |sa|];
    assert sb == DashboardUrl(b)[8..8 + |sb|];
    NatToStringInjective(a, b);
  }

  /** `client_login`. `user.client_organization` is the organisation row the user's
      foreign key points at; reading `is_active` on a missing one raises, which the
      handler turns into 500 like any other error. */
  function ClientLogin(users: seq<ClientUser>, orgs: seq<Org>, prims: Primitives, login: string, password: string)
    : (r: LoginResponse)
    ensures var auth := UserService.AuthenticateClientUser(users, prims, login, password);
            (auth.Err? ==> r == LoginRefused(HttpError(InternalError, ServerError)))
            && (auth == Ok(None) ==> r == LoginRefused(HttpError(Unauthorized, BadCredentials)))
    ensures var auth := UserService.AuthenticateClientUser(users, prims, login, password);
            auth.Ok? && auth.value.Some? ==>
              var u := auth.value.value;
              var org := OrgById(orgs, u.orgId);
              (org.None? ==> r == LoginRefused(HttpError(InternalError, ServerError)))
              && (org.Some? && !IsTrue(org.value.isActive) ==> r == LoginRefused(HttpError(BadRequest, AccountDeactivated)))
              && (org.Some? && IsTrue(org.value.isActive) && !HasDatabase(org.value) ==>
                    r == LoginRefused(HttpError(BadRequest, NoDatabaseYet)))
              && (org.Some? && IsTrue(org.value.isActive) && HasDatabase(org.value) ==>
                    r == LoggedIn(DashboardUrl(u.orgId), u.orgId, u.fullName))
    ensures r.LoggedIn? <==>
              var auth := UserService.AuthenticateClientUser(users, prims, login, password);
              auth.Ok? && auth.value.Some? && UserService.TenantDatabaseOf(orgs, auth.value.value.orgId).Some?
              && IsTrue(OrgById(orgs, auth.value.value.orgId).value.isActive)
    ensures r.LoggedIn? ==>
              var u := UserService.AuthenticateClientUser(users, prims, login, password).value.value;
              r.clientId == u.orgId && r.redirectUrl == DashboardUrl(u.orgId) && r.userName == u.fullName
  {
    match UserService.AuthenticateClientUser(users, prims, login, password)
    case Err(_) => LoginRefused(HttpError(InternalError, ServerError))
    case Ok(None) => LoginRefused(HttpError(Unauthorized, BadCredentials))
    case Ok(Some(u)) =>
      match OrgById(orgs, u.orgId)
      case None => LoginRefused(HttpError(InternalError, ServerError))
      case Some(org) =>
        if !IsTrue(org.isActive) then LoginRefused(HttpError(BadRequest, AccountDeactivated))
        else if !HasDatabase(org) then LoginRefused(HttpError(BadRequest, NoDatabaseYet))
        else LoggedIn(DashboardUrl(org.id), org.id, u.fullName)
  }

  /** The organisation checks run in order: a deactivated organisation is refused as such
      even when it has no database either. */
  lemma DeactivatedBeforeNoDatabase(users: seq<ClientUser>, orgs: seq<Org>, prims: Primitives, login: string,
                                    password: string)
    requires var auth := UserService.AuthenticateClientUser(users, prims, login, password);
             auth.Ok? && auth.value.Some? && OrgById(orgs, auth.value.value.orgId).Some?
             && !IsTrue(OrgById(orgs, auth.value.value.orgId).value.isActive)
    ensures ClientLogin(users, orgs, prims, login, password) == LoginRefused(HttpError(BadRequest, AccountDeactivated))
  {
  }
}
