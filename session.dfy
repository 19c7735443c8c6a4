/**
 * The browser session: the route guard that reads the stored token, and
 * the authentication context that logs in and out.
 *
 * localStorage is modelled by its two keys, `token` and `user`, as two
 * fields; a stored user is kept as the record it was serialised from.
 * Decoding a token (`jwtDecode`) is the parameter `decode`, `None` when
 * it throws; navigation is the field `location`.
 */
module Session {
  import opened Common
  import opened Models
  import Accounts

  /** The claims a decoded token exposes to the guard; `role` may be absent. */
  datatype Claims = Claims(role: Option<string>)

  /** What the guard renders. */
  datatype RouteDecision = ToLogin | ToHome | Render

  /**
   * The guard's decision: no token sends to /login, a token that does not
   * decode sends to /login as well, a role outside the allowed list sends
   * to /, and an allowed role renders the children.
   */
  function Decide(token: Option<string>, decode: string -> Option<Claims>, roles: seq<string>): (d: RouteDecision)
    ensures !Truthy(token) ==> d == ToLogin
    ensures Truthy(token) && decode(token.value).None? ==> d == ToLogin
    ensures d == Render <==> Truthy(token) && decode(token.value).Some?
                             && decode(token.value).value.role.Some? && decode(token.value).value.role.value in roles
    ensures d == ToHome <==> Truthy(token) && decode(token.value).Some?
                             && !(decode(token.value).value.role.Some? && decode(token.value).value.role.value in roles)
  {
    if !Truthy(token) then ToLogin
    else match decode(token.value)
      case None => ToLogin
      case Some(claims) =>
        if claims.role.Some? && claims.role.value in roles then Render else ToHome
  }

  /** The user record the context holds; the stored copy has no token. */
  datatype Profile = Profile(token: Option<string>, role: Option<string>, fields: map<string, string>)

  /** The login response: the token, the role, the redirect and the remaining fields. */
  datatype LoginData = LoginData(token: string, role: Option<string>, redirectTo: Option<string>, fields: map<string, string>)

  const MinistryRoleNames: seq<string> := ["ministere", "admin", "ministerepublique"]

  /** Where login goes: the server's redirect when truthy, otherwise a choice by role. */
  function LoginTarget(redirectTo: Option<string>, role: Option<string>): (path: string)
    ensures Truthy(redirectTo) ==> path == redirectTo.value
    ensures !Truthy(redirectTo) ==> path in {"/ministere/home", "/entreprise/home", "/"}
    ensures !Truthy(redirectTo) ==>
      (path == "/ministere/home" <==> role.Some? && role.value in MinistryRoleNames)
    ensures !Truthy(redirectTo) ==> (path == "/entreprise/home" <==> role == Some("entreprise"))
  {
    if Truthy(redirectTo) then redirectTo.value
    else if role.Some? && role.value in MinistryRoleNames then "/ministere/home"
    else if role == Some("entreprise") then "/entreprise/home"
    else "/"
  }

  /** For every stored role, the fallback choice lands where the server's redirect would have. */
  lemma FallbackAgreesWithServer(r: Role)
    ensures LoginTarget(None, Some(RoleName(r))) == Accounts.RedirectFor(RoleName(r))
  {
  }

  /** For a role the server does not know, the server says /dashboard and the fallback says /. */
  lemma FallbackDiffersOnUnknownRole(s: string)
    requires ParseRole(s).None?
    ensures Accounts.RedirectFor(s) == "/dashboard"
    ensures LoginTarget(None, Some(s)) == "/"
  {
    assert s !in MinistryRoleNames;
  }

  class AuthSession {
    var tokenItem: Option<string>
    var userItem: Option<Profile>
    var user: Option<Profile>
    var isAuthenticated: bool
    var location: string

    /** The context never claims a session without a stored token. */
    predicate Consistent()
      reads this
    {
      isAuthenticated ==> Truthy(tokenItem)
    }

    /** The provider's initial state: the stored user, and authenticated exactly when a token is stored. */
    constructor(storedToken: Option<string>, storedUser: Option<Profile>, at: string)
      ensures tokenItem == storedToken && userItem == storedUser && location == at
      ensures user == storedUser
      ensures isAuthenticated <==> Truthy(storedToken)
      ensures Consistent()
    {
      tokenItem := storedToken;
      userItem := storedUser;
      user := storedUser;
      isAuthenticated := Truthy(storedToken);
      location := at;
    }

    /** The mount effect: authenticated when both keys are stored, the stored user restored. */
    method CheckOnLoad()
      modifies this
      ensures tokenItem == old(tokenItem) && userItem == old(userItem) && location == old(location)
      ensures isAuthenticated <==> Truthy(tokenItem) && userItem.Some?
      ensures user == (if isAuthenticated then userItem else old(user))
      ensures Consistent()
    {
      if Truthy(tokenItem) && userItem.Some? {
        user := userItem;
        isAuthenticated := true;
      } else {
        isAuthenticated := false;
      }
    }

    /**
     * login: the token and the user without its token go to storage, the
     * user with its token to the context, and the page moves to the target.
     */
    method Login(data: LoginData)
      modifies this
      ensures tokenItem == Some(data.token)
      ensures userItem == Some(Profile(None, data.role, data.fields))
      ensures user == Some(Profile(Some(data.token), data.role, data.fields))
      ensures isAuthenticated
      ensures location == LoginTarget(data.redirectTo, data.role)
      ensures data.token != "" ==> Consistent()
    {
      tokenItem := Some(data.token);
      userItem := Some(Profile(None, data.role, data.fields));
      user := Some(Profile(Some(data.token), data.role, data.fields));
      isAuthenticated := true;
      location := LoginTarget(data.redirectTo, data.role);
    }

    /** logout: both keys removed, no user, not authenticated, and back to /login. */
    method Logout()
      modifies this
      ensures tokenItem.None? && userItem.None? && user.None? && !isAuthenticated
      ensures location == "/login"
      ensures Consistent()
    {
      tokenItem := None;
      userItem := None;
      user := None;
      isAuthenticated := false;
      location := "/login";
    }

    /**
     * The route guard on the stored token: its decision, and the removal
     * of the stored token when it does not decode. Nothing else changes;
     * in particular the context keeps its user and its flag.
     */
    method Guard(decode: string -> Option<Claims>, roles: seq<string>) returns (d: RouteDecision)
      modifies this
      ensures d == Decide(old(tokenItem), decode, roles)
      ensures tokenItem == (if Truthy(old(tokenItem)) && decode(old(tokenItem).value).None? then None else old(tokenItem))
      ensures userItem == old(userItem) && user == old(user) && isAuthenticated == old(isAuthenticated)
      ensures location == old(location)
      ensures old(isAuthenticated) && Truthy(old(tokenItem)) && decode(old(tokenItem).value).None? ==>
        d == ToLogin && !Consistent()
    {
      d := Decide(tokenItem, decode, roles);
      if Truthy(tokenItem) && decode(tokenItem.value).None? {
        tokenItem := None;
      }
    }
  }

  /** After a logout every guarded route sends to /login. */
  lemma GuardAfterLogout(decode: string -> Option<Claims>, roles: seq<string>)
    ensures Decide(None, decode, roles) == ToLogin
  {
  }

  /** After a login with a token whose role is allowed, the guarded route renders. */
  lemma GuardAfterLogin(data: LoginData, decode: string -> Option<Claims>, roles: seq<string>)
    requires data.token != "" && decode(data.token).Some?
    requires decode(data.token).value.role.Some? && decode(data.token).value.role.value in roles
    ensures Decide(Some(data.token), decode, roles) == Render
  {
  }

  /** What `useAuth` yields: the context's value, or the error thrown outside a provider. */
  datatype UseAuthResult = ContextValue(user: Option<Profile>, isAuthenticated: bool) | Thrown(message: string)

  function UseAuth(inProvider: bool, user: Option<Profile>, isAuthenticated: bool): (r: UseAuthResult)
    ensures r.Thrown? <==> !inProvider
    ensures r.Thrown? ==> r.message == "useAuth must be used within an AuthProvider"
    ensures r.ContextValue? ==> r.user == user && r.isAuthenticated == isAuthenticated
  {
    if !inProvider then Thrown("useAuth must be used within an AuthProvider") else ContextValue(user, isAuthenticated)
  }
}
