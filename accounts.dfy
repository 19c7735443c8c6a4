/**
 * Accounts: registration and login as the mounted auth controller does
 * them, and the input validation and admin-only checks of the user
 * controller.
 *
 * Password hashing is the parameter `hash`, password comparison the
 * parameter `matches(plain, stored)`, and token signing the parameter
 * `sign(payload)`.
 */
module Accounts {
  import opened Common
  import opened Lists
  import opened Models
  import opened Authorization

  /** The user fields a response may carry: the password is not one of them. */
  datatype PublicUser = PublicUser(username: string, email: string, role: Role, companyName: Option<string>)

  function Public(u: User): (p: PublicUser)
    ensures p.username == u.username && p.email == u.email && p.role == u.role && p.companyName == u.companyName
  {
    PublicUser(u.username, u.email, u.role, u.companyName)
  }

  /** The mounted register's field check: username, password and email all truthy. */
  predicate RegisterFieldsPresent(username: Option<string>, password: Option<string>, email: Option<string>) {
    Truthy(username) && Truthy(password) && Truthy(email)
  }

  datatype RegisterOutcome =
    | RegisterMissingFields
    | UsernameTaken
    | EmailTaken
    | Registered(user: PublicUser)
  {
    function Status(): int {
      if Registered? then 201 else 400
    }
  }

  datatype LoginOutcome =
    | LoginMissingFields
    | InvalidCredentials
    | LoggedIn(token: string, user: PublicUser, redirectTo: string)
  {
    function Status(): int {
      match this
      case LoginMissingFields => 400
      case InvalidCredentials => 401
      case LoggedIn(_, _, _) => 200
    }
  }

  /** The landing page login sends a role to, by its stored spelling. */
  function RedirectFor(role: string): (path: string)
    ensures path in {"/entreprise/home", "/ministere/home", "/dashboard"}
  {
    if role == "entreprise" then "/entreprise/home"
    else if role == "admin" || role == "ministere" || role == "ministerepublique" then "/ministere/home"
    else "/dashboard"
  }

  /** `entreprise` goes to its home, the ministry family to the ministry home, anything else to the dashboard. */
  lemma RedirectByRole(s: string)
    ensures RedirectFor(s) == "/entreprise/home" <==> ParseRole(s) == Some(Entreprise)
    ensures RedirectFor(s) == "/ministere/home" <==> ParseRole(s).Some? && IsMinistryFamily(ParseRole(s).value)
    ensures RedirectFor(s) == "/dashboard" <==> ParseRole(s).None?
  {
    if ParseRole(s).Some? {
      MinistryFamilyIsNotEntreprise(ParseRole(s).value);
    }
  }

  class UserTable {
    var rows: map<nat, User>
    var nextId: nat

    /** Keys are the rows' ids; usernames and emails are unique. */
    ghost predicate Valid()
      reads this
    {
      0 < nextId
      && (forall k :: k in rows ==> 0 < k < nextId && rows[k].id == k)
      && (forall a, b :: a in rows && b in rows && rows[a].username == rows[b].username ==> a == b)
      && (forall a, b :: a in rows && b in rows && rows[a].email == rows[b].email ==> a == b)
    }

    constructor()
      ensures Valid() && rows == map[] && nextId == 1
    {
      rows := map[];
      nextId := 1;
    }

    /** `User.findOne({ where: { username } })`: the one row with that username, if any. */
    function FindByUsername(username: string): (r: Option<User>)
      requires Valid()
      reads this
      ensures r.Some? <==> exists k :: k in rows && rows[k].username == username
      ensures r.Some? ==> r.value.id in rows && rows[r.value.id] == r.value && r.value.username == username
    {
      var hits := Filter(Scan(rows, nextId), (u: User) => u.username == username);
      if hits == [] then
        assert forall k :: k in rows ==> rows[k] in rows.Values;
        None
      else
        assert hits[0] in rows.Values;
        Some(hits[0])
    }

    /**
     * register: the three required fields, then the duplicate check on
     * whichever stored user shares the username or the email, then an
     * insert with the hashed password and the role forced to `entreprise`.
     */
    method Register(username: Option<string>, password: Option<string>, email: Option<string>,
                    companyName: Option<string>, hash: string -> string, now: int) returns (r: RegisterOutcome)
      requires Valid()
      modifies this
      ensures Valid()
      ensures r.RegisterMissingFields? <==> !RegisterFieldsPresent(username, password, email)
      ensures !r.Registered? ==> rows == old(rows) && nextId == old(nextId)
      ensures r.UsernameTaken? ==> exists k :: k in old(rows) && old(rows)[k].username == username.value
      ensures r.EmailTaken? ==> exists k :: k in old(rows) && old(rows)[k].email == email.value
                                           && old(rows)[k].username != username.value
      ensures r.Registered? <==> (Truthy(username) && Truthy(password) && Truthy(email)
        && !(exists k :: k in old(rows) && (old(rows)[k].username == username.value || old(rows)[k].email == email.value)))
      ensures r.Registered? ==>
        var u := User(old(nextId), username.value, None, email.value, hash(password.value), Entreprise, companyName, now);
        rows == old(rows)[old(nextId) := u] && nextId == old(nextId) + 1 && r.user == Public(u)
    {
      if !(Truthy(username) && Truthy(password) && Truthy(email)) {
        return RegisterMissingFields;
      }
      if exists k :: k in rows && (rows[k].username == username.value || rows[k].email == email.value) {
        var k :| k in rows && (rows[k].username == username.value || rows[k].email == email.value);
        if rows[k].username == username.value {
          return UsernameTaken;
        } else {
          return EmailTaken;
        }
      }
      var u := User(nextId, username.value, None, email.value, hash(password.value), Entreprise, companyName, now);
      rows := rows[nextId := u];
      nextId := nextId + 1;
      r := Registered(Public(u));
    }

    /**
     * login: both fields, then the user by username, then the password;
     * an unknown user and a wrong password give the same answer. The token
     * carries exactly the user's id and role.
     */
    function Login(username: Option<string>, password: Option<string>, matches: (string, string) -> bool,
                   sign: TokenPayload -> string): (r: LoginOutcome)
      requires Valid()
      reads this
      ensures r.LoginMissingFields? <==> !(Truthy(username) && Truthy(password))
      ensures r.InvalidCredentials? <==> (Truthy(username) && Truthy(password) &&
        (FindByUsername(username.value).None? || !matches(password.value, FindByUsername(username.value).value.password)))
      ensures r.LoggedIn? ==>
        var u := FindByUsername(username.value).value;
        matches(password.value, u.password) && r.token == sign(TokenPayload(u.id, u.role))
        && r.user == Public(u) && r.redirectTo == RedirectFor(RoleName(u.role))
    {
      if !(Truthy(username) && Truthy(password)) then LoginMissingFields
      else match FindByUsername(username.value)
        case None => InvalidCredentials
        case Some(u) =>
          if !matches(password.value, u.password) then InvalidCredentials
          else LoggedIn(sign(TokenPayload(u.id, u.role)), Public(u), RedirectFor(RoleName(u.role)))
    }
  }

  /** A stored user is never sent to the fallback dashboard: every role has its own home. */
  lemma StoredRolesHaveHomes(r: Role)
    ensures RedirectFor(RoleName(r)) != "/dashboard"
    ensures RedirectFor(RoleName(r)) == (if r == Entreprise then "/entreprise/home" else "/ministere/home")
  {
  }

  // ---------------------------------------------------------------------
  // The user controller's checks

  /** validateRegisterInput: the missing-fields message, then the length message, else nothing. */
  function ValidateRegisterInput(username: Option<string>, email: Option<string>, password: Option<string>): (m: Option<string>)
    ensures m == Some("Tous les champs sont obligatoires") <==> !(Truthy(username) && Truthy(email) && Truthy(password))
    ensures m == Some("Le mot de passe doit contenir au moins 8 caractères") <==>
      Truthy(username) && Truthy(email) && Truthy(password) && |password.value| < 8
    ensures m.None? <==> Truthy(username) && Truthy(email) && Truthy(password) && |password.value| >= 8
  {
    if !(Truthy(username) && Truthy(email) && Truthy(password)) then Some("Tous les champs sont obligatoires")
    else if |password.value| < 8 then Some("Le mot de passe doit contenir au moins 8 caractères")
    else None
  }

  /** What a user-controller handler does first: stop with a status and a message, or go on to the store. */
  datatype Precheck = Stop(status: int, message: string) | Proceed

  /** The user controller's register stops with 400 and the validator's message before any lookup. */
  function UserRegisterPrecheck(username: Option<string>, email: Option<string>, password: Option<string>): (p: Precheck)
    ensures p.Stop? <==> ValidateRegisterInput(username, email, password).Some?
    ensures p.Stop? ==> p.status == 400 && p.message == ValidateRegisterInput(username, email, password).value
  {
    match ValidateRegisterInput(username, email, password)
    case Some(msg) => Stop(400, msg)
    case None => Proceed
  }

  /** getAllUsers and deleteUser: 403 for every role but `admin`, before the store is touched. */
  function UsersAdminPrecheck(role: Role): (p: Precheck)
    ensures p.Proceed? <==> role == Admin
    ensures p.Stop? ==> p.status == 403
  {
    if role != Admin then Stop(403, "Accès non autorisé") else Proceed
  }

  /** The two user-controller handlers are stricter than adminMiddleware: the other ministry roles are refused. */
  lemma UsersStricterThanAdminGate(role: Role)
    ensures UsersAdminPrecheck(role).Proceed? ==> AdminGate(role).Next?
    ensures role == Ministere || role == MinisterePublique ==>
      AdminGate(role).Next? && UsersAdminPrecheck(role).Stop?
  {
  }

  /**
   * Only the user controller enforces a password length: a password of one
   * to seven characters passes the mounted register's field check, while
   * the user controller stops with its length message.
   */
  lemma ShortPasswordOnlyRefusedByUserController(username: string, email: string, password: string)
    requires username != "" && email != "" && 0 < |password| < 8
    ensures RegisterFieldsPresent(Some(username), Some(password), Some(email))
    ensures UserRegisterPrecheck(Some(username), Some(email), Some(password))
            == Stop(400, "Le mot de passe doit contenir au moins 8 caractères")
  {
  }
}
