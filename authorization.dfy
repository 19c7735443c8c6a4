/**
 * The authorization policy of the API: the bearer-token middleware, the
 * two role middlewares, and the ordered route tables of the candidature,
 * offer and dashboard routers, each route with its chain of guards.
 *
 * Token verification is a parameter: `verify(token)` is the payload of a
 * well-signed, unexpired token and `None` for any token the JWT library
 * rejects.
 */
module Authorization {
  import opened Common
  import opened Models

  /** The claims a login token carries: exactly the user's id and role. */
  datatype TokenPayload = TokenPayload(id: nat, role: Role)

  // ---------------------------------------------------------------------
  // authMiddleware

  datatype AuthResult =
    | MissingOrMalformed
    | InvalidToken
    | UnknownUser
    | Authenticated(user: User)
  {
    /** Every failure is answered with 401; success calls the next handler. */
    function Status(): int {
      if Authenticated? then 200 else 401
    }
  }

  /**
   * The bearer token of an `Authorization` header: `None` when the header
   * is absent or does not start with "Bearer ", otherwise its second
   * space-separated segment.
   */
  function BearerToken(header: Option<string>): (t: Option<string>)
    ensures t.None? <==> header.None? || !StartsWith(header.value, "Bearer ")
  {
    if header.None? || !StartsWith(header.value, "Bearer ") then None
    else
      assert header.value[6] == ' ';
      SecondSegment(header.value)
  }

  /** The header a page sends with a stored token. */
  function BearerHeader(token: string): (h: string)
    ensures StartsWith(h, "Bearer ")
  {
    "Bearer " + token
  }

  /** The middleware reads back exactly the token a page sent, as long as the token holds no space. */
  lemma BearerRoundTrip(token: string)
    requires ' ' !in token
    ensures BearerToken(Some(BearerHeader(token))) == Some(token)
  {
    var h := BearerHeader(token);
    assert h[6] == ' ';
    assert UpToSpace(h) == "Bearer" by {
      assert h[..6] == "Bearer";
      assert forall i :: 0 <= i < 6 ==> h[i] != ' ';
      assert UpToSpace(h[6..]) == [];
      assert h[5..][1..] == h[6..];
      assert h[4..][1..] == h[5..];
      assert h[3..][1..] == h[4..];
      assert h[2..][1..] == h[3..];
      assert h[1..][1..] == h[2..];
    }
    assert AfterSpace(h) == token;
    UpToSpaceWithoutSpace(token);
  }

  /**
   * authMiddleware: the header check, then verification, then the lookup
   * of the token's id among the stored users. The principal is the stored
   * row, so the role the token claims plays no part.
   */
  function Authenticate(header: Option<string>, verify: string -> Option<TokenPayload>,
                        users: map<nat, User>): (r: AuthResult)
    ensures r.MissingOrMalformed? <==> BearerToken(header).None?
    ensures r.InvalidToken? <==> BearerToken(header).Some? && verify(BearerToken(header).value).None?
    ensures r.UnknownUser? <==> BearerToken(header).Some? && verify(BearerToken(header).value).Some?
                                && verify(BearerToken(header).value).value.id !in users
    ensures r.Authenticated? ==>
      var p := verify(BearerToken(header).value).value;
      p.id in users && r.user == users[p.id]
  {
    match BearerToken(header)
    case None => MissingOrMalformed
    case Some(token) =>
      match verify(token)
      case None => InvalidToken
      case Some(p) => if p.id in users then Authenticated(users[p.id]) else UnknownUser
  }

  /** Once the header verifies, the outcome depends on the token's id only, never on its role claim. */
  lemma {:induction false} TokenRoleIgnored(header: Option<string>, verify: string -> Option<TokenPayload>,
                                            verify': string -> Option<TokenPayload>, users: map<nat, User>)
    requires BearerToken(header).Some?
    requires var t := BearerToken(header).value;
      verify(t).Some? && verify'(t).Some? && verify(t).value.id == verify'(t).value.id
    ensures Authenticate(header, verify, users) == Authenticate(header, verify', users)
  {
    var t := BearerToken(header).value;
    assert verify(t).value.id in users <==> verify'(t).value.id in users;
  }

  // ---------------------------------------------------------------------
  // adminMiddleware and entrepriseMiddleware

  /** The roles adminMiddleware lets through, in the order it lists them. */
  const AllowedRoles: seq<Role> := [Ministere, Admin, MinisterePublique]

  predicate IsMinistryFamily(r: Role) {
    r in AllowedRoles
  }

  /** The ministry family is every role except `entreprise`. */
  lemma MinistryFamilyIsNotEntreprise(r: Role)
    ensures IsMinistryFamily(r) <==> r != Entreprise
  {
    if r != Entreprise {
      assert r == AllowedRoles[0] || r == AllowedRoles[1] || r == AllowedRoles[2];
    }
  }

  datatype GateResult = Next | Forbidden(message: string, allowed: seq<Role>)
  {
    function Status(): int {
      if Next? then 200 else 403
    }
  }

  /** adminMiddleware: 403 naming the caller's role and the allowed list, or on to the handler. */
  function AdminGate(role: Role): (g: GateResult)
    ensures g.Next? <==> role == Ministere || role == Admin || role == MinisterePublique
    ensures g.Forbidden? ==> g.allowed == AllowedRoles && g.message == "Accès réservé au ministère. Votre rôle: " + RoleName(role)
  {
    if IsMinistryFamily(role) then Next
    else Forbidden("Accès réservé au ministère. Votre rôle: " + RoleName(role), AllowedRoles)
  }

  /** entrepriseMiddleware, as declared in both the candidature and the dashboard routers. */
  function EntrepriseGate(role: Role): (g: GateResult)
    ensures g.Next? <==> role == Entreprise
    ensures g.Forbidden? ==> g.allowed == []
  {
    if role == Entreprise then Next else Forbidden("Accès réservé aux entreprises", [])
  }

  /** No role passes both role gates. */
  lemma GatesExclusive(role: Role)
    ensures !(AdminGate(role).Next? && EntrepriseGate(role).Next?)
    ensures AdminGate(role).Next? || EntrepriseGate(role).Next?
  {
  }

  // ---------------------------------------------------------------------
  // Route tables

  datatype Method = Get | Post | Put | Patch | Delete

  /** A path segment of a route pattern: a literal, or a `:name` parameter. */
  datatype Segment = Lit(text: string) | Param(name: string)

  datatype Guard = RequireAuth | RequireMinistry | RequireEntreprise | UploadFile

  datatype Handler =
    | SubmitCandidature | UpdateCandidatureStatus | CandidaturesByOffer | MyCandidatures
    | CreateOffer | AllOffers | PublishedOffers | OfferById | ValidateOffer | RejectOffer | DeleteOffer
    | EntrepriseDashboard | MinistereDashboard

  datatype Route = Route(verb: Method, path: seq<Segment>, guards: seq<Guard>, handler: Handler)

  /** The candidature router, mounted at /api/candidatures, in registration order. */
  const CandidatureRoutes: seq<Route> := [
    Route(Post, [], [RequireAuth, RequireEntreprise, UploadFile], SubmitCandidature),
    Route(Patch, [Param("id"), Lit("status")], [RequireAuth, RequireMinistry], UpdateCandidatureStatus),
    Route(Get, [Lit("offer"), Param("offerId")], [RequireAuth, RequireMinistry], CandidaturesByOffer),
    Route(Get, [Lit("me")], [RequireAuth, RequireEntreprise], MyCandidatures)
  ]

  /** The offer router, mounted at /api/offres, in registration order. */
  const OfferRoutes: seq<Route> := [
    Route(Post, [], [RequireAuth, RequireMinistry], CreateOffer),
    Route(Get, [], [], AllOffers),
    Route(Get, [Lit("published")], [], PublishedOffers),
    Route(Get, [Param("id")], [], OfferById),
    Route(Put, [Param("id"), Lit("validate")], [RequireAuth, RequireMinistry], ValidateOffer),
    Route(Put, [Param("id"), Lit("reject")], [RequireAuth, RequireMinistry], RejectOffer),
    Route(Delete, [Param("id")], [RequireAuth, RequireMinistry], DeleteOffer)
  ]

  /** The dashboard router, mounted at /api/dashboard. */
  const DashboardRoutes: seq<Route> := [
    Route(Get, [Lit("entreprise")], [RequireAuth, RequireEntreprise], EntrepriseDashboard),
    Route(Get, [Lit("ministere")], [RequireAuth, RequireMinistry], MinistereDashboard)
  ]

  /**
   * A literal matches itself in any letter case: an Express router is not
   * case-sensitive by default, and every literal of the tables above is
   * written in lower case, so a segment matches when its lower case is the
   * literal. A parameter matches any non-empty segment.
   */
  predicate SegmentMatches(p: Segment, s: string) {
    match p
    case Lit(t) => t == ToLower(s)
    case Param(_) => s != ""
  }

  predicate PathMatches(path: seq<Segment>, segs: seq<string>) {
    |path| == |segs| && forall i :: 0 <= i < |path| ==> SegmentMatches(path[i], segs[i])
  }

  predicate RouteMatches(r: Route, m: Method, segs: seq<string>) {
    r.verb == m && PathMatches(r.path, segs)
  }

  /** Express dispatch: the first registered route that matches, if any. */
  function Dispatch(routes: seq<Route>, m: Method, segs: seq<string>): (i: Option<nat>)
    ensures i.Some? ==> i.value < |routes| && RouteMatches(routes[i.value], m, segs)
                        && forall j :: 0 <= j < i.value ==> !RouteMatches(routes[j], m, segs)
    ensures i.None? ==> forall j :: 0 <= j < |routes| ==> !RouteMatches(routes[j], m, segs)
  {
    if routes == [] then None
    else if RouteMatches(routes[0], m, segs) then Some(0)
    else
      match Dispatch(routes[1..], m, segs)
      case None => None
      case Some(k) => Some(k + 1)
  }

  /** Dispatch picks route `i` when it matches and no earlier route does. */
  lemma {:induction false} DispatchAt(routes: seq<Route>, m: Method, segs: seq<string>, i: nat)
    requires i < |routes| && RouteMatches(routes[i], m, segs)
    requires forall j :: 0 <= j < i ==> !RouteMatches(routes[j], m, segs)
    ensures Dispatch(routes, m, segs) == Some(i)
  {
    if i > 0 {
      DispatchAt(routes[1..], m, segs, i - 1);
    }
  }

  /** "published", in any letter case, reaches the published listing, never the by-id handler. */
  lemma PublishedBeforeId(s: string)
    requires ToLower(s) == "published"
    ensures Dispatch(OfferRoutes, Get, [s]) == Some(2)
    ensures OfferRoutes[2].handler == PublishedOffers
  {
    var r2 := Route(Get, [Lit("published")], [], PublishedOffers);
    assert OfferRoutes[2] == r2;
    assert SegmentMatches(r2.path[0], [s][0]);
    assert OfferRoutes[0].verb == Post && OfferRoutes[1].path == [];
    DispatchAt(OfferRoutes, Get, [s], 2);
  }

  /** Any other single non-empty segment is read as an offer id. */
  lemma OtherSegmentIsId(s: string)
    requires s != "" && ToLower(s) != "published"
    ensures Dispatch(OfferRoutes, Get, [s]) == Some(3)
    ensures OfferRoutes[3].handler == OfferById
  {
    var r2 := Route(Get, [Lit("published")], [], PublishedOffers);
    assert OfferRoutes[2] == r2;
    assert !SegmentMatches(r2.path[0], [s][0]);
    assert OfferRoutes[3] == Route(Get, [Param("id")], [], OfferById);
    assert OfferRoutes[0].verb == Post && OfferRoutes[1].path == [];
    DispatchAt(OfferRoutes, Get, [s], 3);
  }

  /** Dispatch ignores letter case: paths whose segments agree once lowered reach the same route. */
  lemma {:induction false} DispatchIgnoresCase(routes: seq<Route>, m: Method, segs: seq<string>, segs': seq<string>)
    requires |segs| == |segs'|
    requires forall i :: 0 <= i < |segs| ==> ToLower(segs[i]) == ToLower(segs'[i])
    ensures Dispatch(routes, m, segs) == Dispatch(routes, m, segs')
  {
    if routes != [] {
      forall p, i | 0 <= i < |segs|
        ensures SegmentMatches(p, segs[i]) == SegmentMatches(p, segs'[i])
      {
        assert |ToLower(segs[i])| == |ToLower(segs'[i])|;
      }
      assert RouteMatches(routes[0], m, segs) == RouteMatches(routes[0], m, segs');
      DispatchIgnoresCase(routes[1..], m, segs, segs');
    }
  }

  // ---------------------------------------------------------------------
  // Running a guard chain

  datatype Decision = Pass(principal: Option<User>) | Deny(status: int)

  /**
   * The guards of a route run in order. A role guard reads `req.user.role`:
   * without an earlier authentication it has no user and the request fails
   * with a server error (500). File storage by the upload guard is not
   * modelled; it always passes.
   */
  function RunGuards(guards: seq<Guard>, auth: AuthResult, principal: Option<User>): (d: Decision)
    ensures d.Deny? ==> d.status in {401, 403, 500}
    ensures d.Pass? && RequireAuth in guards ==> d.principal.Some?
    ensures d.Pass? && principal.Some? ==> d.principal.Some?
  {
    if guards == [] then Pass(principal)
    else
      match guards[0]
      case RequireAuth =>
        if auth.Authenticated? then RunGuards(guards[1..], auth, Some(auth.user)) else Deny(auth.Status())
      case RequireMinistry =>
        if principal.None? then Deny(500)
        else if AdminGate(principal.value.role).Next? then RunGuards(guards[1..], auth, principal)
        else Deny(403)
      case RequireEntreprise =>
        if principal.None? then Deny(500)
        else if EntrepriseGate(principal.value.role).Next? then RunGuards(guards[1..], auth, principal)
        else Deny(403)
      case UploadFile => RunGuards(guards[1..], auth, principal)
  }

  /** `allowed(route, ·)`: the request reaches the route's handler. */
  predicate Allowed(r: Route, auth: AuthResult) {
    RunGuards(r.guards, auth, None).Pass?
  }

  /** A role guard never runs before authentication in the guard chain. */
  predicate AuthBeforeRole(guards: seq<Guard>) {
    forall i :: 0 <= i < |guards| && (guards[i] == RequireMinistry || guards[i] == RequireEntreprise) ==>
      exists j :: 0 <= j < i && guards[j] == RequireAuth
  }

  /** With authentication first, the 500 of a role guard without a user cannot happen. */
  lemma {:induction false} AuthFirstNeverServerError(guards: seq<Guard>, auth: AuthResult)
    requires guards != [] && guards[0] == RequireAuth
    ensures RunGuards(guards, auth, None) != Deny(500)
  {
    if auth.Authenticated? {
      NoServerErrorWithPrincipal(guards[1..], auth, Some(auth.user));
    }
  }

  lemma {:induction false} NoServerErrorWithPrincipal(guards: seq<Guard>, auth: AuthResult, principal: Option<User>)
    requires principal.Some?
    ensures RunGuards(guards, auth, principal) != Deny(500)
  {
    if guards != [] {
      match guards[0]
      case RequireAuth =>
        if auth.Authenticated? {
          NoServerErrorWithPrincipal(guards[1..], auth, Some(auth.user));
        }
      case _ =>
        NoServerErrorWithPrincipal(guards[1..], auth, principal);
    }
  }

  lemma AuthAtHead(guards: seq<Guard>)
    requires guards != [] && guards[0] == RequireAuth
    ensures AuthBeforeRole(guards)
  {
    forall i | 0 <= i < |guards| && (guards[i] == RequireMinistry || guards[i] == RequireEntreprise)
      ensures exists j :: 0 <= j < i && guards[j] == RequireAuth
    {
      assert guards[0] == RequireAuth;
    }
  }

  /** Every guarded route of the three routers authenticates first, so before any role check. */
  lemma EveryRouteAuthenticatesFirst()
    ensures forall r :: r in CandidatureRoutes + OfferRoutes + DashboardRoutes ==>
      AuthBeforeRole(r.guards) && (r.guards != [] ==> r.guards[0] == RequireAuth)
  {
    var all := CandidatureRoutes + OfferRoutes + DashboardRoutes;
    forall r | r in all
      ensures AuthBeforeRole(r.guards) && (r.guards != [] ==> r.guards[0] == RequireAuth)
    {
      var i :| 0 <= i < |all| && all[i] == r;
      assert r.guards == [] || r.guards[0] == RequireAuth;
      if r.guards != [] {
        AuthAtHead(r.guards);
      }
    }
  }

  /** The guard chain `auth → role gate` passes exactly for an authenticated user the gate admits. */
  lemma AuthThenGate(g: Guard, rest: seq<Guard>, auth: AuthResult)
    requires g == RequireMinistry || g == RequireEntreprise
    requires forall k :: 0 <= k < |rest| ==> rest[k] == UploadFile
    ensures RunGuards([RequireAuth, g] + rest, auth, None).Pass? <==>
      auth.Authenticated? &&
      (if g == RequireMinistry then IsMinistryFamily(auth.user.role) else auth.user.role == Entreprise)
    ensures !auth.Authenticated? ==> RunGuards([RequireAuth, g] + rest, auth, None) == Deny(401)
  {
    if auth.Authenticated? {
      var gs := [RequireAuth, g] + rest;
      assert gs[1..][1..] == rest;
      var p := Some(auth.user);
      if RunGuards(gs[1..], auth, p).Pass? {
        UploadsPass(rest, auth, p);
      } else {
        UploadsPass(rest, auth, p);
      }
    }
  }

  lemma {:induction false} UploadsPass(rest: seq<Guard>, auth: AuthResult, p: Option<User>)
    requires forall k :: 0 <= k < |rest| ==> rest[k] == UploadFile
    ensures RunGuards(rest, auth, p) == Pass(p)
  {
    if rest != [] {
      UploadsPass(rest[1..], auth, p);
    }
  }

  /** Only an authenticated `entreprise` can submit a candidature. */
  lemma SubmitNeedsEntreprise(auth: AuthResult)
    ensures Allowed(CandidatureRoutes[0], auth) <==> auth.Authenticated? && auth.user.role == Entreprise
  {
    assert CandidatureRoutes[0].guards == [RequireAuth, RequireEntreprise] + [UploadFile];
    AuthThenGate(RequireEntreprise, [UploadFile], auth);
  }

  /** Only an authenticated member of the ministry family can change a candidature's status. */
  lemma StatusChangeNeedsMinistry(auth: AuthResult)
    ensures Allowed(CandidatureRoutes[1], auth) <==> auth.Authenticated? && IsMinistryFamily(auth.user.role)
    ensures auth.Authenticated? && auth.user.role == Entreprise ==> !Allowed(CandidatureRoutes[1], auth)
  {
    assert CandidatureRoutes[1].guards == [RequireAuth, RequireMinistry] + [];
    AuthThenGate(RequireMinistry, [], auth);
  }

  /** Listing an offer's candidatures needs the ministry family; listing one's own needs `entreprise`. */
  lemma CandidatureListingGuards(auth: AuthResult)
    ensures Allowed(CandidatureRoutes[2], auth) <==> auth.Authenticated? && IsMinistryFamily(auth.user.role)
    ensures Allowed(CandidatureRoutes[3], auth) <==> auth.Authenticated? && auth.user.role == Entreprise
  {
    assert CandidatureRoutes[2].guards == [RequireAuth, RequireMinistry] + [];
    assert CandidatureRoutes[3].guards == [RequireAuth, RequireEntreprise] + [];
    AuthThenGate(RequireMinistry, [], auth);
    AuthThenGate(RequireEntreprise, [], auth);
  }

  /** Creating, validating, rejecting and deleting offers need the ministry family; reading needs nothing. */
  lemma OfferRouteGuards(auth: AuthResult)
    ensures forall i :: i in {0, 4, 5, 6} ==>
      (Allowed(OfferRoutes[i], auth) <==> auth.Authenticated? && IsMinistryFamily(auth.user.role))
    ensures forall i :: i in {1, 2, 3} ==> Allowed(OfferRoutes[i], auth)
  {
    AuthThenGate(RequireMinistry, [], auth);
    assert [RequireAuth, RequireMinistry] + [] == [RequireAuth, RequireMinistry];
  }

  /** No caller is admitted to both dashboards. */
  lemma DashboardsExclusive(auth: AuthResult)
    ensures !(Allowed(DashboardRoutes[0], auth) && Allowed(DashboardRoutes[1], auth))
    ensures Allowed(DashboardRoutes[0], auth) <==> auth.Authenticated? && auth.user.role == Entreprise
    ensures Allowed(DashboardRoutes[1], auth) <==> auth.Authenticated? && IsMinistryFamily(auth.user.role)
  {
    assert DashboardRoutes[0].guards == [RequireAuth, RequireEntreprise] + [];
    assert DashboardRoutes[1].guards == [RequireAuth, RequireMinistry] + [];
    AuthThenGate(RequireMinistry, [], auth);
    AuthThenGate(RequireEntreprise, [], auth);
    if auth.Authenticated? {
      MinistryFamilyIsNotEntreprise(auth.user.role);
    }
  }
}
