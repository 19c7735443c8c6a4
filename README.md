# MarcherPub core, modelled in Dafny

MarcherPub is a public-procurement portal. The ministry publishes offers
(`offres`): they are created `en_attente`, then validated (`valide`) or
rejected (`rejetée`). Companies (`entreprise` users) apply to published
offers with candidatures. The ministry then accepts (`acceptée`) or
rejects (`rejetée`) each candidature, and at most one per offer may be
accepted. This project models the Express/Sequelize backend's
controllers, middlewares, route tables and schemas, plus the React
frontend's pure helpers, and proves properties of that model.

Modules, one per component:

- `Common`: optional values, JavaScript truthiness, and the string operations the code relies on: `trim`, `toLowerCase`, `includes`, `startsWith`, `split(' ')[1]`, `join`, `parseInt`.
- `Lists`: `filter`, counts, `slice`, `[...new Set(xs)]`, `ORDER BY createdAt DESC`, and a table scan in key order.
- `Models`: the three records and their enumerations.
- `Offers`: the offer controller. The offer table is the class `OfferTable`.
- `Candidatures`: the candidature controller. The table is the class `CandidatureTable`. It keeps two invariants: at most one `acceptée` candidature per offer, and one candidature per (entrepriseId, offerId) pair.
- `Accounts`: the mounted auth controller, with the user table as the class `UserTable`, plus the checks in the user controller.
- `Authorization`: `authMiddleware`, `adminMiddleware`, `entrepriseMiddleware`, and the three ordered route tables with their guard chains.
- `Dashboard`: the two dashboards.
- `VercelErrors`: the frontend error-code tables and messages.
- `OfferForms`: the two offer-creation pages.
- `OfferBrowsing`: the published-offer listing page.
- `CandidaturePages`: the company's candidature list and the ministry's management table.
- `Session`: `PrivateRoute` and the `AuthContext` provider. The provider is the class `AuthSession`.

Some things the code uses become parameters:

- Password hashing is `hash` and password comparison is `matches`.
- JWT signing is `sign`, verification is `verify`, and decoding is `decode`.
- Date parsing is `parseDate`, which yields `None` for an Invalid Date.
- The clock becomes plain integers: `now`, today at 00:00, and now plus two years.

An accepted candidature commits its writes and then fails. At
`Backend/controllers/candidatureController.js:143` the handler reads
`otherCandidatures`, which was declared inside the `if` block at line 105.
The model therefore ends an acceptance in the outcome
`AcceptedThenServerError`, whose status is 500, with the cascade and the
target already written. The management page (`CandidaturePages`) sees
that 500, so it never records an acceptance locally.

## Model

| member | source | states |
|---|---|---|
| Models.ParseRole | Backend/models/User.js:21-24 | A string is read as a role only when it is exactly that role's stored spelling |
| Models.RoleNameRoundTrip | Backend/models/User.js:22 | Each of the four roles reads back as itself, so the four spellings are distinct |
| Models.ParseOfferStatus | Backend/models/Offer.js:20-24 | A string is read as an offer status only when it is that status's stored spelling |
| Models.OfferStatusRoundTrip | Backend/models/Offer.js:21 | Each offer status reads back as itself |
| Models.ParseCandidatureStatus | Backend/models/candidature.js:8-12 | A string is read as a candidature status only when it is that status's stored spelling |
| Models.CandidatureStatusRoundTrip | Backend/models/candidature.js:9 | Each candidature status reads back as itself |
| Models.DefaultOfferStatus | Backend/models/Offer.js:22 | A new offer's default status is stored as `en_attente` |
| Models.DefaultCandidatureStatus | Backend/models/candidature.js:11 | A new candidature's default status is stored as `en_attente` |
| Offers.CheckCreate | Backend/controllers/offerController.js:12-34 | A missing-fields error, flagging exactly the falsy fields, iff some field is falsy. Otherwise an invalid-deadline error iff the deadline does not parse or is not strictly after now. Otherwise not-authenticated iff the caller has no truthy id. Passing means a future deadline and a caller |
| Offers.FieldErrorsComeFirst | Backend/controllers/offerController.js:32-34 | A missing caller and caller id 0 are the same case. The 401 is reported only when the field and date checks pass |
| Offers.BlankTitleStoredEmpty | Backend/controllers/offerController.js:12-38 | Every non-empty title made only of white space, with the other fields present, a future deadline and a caller, passes every check (it is truthy) and is stored as the empty string |
| Offers.Validated | Backend/controllers/offerController.js:166-169 | Validation sets status `valide` and the validation instant; every other field, including `rejectedAt`, is kept |
| Offers.Rejected | Backend/controllers/offerController.js:194-197 | Rejection sets status `rejetée` and the rejection instant; every other field, including `validatedAt`, is kept |
| Offers.DecisionsKeepBothInstants | Backend/controllers/offerController.js:161-197 | Deciding twice in either order: the later decision sets the status and both instants remain |
| Offers.OfferTable.Published | Backend/controllers/offerController.js:65-68 | Exactly the stored `valide` offers, each once, newest first |
| Offers.OfferTable.All | Backend/controllers/offerController.js:87-89 | Exactly the stored offers, each once, newest first |
| Offers.OfferTable.GetById | Backend/controllers/offerController.js:110-117 | 400 iff the id is empty or `parseInt` gives NaN. Found iff the id also names a stored key, and then it is that row |
| Offers.OfferTable.Create | Backend/controllers/offerController.js:12-44 | Fails iff `CheckCreate` reports an error, leaving the table unchanged. Otherwise inserts one row under a fresh id: trimmed texts, status `en_attente` whatever the input, the caller as creator, and a deadline after `createdAt`. The new row is not published. The table invariant is kept |
| Offers.OfferTable.Delete | Backend/controllers/offerController.js:137-144 | The same 400/404 guard as lookup. When found, exactly that row is removed; otherwise nothing changes |
| Offers.OfferTable.Validate | Backend/controllers/offerController.js:161-169 | 404 iff the id names no row. Otherwise only that row changes, to `Validated` of its old value, whatever its prior status, and it becomes published |
| Offers.OfferTable.Reject | Backend/controllers/offerController.js:189-197 | 404 iff the id names no row. Otherwise only that row changes, to `Rejected` of its old value, whatever its prior status, and it is unpublished |
| Candidatures.RejectSiblings | Backend/controllers/candidatureController.js:113-123 | Only statuses change. Every other `en_attente` candidature on the offer becomes `rejetée`; every other row is unchanged |
| Candidatures.AcceptRows | Backend/controllers/candidatureController.js:105-130 | An acceptance's writes change only statuses, and the target becomes `acceptée` |
| Candidatures.RejectRow | Backend/controllers/candidatureController.js:128-130 | A rejection writes only the target's status, to `rejetée`, whatever it was; every other row is unchanged |
| Candidatures.AcceptFrame | Backend/controllers/candidatureController.js:113-130 | Candidatures on other offers and already-decided siblings are unchanged by an acceptance. Pending siblings become `rejetée` and change nothing else |
| Candidatures.AcceptSettlesOffer | Backend/controllers/candidatureController.js:89-130 | After an acceptance the 409 guard lets through, every other candidature on the offer is `rejetée` |
| Candidatures.StatusChangesKeepPairs | Backend/controllers/candidatureController.js:113-130 | Status-only updates keep the (entrepriseId, offerId) pairs unique |
| Candidatures.AcceptKeepsSingle | Backend/controllers/candidatureController.js:89-130 | An acceptance past the 409 guard keeps at most one `acceptée` per offer |
| Candidatures.InsertKeepsInvariants | Backend/controllers/candidatureController.js:23-49 | Inserting a pending row for a pair that has not applied keeps both table invariants |
| Candidatures.RejectKeepsSingle | Backend/controllers/candidatureController.js:128-130 | A rejection never creates a second acceptance |
| Candidatures.RequestedStatus | Backend/controllers/candidatureController.js:76-78 | A status is accepted iff it is exactly `acceptée` or `rejetée`, and it is read as that status, never `en_attente` |
| Candidatures.UpdateRows | Backend/controllers/candidatureController.js:76-130 | One valid update request changes only statuses |
| Candidatures.UpdateKeepsSingle | Backend/controllers/candidatureController.js:89-130 | One valid update request keeps at most one `acceptée` per offer |
| Candidatures.ApplyAll | Backend/controllers/candidatureController.js:69-130 | A sequence of update requests never adds or removes a row |
| Candidatures.ApplyAllKeepsSingle | Backend/controllers/candidatureController.js:69-130 | Sequential status updates preserve "at most one `acceptée` per offer" |
| Candidatures.StoredMessage | Backend/controllers/candidatureController.js:46 | The stored message is present iff the message is truthy and not blank, and then it is the trimmed, non-empty text |
| Candidatures.FileUrl | Backend/controllers/candidatureController.js:36-40 | A file URL exists iff a file was uploaded, and it is `/uploads/` followed by the file name |
| Candidatures.StoredContentNonEmpty | Backend/controllers/candidatureController.js:31-47 | A submission that passes the content check stores a file URL or a message |
| Candidatures.CandidatureTable.Submit | Backend/controllers/candidatureController.js:12-49 | Each error holds exactly when its guard is the first to fail: 400 for no offer id, 404 for a missing or non-`valide` offer, 409 for an existing pair. The 400 for no content means no file and an absent or blank message. Nothing is written on any error. Otherwise one `en_attente` row with the stored message, file URL, caller and offer is inserted under a fresh id. The invariants are kept |
| Candidatures.CandidatureTable.UpdateStatus | Backend/controllers/candidatureController.js:76-144 | 400 iff the status is invalid, 404 iff the id names no row, and 409 iff an acceptance is requested while another candidature on the same offer is already accepted. In each of these cases nothing changes. A rejection writes `RejectRow` and answers 200 with the row. An acceptance writes `AcceptRows` and answers 500. The invariants are kept |
| Candidatures.CandidatureTable.ByOffer | Backend/controllers/candidatureController.js:163-173 | Exactly the candidatures on the offer the route names, each once, newest first |
| Candidatures.CandidatureTable.Mine | Backend/controllers/candidatureController.js:194-204 | Exactly the caller's candidatures, each once, newest first |
| Accounts.Public | Backend/controllers/authController.js:75-80 | The response user carries the username, email, role and company name, and has no password field |
| Accounts.RedirectFor | Backend/controllers/authController.js:128-140 | Login redirects to one of `/entreprise/home`, `/ministere/home` and `/dashboard` |
| Accounts.RedirectByRole | Backend/controllers/authController.js:128-140 | `/entreprise/home` iff the role is `entreprise`. `/ministere/home` iff it is in the ministry family. `/dashboard` iff it names no role |
| Accounts.UserTable.FindByUsername | Backend/controllers/authController.js:102-105 | Some user iff a stored user has that username, and then it is that stored row |
| Accounts.UserTable.Register | Backend/controllers/authController.js:41-81 | 400 for missing fields iff username, password or email is falsy. "username taken" only when a stored user has the username. "email taken" only when a stored user has the email and a different username. Registered iff all fields are present and no stored user shares the username or email; then one row is inserted with the hashed password and role `entreprise`, and the response is its public view. Nothing is written otherwise, and uniqueness is kept |
| Accounts.UserTable.Login | Backend/controllers/authController.js:97-153 | 400 iff username or password is falsy. 401 iff the user is unknown or the password does not match, the same answer in both cases. On success the token signs exactly {id, role}, and the response has the public user and the role's redirect |
| Accounts.StoredRolesHaveHomes | Backend/controllers/authController.js:128-140 | No stored role is sent to `/dashboard`; `entreprise` goes to its home and the others to the ministry home |
| Accounts.ValidateRegisterInput | Backend/controllers/userController.js:22-30 | The missing-fields message iff a field is falsy. The length message iff all are present and the password is shorter than 8. Null otherwise |
| Accounts.UserRegisterPrecheck | Backend/controllers/userController.js:33-36 | The user controller's register stops with 400 and the validator's message iff the validator returns one |
| Accounts.UsersAdminPrecheck | Backend/controllers/userController.js:145-147 | getAllUsers and deleteUser go on iff the role is `admin`, and otherwise stop with 403 |
| Accounts.UsersStricterThanAdminGate | Backend/controllers/userController.js:167-169 | Whoever passes the user-controller check passes `adminMiddleware`; `ministere` and `ministerepublique` pass the middleware and are refused here |
| Accounts.ShortPasswordOnlyRefusedByUserController | Backend/controllers/userController.js:26-28 | Every password of 1 to 7 characters passes the mounted register's field check, while the user controller's validator stops it with 400 and its length message |
| Authorization.BearerToken | Backend/middlewares/auth.js:6-11 | No token iff the header is absent or does not start with "Bearer " |
| Authorization.BearerHeader | frontend/src/Pages/Offre/MesCandidatures.jsx:26 | The header a page sends starts with "Bearer " |
| Authorization.BearerRoundTrip | Backend/middlewares/auth.js:7-11 | The middleware reads back exactly the token a page sent, for any token without a space |
| Authorization.Authenticate | Backend/middlewares/auth.js:4-25 | 401 for a malformed header iff no bearer token; for an invalid token iff verification fails; for an unknown user iff the verified id has no row. On success the principal is that stored user |
| Authorization.TokenRoleIgnored | Backend/middlewares/auth.js:14-19 | Once verified, the outcome depends on the token's id only, never on its role claim |
| Authorization.MinistryFamilyIsNotEntreprise | Backend/middlewares/auth.js:29-31 | The allowed-role list is exactly every role but `entreprise` |
| Authorization.AdminGate | Backend/middlewares/auth.js:27-38 | Passes iff the role is `ministere`, `admin` or `ministerepublique`. Otherwise 403 with the caller's role in the message and the allowed list |
| Authorization.EntrepriseGate | Backend/routes/candidatureRoutes.js:8-13 | Passes iff the role is `entreprise`, otherwise 403 |
| Authorization.GatesExclusive | Backend/routes/dashboardRoutes.js:7-18 | Every role passes exactly one of the two role gates |
| Authorization.Dispatch | Backend/routes/offerRoutes.js:7-25 | Express picks the first registered route that matches (literal segments in any letter case), and only when no earlier one does |
| Authorization.DispatchIgnoresCase | Backend/routes/offerRoutes.js:2-25 | Paths whose segments agree once lower-cased reach the same route: routers are not case-sensitive |
| Authorization.PublishedBeforeId | Backend/routes/offerRoutes.js:13-16 | `GET /published`, in any letter case, reaches the published listing, not the by-id handler |
| Authorization.OtherSegmentIsId | Backend/routes/offerRoutes.js:16 | Any other single non-empty segment (not "published" in any letter case) reaches the by-id handler |
| Authorization.RunGuards | Backend/routes/candidatureRoutes.js:16-46 | A guard chain denies only with 401, 403 or 500. A chain with authentication passes only with a principal |
| Authorization.AuthFirstNeverServerError | Backend/routes/candidatureRoutes.js:16-46 | A chain that authenticates first never hits the 500 of a role check without a user |
| Authorization.EveryRouteAuthenticatesFirst | Backend/routes/candidatureRoutes.js:16-46 | In all three routers, every guarded route starts with authentication, so it authenticates before any role check |
| Authorization.AuthThenGate | Backend/routes/dashboardRoutes.js:15-18 | `auth → role gate` (plus uploads) passes iff the caller is authenticated and the gate admits the caller's stored role. An unauthenticated caller gets 401 |
| Authorization.SubmitNeedsEntreprise | Backend/routes/candidatureRoutes.js:16-22 | A candidature can be submitted iff the caller is an authenticated `entreprise` |
| Authorization.StatusChangeNeedsMinistry | Backend/routes/candidatureRoutes.js:25-30 | A status can be changed iff the caller is an authenticated member of the ministry family; never by an `entreprise` |
| Authorization.CandidatureListingGuards | Backend/routes/candidatureRoutes.js:33-46 | Listing by offer needs the ministry family; listing one's own needs `entreprise` |
| Authorization.OfferRouteGuards | Backend/routes/offerRoutes.js:7-25 | Create, validate, reject and delete pass iff the caller is an authenticated member of the ministry family. The three reads always pass |
| Authorization.DashboardsExclusive | Backend/routes/dashboardRoutes.js:15-18 | `/entreprise` admits exactly authenticated `entreprise` users and `/ministere` exactly the ministry family; no caller gets both |
| Dashboard.FirstN | Backend/controllers/dashboardController.js:160-162 | `slice(0, n)` is a prefix of at most n elements: the whole list when shorter, exactly n otherwise |
| Dashboard.EntrepriseDashboard | Backend/controllers/dashboardController.js:10-38 | At most 10 offers, newest first, all stored and `valide`, with `totalOffres` their count. The candidatures are exactly the caller's, each as often as among the rows, and `totalCandidatures` is their count. Each status count is the number of those candidatures with that status, and the three sum to the total |
| Dashboard.EntrepriseOffersAreNewest | Backend/controllers/dashboardController.js:10-17 | A `valide` offer left off the dashboard means it shows 10 offers, each at least as recent as the one left off |
| Dashboard.CandidatureCountsSum | Backend/controllers/dashboardController.js:35-37 | The three candidature-status counts sum to the list length |
| Dashboard.OfferCountsSum | Backend/controllers/dashboardController.js:104-109 | The three offer-status counts sum to the list length |
| Dashboard.RoleCountsSum | Backend/controllers/dashboardController.js:95-101 | The four role counts sum to the list length |
| Dashboard.UserStatsOf | Backend/controllers/dashboardController.js:95-101 | `userStats`: the total is the length, each role count is that role's count, and they sum to the total |
| Dashboard.OfferStatsOf | Backend/controllers/dashboardController.js:104-109 | `offerStats`: the total and the three status counts, which sum to it |
| Dashboard.CandidatureStatsOf | Backend/controllers/dashboardController.js:112-117 | `candidatureStats`: the total and the three status counts, which sum to it |
| Dashboard.FindUser | Backend/controllers/dashboardController.js:146 | `find` returns a listed user with that id, and `None` iff no user has it |
| Dashboard.Enrich | Backend/controllers/dashboardController.js:145-153 | The offer is kept. The company is null iff no user has the creator id. Otherwise its name is the creator's company name when truthy, else the username, and its `nom` is the creator's |
| Dashboard.EnrichAll | Backend/controllers/dashboardController.js:145-154 | Each offer is enriched in place, and the length is kept |
| Dashboard.MinistereDashboard | Backend/controllers/dashboardController.js:74-168 | Each list has at most 10 entries, and exactly 10 when there are that many rows. Every total is the row count. The user, offer and candidature statistics are the role and status counts over the rows (`UserStatsOf`, `OfferStatsOf`, `CandidatureStatsOf`), which sum to their totals |
| Dashboard.MinistereUsersAreNewest | Backend/controllers/dashboardController.js:160 | The user list is a prefix of the newest-first users and is itself newest first |
| Dashboard.MinistereCandidaturesAreNewest | Backend/controllers/dashboardController.js:162 | The candidature list is a prefix of the newest-first candidatures and is itself newest first |
| Dashboard.MinistereOffersAreEnriched | Backend/controllers/dashboardController.js:145-161 | The offer list is the first offers in newest-first order, each enriched from the user list |
| Lists.Filter | Backend/controllers/dashboardController.js:35-37 | `filter` keeps exactly the elements satisfying the test, each as often as in the input, and no others |
| Lists.FilterIsSublist | frontend/src/Pages/Offre/OffresDisponibles.jsx:49-62 | `filter` keeps the input's order |
| Lists.SortNewestFirst | Backend/controllers/offerController.js:65-68 | `ORDER BY createdAt DESC` is newest first and a permutation of the rows |
| Lists.CountPermutation | Backend/controllers/dashboardController.js:95-117 | Two lists holding the same elements, in any order, give the same `filter(...).length` |
| Lists.CountAfterSort | Backend/controllers/dashboardController.js:95-117 | Counting over the sorted listing gives the same counts as over the rows |
| Lists.TakeNewest | Backend/controllers/dashboardController.js:15-16 | `LIMIT n` on a newest-first list keeps the n most recent: none left out is newer |
| Lists.Distinct | frontend/src/Pages/Offre/OffresDisponibles.jsx:34 | `[...new Set(xs)]` holds every element once and only those, in order of first occurrence |
| Lists.Scan | Backend/controllers/offerController.js:87-89 | A table scan yields exactly the stored rows, one entry per key |
| Common.TrimIsInnerSlice | Backend/controllers/offerController.js:38-40 | `trim` keeps one contiguous slice and drops only white space |
| Common.TrimIdempotent | frontend/src/Pages/Ministere/CreerOffreNouveau.jsx:63-66 | Trimming twice is trimming once |
| Common.BlankIffAllSpace | Backend/controllers/candidatureController.js:31 | A string trims to empty iff every character is white space |
| Common.ToLowerIdempotent | frontend/src/Pages/Offre/OffresDisponibles.jsx:53-54 | Lowering twice is lowering once |
| Common.IncludesEmpty | frontend/src/Pages/Offre/OffresDisponibles.jsx:53 | The empty string is included in every string |
| Common.SecondSegment | Backend/middlewares/auth.js:11 | `split(' ')[1]` is undefined iff the header holds no space |
| Common.JoinIncludesEachPart | frontend/src/Pages/Ministere/CreerOffre.jsx:115 | Every part appears in the joined string |
| Common.KeyOf | Backend/controllers/offerController.js:114 | An id string names a key iff it is a non-empty string of digits |
| Common.KeyPassesParseInt | Backend/controllers/offerController.js:110-117 | Every id string that names a key passes the `parseInt` guard |
| VercelErrors.ApplicationRow | frontend/src/utils/vercelErrorHandler.js:11-62 | The application table; every status in it lies in 300..599 |
| VercelErrors.PlatformRow | frontend/src/utils/vercelErrorHandler.js:65-88 | The platform table; every entry is category Internal with status 500 |
| VercelErrors.InfoFor | frontend/src/utils/vercelErrorHandler.js:91-103 | An entry iff the code is in either table, and it repeats the code. A platform code gets the Internal 500 entry; an application-only code gets its own row |
| VercelErrors.MessageFor | frontend/src/utils/vercelErrorHandler.js:128-172 | An undeclared code gets the unknown message. A platform code gets the platform message naming it, before any switch case. An application code gets its switch sentence, or the default message naming it |
| VercelErrors.HandleVercelError | frontend/src/utils/vercelErrorHandler.js:180-197 | The error state is set iff its callback is given, and the error shown iff that callback is given. The state holds the code and the message, a status iff the code is known (that entry's status), and the platform flag iff it is a platform code |
| VercelErrors.TablesCoverCodes | frontend/src/utils/vercelErrorHandler.js:11-88 | Every declared code is in some table, and FUNCTION_THROTTLED is the only code in both |
| VercelErrors.ThrottledResolvesToPlatform | frontend/src/utils/vercelErrorHandler.js:91-94 | FUNCTION_THROTTLED is in both tables. The merge keeps the platform entry (Internal 500, not Function 503), and its message is the platform message |
| VercelErrors.PlatformCodesAreInternal | frontend/src/utils/vercelErrorHandler.js:65-94 | Every platform code reads as an Internal 500 |
| VercelErrors.UnknownMessageIffUndeclared | frontend/src/utils/vercelErrorHandler.js:131-133 | The unknown message is produced iff the code is in neither table |
| VercelErrors.PlatformMessageIffPlatform | frontend/src/utils/vercelErrorHandler.js:135-137 | The platform message is produced iff the code is a platform code |
| VercelErrors.SwitchCasesAreReachable | frontend/src/utils/vercelErrorHandler.js:140-171 | Every switch case names an application code outside the platform table, so no case is dead |
| VercelErrors.NotFoundCodesShareMessage | frontend/src/utils/vercelErrorHandler.js:141-143 | DEPLOYMENT_NOT_FOUND and NOT_FOUND share the not-found sentence |
| VercelErrors.UncasedCodeGetsDefault | frontend/src/utils/vercelErrorHandler.js:169-170 | DNS_HOSTNAME_NOT_FOUND, an application code with no case of its own, gets the default message naming it |
| OfferForms.ValidateForm | frontend/src/Pages/Ministere/CreerOffreNouveau.jsx:61-102 | Null iff every check passes. Each message is returned iff all earlier checks pass and its own fails, in order: blank title, title under 5, blank description, description under 20, no domain, no deadline, deadline at or before today 00:00, deadline after now plus two years |
| OfferForms.NewPayload | frontend/src/Pages/Ministere/CreerOffreNouveau.jsx:139-143 | The body has the title and description trimmed, and the domain and deadline as chosen |
| OfferForms.SubmitNew | frontend/src/Pages/Ministere/CreerOffreNouveau.jsx:111-143 | A failed check shows its message and sends nothing. Otherwise a missing token shows the session message. A body is sent iff the form is acceptable and a token is stored; it is `NewPayload` and its texts have no white space at either end |
| OfferForms.NewFormPayloadPassesServerFields | frontend/src/Pages/Ministere/CreerOffreNouveau.jsx:139-143 | The body the newer form sends always passes the server's field check. Only the deadline or the caller can refuse it, and neither does for a future deadline and a caller |
| OfferForms.UnparsableDeadlinePassesForm | frontend/src/Pages/Ministere/CreerOffreNouveau.jsx:86-99 | An unparsable deadline passes validateForm, since no comparison with an Invalid Date holds. The server refuses it as invalid |
| OfferForms.EarlierTodayPassesFormOnly | frontend/src/Pages/Ministere/CreerOffreNouveau.jsx:86-92 | A deadline earlier today passes the form, which compares with today 00:00. The server, which compares with now, refuses it |
| OfferForms.CheckOldForm | frontend/src/Pages/Ministere/CreerOffre.jsx:45-75 | Each message iff all earlier checks pass and its own fails, in order: blank title, blank description, empty domain, empty deadline, deadline at or before now. None otherwise |
| OfferForms.SubmitOld | frontend/src/Pages/Ministere/CreerOffre.jsx:45-93 | A failed check shows its message. Otherwise a missing token shows the not-logged-in message and sends nothing. The body is sent iff both pass, with the texts exactly as typed |
| OfferForms.OldFormTitleTrimmedByServer | frontend/src/Pages/Ministere/CreerOffre.jsx:88-93 | Whatever the old form sends carries the title as typed, which is not blank, so the server's field check passes it; the server stores its trim, which is non-empty and differs from the typed title exactly when that has white space at an end |
| OfferForms.NewFieldsSatisfyOldFields | frontend/src/Pages/Ministere/CreerOffre.jsx:45-75 | A form the newer page accepts fails the older page's checks only on the deadline |
| OfferForms.DetailTexts | frontend/src/Pages/Ministere/CreerOffre.jsx:115 | `details.map(d => d.message)` keeps one text per detail, in order |
| OfferForms.ErrorText | frontend/src/Pages/Ministere/CreerOffre.jsx:111-121 | A details array is shown as its messages joined by ", " after the prefix. Other details show the body's message. Otherwise the message, or the default text |
| OfferForms.EveryDetailShown | frontend/src/Pages/Ministere/CreerOffre.jsx:115 | Every detail's message appears in the error shown |
| OfferBrowsing.Domaines | frontend/src/Pages/Offre/OffresDisponibles.jsx:34 | `offers.map(o => o.domaine)` keeps length and order |
| OfferBrowsing.UniqueDomains | frontend/src/Pages/Offre/OffresDisponibles.jsx:34 | The domain choices are exactly the offered domaines, without duplicates, in order of first occurrence |
| OfferBrowsing.FilterOffers | frontend/src/Pages/Offre/OffresDisponibles.jsx:49-62 | An offer is kept iff it matches the search (when a term is typed) and the domain (when one is chosen). With neither, the list is returned as it is |
| OfferBrowsing.FilteredIsSublist | frontend/src/Pages/Offre/OffresDisponibles.jsx:49-62 | The filtered list is an order-preserving sub-list, hence no longer |
| OfferBrowsing.OfferedDomainIsNeverEmpty | frontend/src/Pages/Offre/OffresDisponibles.jsx:58-60 | Choosing an offered domain with no search term shows at least one offer, and only that domain's |
| OfferBrowsing.SearchIgnoresCase | frontend/src/Pages/Offre/OffresDisponibles.jsx:51-56 | Searching for a term or for its lowercase gives the same list |
| OfferBrowsing.ShowsApply | frontend/src/Pages/Offre/OffresDisponibles.jsx:215-217 | The apply link shows iff the deadline does not parse or is not before now |
| OfferBrowsing.ApplyShownUpToDeadline | frontend/src/Pages/Offre/OffresDisponibles.jsx:215-217 | The link still shows at the deadline itself and disappears after it |
| CandidaturePages.StatsOf | frontend/src/Pages/Offre/MesCandidatures.jsx:86-91 | The total is the list length, and each count is the number of rows with exactly that status |
| CandidaturePages.StatsAddUp | frontend/src/Pages/Offre/MesCandidatures.jsx:86-91 | When every status is one the server stores, the three counts sum to the total |
| CandidaturePages.StrayStatusUncounted | frontend/src/Pages/Ministere/GestionCandidatures.jsx:48-53 | Appending a row whose status is none of the three raises the total by one and leaves the three counts unchanged |
| CandidaturePages.FilterByStatus | frontend/src/Pages/Offre/MesCandidatures.jsx:44-50 | 'all' gives the whole list; any other filter keeps exactly the rows with that exact status |
| CandidaturePages.FilteredWithinTotal | frontend/src/Pages/Offre/MesCandidatures.jsx:153 | The filtered list is an order-preserving sub-list, so "n of m" never shows n above m |
| CandidaturePages.FilterMatchesStats | frontend/src/Pages/Offre/MesCandidatures.jsx:44-50 | Filtering on a status shows as many rows as that status's count |
| CandidaturePages.StatusText | frontend/src/Pages/Offre/MesCandidatures.jsx:63-72 | 'Acceptée' iff `acceptée`, 'Rejetée' iff `rejetée`, otherwise 'En attente' |
| CandidaturePages.StatusTextOfStored | frontend/src/Pages/Offre/MesCandidatures.jsx:63-72 | Each stored status gets its own label |
| CandidaturePages.LoadOwn | frontend/src/Pages/Offre/MesCandidatures.jsx:17-27 | With no token an error is set and no fetch happens; otherwise the fetch carries the bearer header |
| CandidaturePages.OwnFetchCarriesToken | frontend/src/Pages/Offre/MesCandidatures.jsx:25-27 | A stored token without spaces reaches the middleware intact |
| CandidaturePages.ActionsOnlyOnPending | frontend/src/Pages/Ministere/GestionCandidatures.jsx:289-307 | For stored statuses, Accept/Reject are offered iff the row is `en_attente` |
| CandidaturePages.ButtonsSendAcceptedStatuses | frontend/src/Pages/Ministere/GestionCandidatures.jsx:292-300 | The two buttons send exactly the statuses the server accepts, meaning acceptance and rejection |
| CandidaturePages.LocalUpdate | frontend/src/Pages/Ministere/GestionCandidatures.jsx:70-72 | Length, order, ids and offers are kept. Exactly the rows with that id take the new status; the others keep theirs |
| CandidaturePages.AfterResponse | frontend/src/Pages/Ministere/GestionCandidatures.jsx:61-78 | A 2xx response applies the local update; any other status leaves the list as it was |
| CandidaturePages.LocalUpdateTouchesOnlyTarget | frontend/src/Pages/Ministere/GestionCandidatures.jsx:70-72 | A row with another id is unchanged |
| CandidaturePages.LocalUpdateMissesCascade | frontend/src/Pages/Ministere/GestionCandidatures.jsx:70-72 | A pending sibling on the same offer stays pending locally after a recorded acceptance, though the server's cascade rejects it |
| CandidaturePages.AcceptIsNeverRecordedLocally | frontend/src/Pages/Ministere/GestionCandidatures.jsx:61-78 | An acceptance's 500 leaves the list as it was; a rejection's 200 applies the local update |
| Session.Decide | frontend/src/Components/PrivateRoute.jsx:7-26 | No token, or one that does not decode, goes to /login. Render iff the decoded role is in the allowed roles. `/` iff it decodes with a role outside them |
| Session.LoginTarget | frontend/src/context/AuthContext.jsx:51-59 | A truthy redirectTo is used as it is. Otherwise `/ministere/home` iff the role is in the ministry family, `/entreprise/home` iff it is `entreprise`, else `/` |
| Session.FallbackAgreesWithServer | frontend/src/context/AuthContext.jsx:51-59 | For every stored role, the fallback lands where the server's redirect does |
| Session.FallbackDiffersOnUnknownRole | frontend/src/context/AuthContext.jsx:51-59 | For every string that names no role, the server says `/dashboard` and the fallback says `/` |
| Session.AuthSession.constructor | frontend/src/context/AuthContext.jsx:8-15 | The user starts as the stored user, and isAuthenticated starts true iff a token is stored |
| Session.AuthSession.CheckOnLoad | frontend/src/context/AuthContext.jsx:18-28 | Storage is unchanged. Authenticated iff both keys are stored, and then the stored user is restored |
| Session.AuthSession.Login | frontend/src/context/AuthContext.jsx:30-68 | Stores the token, and the user without it. Sets the user with the token and isAuthenticated. Moves to `LoginTarget` |
| Session.AuthSession.Logout | frontend/src/context/AuthContext.jsx:70-77 | Removes both keys, clears the user and the flag, and moves to /login |
| Session.AuthSession.Guard | frontend/src/Components/PrivateRoute.jsx:7-26 | Decides as `Decide` on the stored token, and removes the token iff it is truthy and does not decode. Nothing else changes, so an authenticated context can be left without a token |
| Session.GuardAfterLogout | frontend/src/Components/PrivateRoute.jsx:9-11 | After logout every guarded route goes to /login |
| Session.GuardAfterLogin | frontend/src/Components/PrivateRoute.jsx:13-21 | After a login whose token decodes with an allowed role, the route renders |
| Session.UseAuth | frontend/src/context/AuthContext.jsx:91-97 | Throws the provider message iff used outside the provider; otherwise yields the context's user and flag |

## Left out

- Password hashing (bcrypt and its salt rounds) and JWT signing, verification, expiry and decoding: foreign cryptography. They are the parameters `hash`, `matches`, `sign`, `verify` and `decode`.
- The secret-length check at startup, and all of `Backend/server.js`: process wiring, with no logic to model. Its copies of the middlewares are not part of this model.
- Concurrency: the accept path runs separate queries without a transaction. It is modelled as one sequential step, and nothing is claimed about concurrent requests.
- The accept path's response body: it throws before building one, so the model gives the 500 outcome and no `autoRejected` count.
- File storage and upload file names: the upload guard always passes, and the file name is an opaque input.
- Dates and time zones: deadlines and instants are integers, `new Date(text)` is a parameter, and "today at 00:00" and "now plus two years" are given as integers.
- The monthly chart of the ministry dashboard: a loop over calendar months, which needs date arithmetic.
- The user controller's database paths (its register after the check, login, getAllUsers' query, deleteUser's destroy) and `Backend/routes/userRoutes.js`: neither is mounted, and both reference names that do not exist. Only the user controller's checks are modelled.
- ORM associations and the `include` projections of the listings: foreign keys are plain integers, and listings return whole rows.
- `updatedAt` and the response envelopes (`message`, `count`, `expiresIn`): not modelled.
- Common.KeyOf: an id string that is not all digits names no row (404). Sequelize's own casting of such strings, such as `"12abc"`, is not modelled.
- Common.IsSpace: `trim` is modelled with ten white-space characters, not the full Unicode white-space set. String lengths are in characters, not UTF-16 units.
- Common.LowerChar: `toLowerCase` is modelled on ASCII letters only. The routers' case-insensitive matching uses the same lowering.
- Offers.OfferTable.Delete: the database's referential action on the candidatures of a deleted offer is not modelled. `Offer.hasMany(Candidature)` (Backend/models/index.js:47-50, with the schema altered at startup, Backend/server.js:34) would cascade or make the delete fail with 500; the model removes the offer row only.
- VercelErrors: the JavaScript `in` operator and object lookups also match inherited keys such as `toString`. The tables are modelled as finite maps over the declared codes. `ParseCode` reads a string as a declared code; the lemmas are stated over the looked-up code, and no round trip between `ParseCode` and `CodeName` is proved.
- VercelErrors.HandleVercelError: the console logging is not modelled.
- Lists.SortNewestFirst: rows with equal `createdAt` come out in one fixed order, whereas the database leaves ties in no defined order.
- Accounts.UserTable.Register: when two stored users match (one by username, another by email), the database's choice between them is modelled as an arbitrary choice, so the message may be either.
- The pages' network calls, alerts, loading flags and delayed navigation (`setTimeout`): only the decisions and state changes are modelled. The login redirect happens at once in `Session.AuthSession.Login`.
- Session: `localStorage` is two fields, and `JSON.stringify`/`JSON.parse` of the user is the identity on `Profile`.
- The presentation-only pages (home, dashboards' views, offer management, login and register forms, details, navigation bar, router wiring, styling): no logic beyond what the modelled pages already do.
