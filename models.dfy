/**
 * The three persisted entities of the portal (users, offers and
 * candidatures) with their enumerations and the strings those
 * enumerations are stored and sent as.
 *
 * Foreign keys (`createdById`, `entrepriseId`, `offerId`) are plain
 * integers, as in the schema; the `createdAt` column that timestamps add
 * is an integer instant. `updatedAt` is not modelled.
 */
module Models {
  import opened Common

  // ---------------------------------------------------------------------
  // Roles

  datatype Role = Entreprise | Admin | Ministere | MinisterePublique

  /** The stored and transmitted spelling of a role. */
  function RoleName(r: Role): string {
    match r
    case Entreprise => "entreprise"
    case Admin => "admin"
    case Ministere => "ministere"
    case MinisterePublique => "ministerepublique"
  }

  /** The role a string names, if it names one of the four. */
  function ParseRole(s: string): (r: Option<Role>)
    ensures r.Some? ==> RoleName(r.value) == s
  {
    if s == "entreprise" then Some(Entreprise)
    else if s == "admin" then Some(Admin)
    else if s == "ministere" then Some(Ministere)
    else if s == "ministerepublique" then Some(MinisterePublique)
    else None
  }

  /** Every role reads back as itself, so the four spellings are distinct. */
  lemma RoleNameRoundTrip(r: Role)
    ensures ParseRole(RoleName(r)) == Some(r)
  {
  }

  // ---------------------------------------------------------------------
  // Offer status

  datatype OfferStatus = EnAttente | Valide | Rejetee

  function OfferStatusName(s: OfferStatus): string {
    match s
    case EnAttente => "en_attente"
    case Valide => "valide"
    case Rejetee => "rejetée"
  }

  function ParseOfferStatus(s: string): (r: Option<OfferStatus>)
    ensures r.Some? ==> OfferStatusName(r.value) == s
  {
    if s == "en_attente" then Some(OfferStatus.EnAttente)
    else if s == "valide" then Some(Valide)
    else if s == "rejetée" then Some(OfferStatus.Rejetee)
    else None
  }

  lemma OfferStatusRoundTrip(s: OfferStatus)
    ensures ParseOfferStatus(OfferStatusName(s)) == Some(s)
  {
  }

  // ---------------------------------------------------------------------
  // Candidature status

  datatype CandidatureStatus = EnAttente | Acceptee | Rejetee

  function CandidatureStatusName(s: CandidatureStatus): string {
    match s
    case EnAttente => "en_attente"
    case Acceptee => "acceptée"
    case Rejetee => "rejetée"
  }

  function ParseCandidatureStatus(s: string): (r: Option<CandidatureStatus>)
    ensures r.Some? ==> CandidatureStatusName(r.value) == s
  {
    if s == "en_attente" then Some(CandidatureStatus.EnAttente)
    else if s == "acceptée" then Some(Acceptee)
    else if s == "rejetée" then Some(CandidatureStatus.Rejetee)
    else None
  }

  lemma CandidatureStatusRoundTrip(s: CandidatureStatus)
    ensures ParseCandidatureStatus(CandidatureStatusName(s)) == Some(s)
  {
  }

  // ---------------------------------------------------------------------
  // Records

  /**
   * A user row. `username`, `email`, `password` and `role` are required
   * (non-null) and the role has no default; `nom` and `companyName` are
   * nullable. Uniqueness of `username` and `email` is a property of the
   * table (see `Accounts.UserTable.Valid`).
   */
  datatype User = User(
    id: nat,
    username: string,
    nom: Option<string>,
    email: string,
    password: string,
    role: Role,
    companyName: Option<string>,
    createdAt: int)

  /**
   * An offer row. The text fields, the deadline and the creator are
   * required; the status is one of three values; the two decision instants
   * are nullable.
   */
  datatype Offer = Offer(
    id: nat,
    title: string,
    description: string,
    domaine: string,
    dateLimite: int,
    status: OfferStatus,
    validatedAt: Option<int>,
    rejectedAt: Option<int>,
    createdById: nat,
    createdAt: int)

  /**
   * A candidature row: nullable message and file URL, a required status and
   * the two required foreign keys. Nothing in the schema makes the
   * (entrepriseId, offerId) pair unique.
   */
  datatype Candidature = Candidature(
    id: nat,
    message: Option<string>,
    status: CandidatureStatus,
    fileUrl: Option<string>,
    entrepriseId: nat,
    offerId: nat,
    createdAt: int)

  /** A new offer row: the status column's default applies when none is given. */
  function DefaultOfferStatus(): (s: OfferStatus)
    ensures OfferStatusName(s) == "en_attente"
  {
    OfferStatus.EnAttente
  }

  /** A new candidature row: the status column's default applies when none is given. */
  function DefaultCandidatureStatus(): (s: CandidatureStatus)
    ensures CandidatureStatusName(s) == "en_attente"
  {
    CandidatureStatus.EnAttente
  }

  function OfferCreatedAt(o: Offer): int { o.createdAt }
  function CandidatureCreatedAt(c: Candidature): int { c.createdAt }
  function UserCreatedAt(u: User): int { u.createdAt }
}
