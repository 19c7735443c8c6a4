/**
 * The two dashboards: per-status and per-role counts over the listings,
 * the truncation of each listing to its first ten rows, and the lookup of
 * an offer's creator. The inputs are the rows the queries return; the
 * monthly chart is not modelled.
 */
module Dashboard {
  import opened Common
  import opened Lists
  import opened Models

  predicate OfferIsValide(o: Offer) { o.status == Valide }
  predicate OfferIsEnAttente(o: Offer) { o.status == OfferStatus.EnAttente }
  predicate OfferIsRejetee(o: Offer) { o.status == OfferStatus.Rejetee }

  predicate CandIsEnAttente(c: Candidature) { c.status == CandidatureStatus.EnAttente }
  predicate CandIsAcceptee(c: Candidature) { c.status == Acceptee }
  predicate CandIsRejetee(c: Candidature) { c.status == CandidatureStatus.Rejetee }

  predicate IsEntreprise(u: User) { u.role == Entreprise }
  predicate IsAdmin(u: User) { u.role == Admin }
  predicate IsMinistere(u: User) { u.role == Ministere }
  predicate IsMinisterePublique(u: User) { u.role == MinisterePublique }

  /** `s.slice(0, n)` and `LIMIT n`: the first `n` elements, or all of them when there are fewer. */
  function FirstN<T>(s: seq<T>, n: nat): (r: seq<T>)
    ensures |r| <= n && |r| <= |s|
    ensures |s| <= n ==> r == s
    ensures |s| > n ==> |r| == n
    ensures r == s[..|r|]
    ensures forall x :: x in r ==> x in s
  {
    if |s| <= n then s else s[..n]
  }

  // ---------------------------------------------------------------------
  // Entreprise dashboard

  datatype EntrepriseStats = EntrepriseStats(
    totalOffres: nat,
    totalCandidatures: nat,
    candidaturesEnAttente: nat,
    candidaturesValides: nat,
    candidaturesRejetees: nat)

  datatype EntrepriseView = EntrepriseView(offers: seq<Offer>, candidatures: seq<Candidature>, stats: EntrepriseStats)

  /**
   * getEntrepriseDashboard over the offer rows and candidature rows as
   * the table scans return them: the ten newest `valide` offers, the
   * caller's candidatures, and their counts.
   */
  function EntrepriseDashboard(offerRows: seq<Offer>, candidatureRows: seq<Candidature>, entrepriseId: nat): (v: EntrepriseView)
    ensures |v.offers| <= 10 && v.stats.totalOffres == |v.offers|
    ensures NewestFirst(v.offers, OfferCreatedAt)
    ensures forall o :: o in v.offers ==> o in offerRows && o.status == Valide
    ensures forall c :: c in v.candidatures <==> c in candidatureRows && c.entrepriseId == entrepriseId
    ensures forall c :: multiset(v.candidatures)[c] == if c.entrepriseId == entrepriseId then multiset(candidatureRows)[c] else 0
    ensures v.stats.totalCandidatures == |v.candidatures|
    ensures v.stats.candidaturesEnAttente == Count(v.candidatures, CandIsEnAttente)
    ensures v.stats.candidaturesValides == Count(v.candidatures, CandIsAcceptee)
    ensures v.stats.candidaturesRejetees == Count(v.candidatures, CandIsRejetee)
    ensures v.stats.candidaturesEnAttente + v.stats.candidaturesValides + v.stats.candidaturesRejetees
            == v.stats.totalCandidatures
  {
    var sorted := SortNewestFirst(Filter(offerRows, OfferIsValide), OfferCreatedAt);
    var offers := FirstN(sorted, 10);
    TakeNewest(sorted, OfferCreatedAt, 10);
    var mine := Filter(candidatureRows, (c: Candidature) => c.entrepriseId == entrepriseId);
    CandidatureCountsSum(mine);
    EntrepriseView(offers, mine,
      EntrepriseStats(|offers|, |mine|, Count(mine, CandIsEnAttente), Count(mine, CandIsAcceptee), Count(mine, CandIsRejetee)))
  }

  /** The dashboard's offers are the ten newest published ones: a published offer left out is no newer than any shown. */
  lemma {:induction false} EntrepriseOffersAreNewest(offerRows: seq<Offer>, candidatureRows: seq<Candidature>, entrepriseId: nat, o: Offer)
    requires o in offerRows && o.status == Valide
    ensures var v := EntrepriseDashboard(offerRows, candidatureRows, entrepriseId);
      o !in v.offers ==> |v.offers| == 10 && forall x :: x in v.offers ==> x.createdAt >= o.createdAt
  {
    var sorted := SortNewestFirst(Filter(offerRows, OfferIsValide), OfferCreatedAt);
    var shown := FirstN(sorted, 10);
    assert o in sorted;
    var j :| 0 <= j < |sorted| && sorted[j] == o;
    if o !in shown {
      assert forall i :: 0 <= i < |shown| ==> shown[i] == sorted[i];
      assert j >= |shown|;
      forall x | x in shown ensures x.createdAt >= o.createdAt {
        var i :| 0 <= i < |shown| && shown[i] == x;
        assert sorted[i] == x;
      }
    }
  }

  // ---------------------------------------------------------------------
  // Counts by status and by role

  /** The three candidature statuses partition any list: their counts sum to its length. */
  lemma {:induction false} CandidatureCountsSum(cs: seq<Candidature>)
    ensures Count(cs, CandIsEnAttente) + Count(cs, CandIsAcceptee) + Count(cs, CandIsRejetee) == |cs|
  {
    if cs != [] {
      assert cs == [cs[0]] + cs[1..];
      CountCons(cs[0], cs[1..], CandIsEnAttente);
      CountCons(cs[0], cs[1..], CandIsAcceptee);
      CountCons(cs[0], cs[1..], CandIsRejetee);
      CandidatureCountsSum(cs[1..]);
    }
  }

  /** The three offer statuses partition any list. */
  lemma {:induction false} OfferCountsSum(os: seq<Offer>)
    ensures Count(os, OfferIsValide) + Count(os, OfferIsEnAttente) + Count(os, OfferIsRejetee) == |os|
  {
    if os != [] {
      assert os == [os[0]] + os[1..];
      CountCons(os[0], os[1..], OfferIsValide);
      CountCons(os[0], os[1..], OfferIsEnAttente);
      CountCons(os[0], os[1..], OfferIsRejetee);
      OfferCountsSum(os[1..]);
    }
  }

  /** The four roles partition any list of users. */
  lemma {:induction false} RoleCountsSum(us: seq<User>)
    ensures Count(us, IsEntreprise) + Count(us, IsAdmin) + Count(us, IsMinistere) + Count(us, IsMinisterePublique) == |us|
  {
    if us != [] {
      assert us == [us[0]] + us[1..];
      CountCons(us[0], us[1..], IsEntreprise);
      CountCons(us[0], us[1..], IsAdmin);
      CountCons(us[0], us[1..], IsMinistere);
      CountCons(us[0], us[1..], IsMinisterePublique);
      RoleCountsSum(us[1..]);
    }
  }

  datatype UserStats = UserStats(total: nat, entreprise: nat, admin: nat, ministere: nat, ministerepublique: nat)
  datatype OfferStats = OfferStats(total: nat, valides: nat, enAttente: nat, rejetees: nat)
  datatype CandidatureStats = CandidatureStats(total: nat, enAttente: nat, acceptees: nat, rejetees: nat)

  function UserStatsOf(us: seq<User>): (s: UserStats)
    ensures s.total == |us|
    ensures s.entreprise + s.admin + s.ministere + s.ministerepublique == s.total
    ensures s.entreprise == Count(us, IsEntreprise) && s.admin == Count(us, IsAdmin)
            && s.ministere == Count(us, IsMinistere) && s.ministerepublique == Count(us, IsMinisterePublique)
  {
    RoleCountsSum(us);
    UserStats(|us|, Count(us, IsEntreprise), Count(us, IsAdmin), Count(us, IsMinistere), Count(us, IsMinisterePublique))
  }

  function OfferStatsOf(os: seq<Offer>): (s: OfferStats)
    ensures s.total == |os|
    ensures s.valides + s.enAttente + s.rejetees == s.total
    ensures s.valides == Count(os, OfferIsValide) && s.enAttente == Count(os, OfferIsEnAttente)
            && s.rejetees == Count(os, OfferIsRejetee)
  {
    OfferCountsSum(os);
    OfferStats(|os|, Count(os, OfferIsValide), Count(os, OfferIsEnAttente), Count(os, OfferIsRejetee))
  }

  function CandidatureStatsOf(cs: seq<Candidature>): (s: CandidatureStats)
    ensures s.total == |cs|
    ensures s.enAttente + s.acceptees + s.rejetees == s.total
    ensures s.enAttente == Count(cs, CandIsEnAttente) && s.acceptees == Count(cs, CandIsAcceptee)
            && s.rejetees == Count(cs, CandIsRejetee)
  {
    CandidatureCountsSum(cs);
    CandidatureStats(|cs|, Count(cs, CandIsEnAttente), Count(cs, CandIsAcceptee), Count(cs, CandIsRejetee))
  }

  // ---------------------------------------------------------------------
  // Ministère dashboard

  /** The company shown with an offer. */
  datatype Company = Company(companyName: string, nom: Option<string>)

  datatype EnrichedOffer = EnrichedOffer(offer: Offer, company: Option<Company>)

  /** `users.find(u => u.id === id)`: the first user with that id. */
  function FindUser(users: seq<User>, id: nat): (r: Option<User>)
    ensures r.None? <==> forall i :: 0 <= i < |users| ==> users[i].id != id
    ensures r.Some? ==> r.value in users && r.value.id == id
  {
    if users == [] then None
    else if users[0].id == id then Some(users[0])
    else FindUser(users[1..], id)
  }

  /**
   * An offer with its creator's company: the company name when truthy,
   * the username otherwise; `null` when no user has the creator's id.
   */
  function Enrich(users: seq<User>, o: Offer): (e: EnrichedOffer)
    ensures e.offer == o
    ensures e.company.None? <==> forall i :: 0 <= i < |users| ==> users[i].id != o.createdById
    ensures e.company.Some? ==>
      var u := FindUser(users, o.createdById).value;
      u.id == o.createdById && u in users && e.company.value.nom == u.nom
      && e.company.value.companyName == (if Truthy(u.companyName) then u.companyName.value else u.username)
  {
    match FindUser(users, o.createdById)
    case None => EnrichedOffer(o, None)
    case Some(u) =>
      EnrichedOffer(o, Some(Company(if Truthy(u.companyName) then u.companyName.value else u.username, u.nom)))
  }

  function EnrichAll(users: seq<User>, os: seq<Offer>): (r: seq<EnrichedOffer>)
    ensures |r| == |os|
    ensures forall i :: 0 <= i < |os| ==> r[i] == Enrich(users, os[i])
  {
    if os == [] then [] else [Enrich(users, os[0])] + EnrichAll(users, os[1..])
  }

  datatype MinistereView = MinistereView(
    users: seq<User>,
    offers: seq<EnrichedOffer>,
    candidatures: seq<Candidature>,
    userStats: UserStats,
    offerStats: OfferStats,
    candidatureStats: CandidatureStats)

  /**
   * getMinistereDashboard over the three tables' scans: each listing
   * sorted newest first, counts over the whole listings, and the first
   * ten of each listing, the offers enriched with their creator.
   */
  function MinistereDashboard(userRows: seq<User>, offerRows: seq<Offer>, candidatureRows: seq<Candidature>): (v: MinistereView)
    ensures |v.users| <= 10 && (|userRows| >= 10 ==> |v.users| == 10)
    ensures |v.offers| <= 10 && (|offerRows| >= 10 ==> |v.offers| == 10)
    ensures |v.candidatures| <= 10 && (|candidatureRows| >= 10 ==> |v.candidatures| == 10)
    ensures v.userStats.total == |userRows| && v.offerStats.total == |offerRows| && v.candidatureStats.total == |candidatureRows|
    ensures v.userStats.entreprise + v.userStats.admin + v.userStats.ministere + v.userStats.ministerepublique == |userRows|
    ensures v.offerStats.valides + v.offerStats.enAttente + v.offerStats.rejetees == |offerRows|
    ensures v.candidatureStats.enAttente + v.candidatureStats.acceptees + v.candidatureStats.rejetees == |candidatureRows|
    ensures v.userStats == UserStatsOf(userRows)
    ensures v.offerStats == OfferStatsOf(offerRows)
    ensures v.candidatureStats == CandidatureStatsOf(candidatureRows)
  {
    var us := SortNewestFirst(userRows, UserCreatedAt);
    var os := SortNewestFirst(offerRows, OfferCreatedAt);
    var cs := SortNewestFirst(candidatureRows, CandidatureCreatedAt);
    CountPermutation(us, userRows, IsEntreprise);
    CountPermutation(us, userRows, IsAdmin);
    CountPermutation(us, userRows, IsMinistere);
    CountPermutation(us, userRows, IsMinisterePublique);
    CountPermutation(os, offerRows, OfferIsValide);
    CountPermutation(os, offerRows, OfferIsEnAttente);
    CountPermutation(os, offerRows, OfferIsRejetee);
    CountPermutation(cs, candidatureRows, CandIsEnAttente);
    CountPermutation(cs, candidatureRows, CandIsAcceptee);
    CountPermutation(cs, candidatureRows, CandIsRejetee);
    MinistereView(FirstN(us, 10), EnrichAll(us, FirstN(os, 10)), FirstN(cs, 10),
                  UserStatsOf(us), OfferStatsOf(os), CandidatureStatsOf(cs))
  }

  /** The user listing is the first ten of the users, newest first. */
  lemma MinistereUsersAreNewest(userRows: seq<User>, offerRows: seq<Offer>, candidatureRows: seq<Candidature>)
    ensures var v := MinistereDashboard(userRows, offerRows, candidatureRows);
      var us := SortNewestFirst(userRows, UserCreatedAt);
      v.users == us[..|v.users|] && NewestFirst(v.users, UserCreatedAt)
  {
    var us := SortNewestFirst(userRows, UserCreatedAt);
    assert MinistereDashboard(userRows, offerRows, candidatureRows).users == FirstN(us, 10);
    TakeNewest(us, UserCreatedAt, 10);
  }

  /** The candidature listing is the first ten of the candidatures, newest first. */
  lemma MinistereCandidaturesAreNewest(userRows: seq<User>, offerRows: seq<Offer>, candidatureRows: seq<Candidature>)
    ensures var v := MinistereDashboard(userRows, offerRows, candidatureRows);
      var cs := SortNewestFirst(candidatureRows, CandidatureCreatedAt);
      v.candidatures == cs[..|v.candidatures|] && NewestFirst(v.candidatures, CandidatureCreatedAt)
  {
    var cs := SortNewestFirst(candidatureRows, CandidatureCreatedAt);
    assert MinistereDashboard(userRows, offerRows, candidatureRows).candidatures == FirstN(cs, 10);
    TakeNewest(cs, CandidatureCreatedAt, 10);
  }

  /** The offer listing is the first ten offers, newest first, each enriched from the user listing. */
  lemma MinistereOffersAreEnriched(userRows: seq<User>, offerRows: seq<Offer>, candidatureRows: seq<Candidature>)
    ensures var v := MinistereDashboard(userRows, offerRows, candidatureRows);
      var us := SortNewestFirst(userRows, UserCreatedAt);
      var os := SortNewestFirst(offerRows, OfferCreatedAt);
      |v.offers| <= |os| && forall i :: 0 <= i < |v.offers| ==> v.offers[i] == Enrich(us, os[i])
  {
    var us := SortNewestFirst(userRows, UserCreatedAt);
    var os := SortNewestFirst(offerRows, OfferCreatedAt);
    assert MinistereDashboard(userRows, offerRows, candidatureRows).offers == EnrichAll(us, FirstN(os, 10));
    EnrichFirst(us, os, 10);
  }

  /** Enriching the first `n` offers gives, at each position, that offer enriched. */
  lemma EnrichFirst(users: seq<User>, os: seq<Offer>, n: nat)
    ensures var e := EnrichAll(users, FirstN(os, n));
      |e| <= |os| && forall i :: 0 <= i < |e| ==> e[i] == Enrich(users, os[i])
  {
    var fo := FirstN(os, n);
    assert forall i :: 0 <= i < |fo| ==> fo[i] == os[i];
  }
}
