/**
 * The page that lists the published offers to companies: the domain
 * choices, the search and domain filters, and the expiry gate on the
 * apply link.
 *
 * `new Date(text)` is the parameter `parseDate` (`None` for an Invalid
 * Date) and the current instant is the parameter `now`.
 */
module OfferBrowsing {
  import opened Common
  import opened Lists

  /** An offer as the published listing sends it. */
  datatype ListedOffer = ListedOffer(id: nat, title: string, description: string, domaine: string, dateLimite: string)

  function Domaines(offers: seq<ListedOffer>): (r: seq<string>)
    ensures |r| == |offers|
    ensures forall i :: 0 <= i < |offers| ==> r[i] == offers[i].domaine
  {
    if offers == [] then [] else [offers[0].domaine] + Domaines(offers[1..])
  }

  /** The domain choices: each domaine once, in order of first appearance. */
  function UniqueDomains(offers: seq<ListedOffer>): (r: seq<string>)
    ensures forall d :: d in r <==> exists o :: o in offers && o.domaine == d
    ensures NoDuplicates(r)
    ensures InFirstOccurrenceOrder(r, Domaines(offers))
  {
    var ds := Domaines(offers);
    assert forall o :: o in offers ==> o.domaine in ds by {
      forall o | o in offers ensures o.domaine in ds {
        var i :| 0 <= i < |offers| && offers[i] == o;
        assert ds[i] == o.domaine;
      }
    }
    Distinct(ds)
  }

  /** The search test: the lowered term occurs in the lowered title or the lowered description. */
  predicate MatchesSearch(o: ListedOffer, term: string) {
    Includes(ToLower(o.title), ToLower(term)) || Includes(ToLower(o.description), ToLower(term))
  }

  function SearchTest(term: string): ListedOffer -> bool {
    o => MatchesSearch(o, term)
  }

  function DomainTest(domain: string): ListedOffer -> bool {
    (o: ListedOffer) => o.domaine == domain
  }

  /** An offer survives both filters; an empty term or an empty domain lets every offer through. */
  predicate Shown(o: ListedOffer, term: string, domain: string) {
    (term == "" || MatchesSearch(o, term)) && (domain == "" || o.domaine == domain)
  }

  /** The filtering effect: the search filter when a term is typed, then the domain filter when one is chosen. */
  function FilterOffers(offers: seq<ListedOffer>, term: string, domain: string): (r: seq<ListedOffer>)
    ensures forall o :: o in r <==> o in offers && Shown(o, term, domain)
    ensures term == "" && domain == "" ==> r == offers
  {
    var searched := if term != "" then Filter(offers, SearchTest(term)) else offers;
    if domain != "" then Filter(searched, DomainTest(domain)) else searched
  }

  /** The filtered list keeps the listing's order: it is a sub-list, hence no longer. */
  lemma FilteredIsSublist(offers: seq<ListedOffer>, term: string, domain: string)
    ensures IsSublist(FilterOffers(offers, term, domain), offers)
    ensures |FilterOffers(offers, term, domain)| <= |offers|
  {
    var searched := if term != "" then Filter(offers, SearchTest(term)) else offers;
    if term != "" {
      FilterIsSublist(offers, SearchTest(term));
    } else {
      SublistReflexive(offers);
    }
    if domain != "" {
      FilterIsSublist(searched, DomainTest(domain));
      SublistTransitive(FilterOffers(offers, term, domain), searched, offers);
    }
    SublistLength(FilterOffers(offers, term, domain), offers);
  }

  /** Choosing one of the offered domains, with no search term, never leaves the list empty. */
  lemma OfferedDomainIsNeverEmpty(offers: seq<ListedOffer>, d: string)
    requires d in UniqueDomains(offers) && d != ""
    ensures FilterOffers(offers, "", d) != []
    ensures forall o :: o in FilterOffers(offers, "", d) ==> o.domaine == d
  {
    var o :| o in offers && o.domaine == d;
    assert o in FilterOffers(offers, "", d);
  }

  /** The search ignores the case of the term: typing it in capitals filters the same way. */
  lemma SearchIgnoresCase(offers: seq<ListedOffer>, term: string, domain: string)
    ensures FilterOffers(offers, term, domain) == FilterOffers(offers, ToLower(term), domain)
  {
    ToLowerIdempotent(term);
    if term != "" {
      assert ToLower(term) != "";
      FilterCongruent(offers, SearchTest(term), SearchTest(ToLower(term)));
    } else {
      assert ToLower(term) == "";
    }
  }

  /** isExpired: the deadline is strictly before now; an Invalid Date is never expired. */
  predicate IsExpired(dateLimite: string, parseDate: string -> Option<int>, now: int) {
    parseDate(dateLimite).Some? && parseDate(dateLimite).value < now
  }

  /** Whether the card shows the link to apply. */
  function ShowsApply(o: ListedOffer, parseDate: string -> Option<int>, now: int): (b: bool)
    ensures b <==> parseDate(o.dateLimite).None? || parseDate(o.dateLimite).value >= now
  {
    !IsExpired(o.dateLimite, parseDate, now)
  }

  /** A deadline equal to now still shows the link, and so does one that does not parse. */
  lemma ApplyShownUpToDeadline(o: ListedOffer, parseDate: string -> Option<int>, now: int, later: int)
    requires parseDate(o.dateLimite).Some? && parseDate(o.dateLimite).value >= now
    requires later > parseDate(o.dateLimite).value
    ensures ShowsApply(o, parseDate, now) && !ShowsApply(o, parseDate, later)
  {
  }
}
