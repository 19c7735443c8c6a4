/**
 * The two pages that show candidatures: a company's own list with its
 * counts, status filter and status labels, and the ministry's management
 * table with its counts, its Accept/Reject actions and the local update
 * it applies after a response.
 *
 * Records arrive as JSON, so a status is the string the server stored.
 */
module CandidaturePages {
  import opened Common
  import opened Lists
  import opened Models
  import opened Authorization
  import Candidatures

  /** A candidature as a page holds it. */
  datatype Item = Item(id: nat, status: string, offerId: nat)

  function HasStatus(s: string): Item -> bool {
    (c: Item) => c.status == s
  }

  /** The counts both pages show above their lists. */
  datatype Stats = Stats(total: nat, enAttente: nat, acceptees: nat, rejetees: nat)

  /** Total, then one count per exact status string. */
  function StatsOf(cs: seq<Item>): (s: Stats)
    ensures s.total == |cs|
    ensures s.enAttente == Count(cs, HasStatus("en_attente"))
    ensures s.acceptees == Count(cs, HasStatus("acceptée"))
    ensures s.rejetees == Count(cs, HasStatus("rejetée"))
    ensures s.enAttente <= s.total && s.acceptees <= s.total && s.rejetees <= s.total
  {
    Stats(|cs|, Count(cs, HasStatus("en_attente")), Count(cs, HasStatus("acceptée")), Count(cs, HasStatus("rejetée")))
  }

  /** A status the server can store: one of the three names of the candidature enum. */
  predicate StoredStatus(c: Item) {
    exists st :: CandidatureStatusName(st) == c.status
  }

  /** When every status is one the server stores, the three counts add up to the total. */
  lemma StatsAddUp(cs: seq<Item>)
    requires forall c :: c in cs ==> StoredStatus(c)
    ensures var s := StatsOf(cs); s.enAttente + s.acceptees + s.rejetees == s.total
  {
    StoredCountsAddUp(cs);
  }

  lemma {:induction false} StoredCountsAddUp(cs: seq<Item>)
    requires forall c :: c in cs ==> StoredStatus(c)
    ensures Count(cs, HasStatus("en_attente")) + Count(cs, HasStatus("acceptée")) + Count(cs, HasStatus("rejetée")) == |cs|
  {
    if cs != [] {
      var t := cs[1..];
      assert cs == [cs[0]] + t;
      assert forall c :: c in t ==> c in cs;
      StoredCountsAddUp(t);
      CountCons(cs[0], t, HasStatus("en_attente"));
      CountCons(cs[0], t, HasStatus("acceptée"));
      CountCons(cs[0], t, HasStatus("rejetée"));
      StoredStatusOnce(cs[0]);
    }
  }

  /** A stored status is exactly one of the three. */
  lemma StoredStatusOnce(c: Item)
    requires StoredStatus(c)
    ensures (if HasStatus("en_attente")(c) then 1 else 0) + (if HasStatus("acceptée")(c) then 1 else 0)
            + (if HasStatus("rejetée")(c) then 1 else 0) == 1
  {
    var st :| CandidatureStatusName(st) == c.status;
  }

  /** A row whose status is none of the three is counted in the total and under no status. */
  lemma StrayStatusUncounted(cs: seq<Item>, c: Item)
    requires c.status != "en_attente" && c.status != "acceptée" && c.status != "rejetée"
    ensures var s := StatsOf(cs); var s' := StatsOf(cs + [c]);
      s'.total == s.total + 1 && s'.enAttente == s.enAttente && s'.acceptees == s.acceptees && s'.rejetees == s.rejetees
  {
    FilterAppend(cs, [c], HasStatus("en_attente"));
    FilterAppend(cs, [c], HasStatus("acceptée"));
    FilterAppend(cs, [c], HasStatus("rejetée"));
  }

  // ---------------------------------------------------------------------
  // The company's own list

  /** The status filter: 'all' keeps the list, any other value keeps the exact matches. */
  function FilterByStatus(cs: seq<Item>, filter: string): (r: seq<Item>)
    ensures filter == "all" ==> r == cs
    ensures filter != "all" ==> forall c :: c in r <==> c in cs && c.status == filter
  {
    if filter == "all" then cs else Filter(cs, HasStatus(filter))
  }

  /** The filtered list is an order-preserving sub-list, so the "n of m" line never shows n above m. */
  lemma FilteredWithinTotal(cs: seq<Item>, filter: string)
    ensures IsSublist(FilterByStatus(cs, filter), cs)
    ensures |FilterByStatus(cs, filter)| <= StatsOf(cs).total
  {
    if filter == "all" {
      SublistReflexive(cs);
    } else {
      FilterIsSublist(cs, HasStatus(filter));
    }
    SublistLength(FilterByStatus(cs, filter), cs);
  }

  /** Filtering on one of the three statuses shows exactly as many rows as its count. */
  lemma FilterMatchesStats(cs: seq<Item>)
    ensures |FilterByStatus(cs, "en_attente")| == StatsOf(cs).enAttente
    ensures |FilterByStatus(cs, "acceptée")| == StatsOf(cs).acceptees
    ensures |FilterByStatus(cs, "rejetée")| == StatsOf(cs).rejetees
  {
  }

  /** getStatusText: the two decided statuses by name, anything else as pending. */
  function StatusText(status: string): (t: string)
    ensures t in {"Acceptée", "Rejetée", "En attente"}
    ensures t == "Acceptée" <==> status == "acceptée"
    ensures t == "Rejetée" <==> status == "rejetée"
  {
    if status == "acceptée" then "Acceptée"
    else if status == "rejetée" then "Rejetée"
    else "En attente"
  }

  /** Each stored status gets its own label. */
  lemma StatusTextOfStored(st: CandidatureStatus)
    ensures StatusText(CandidatureStatusName(st)) ==
      match st
      case EnAttente => "En attente"
      case Acceptee => "Acceptée"
      case Rejetee => "Rejetée"
  {
  }

  /** What the company page does on mount: refuse without a token, otherwise fetch with it. */
  datatype Load = LoadRefused(message: string) | Fetch(authorization: string)

  function LoadOwn(token: Option<string>): (l: Load)
    ensures l.LoadRefused? <==> !Truthy(token)
    ensures l.LoadRefused? ==> l.message == "Utilisateur non authentifié"
    ensures l.Fetch? ==> l.authorization == BearerHeader(token.value)
  {
    if !Truthy(token) then LoadRefused("Utilisateur non authentifié") else Fetch(BearerHeader(token.value))
  }

  /** A stored token without spaces reaches the middleware intact. */
  lemma OwnFetchCarriesToken(token: string)
    requires token != "" && ' ' !in token
    ensures LoadOwn(Some(token)).Fetch?
    ensures BearerToken(Some(LoadOwn(Some(token)).authorization)) == Some(token)
  {
    BearerRoundTrip(token);
  }

  // ---------------------------------------------------------------------
  // The ministry's management table

  /** Accept and Reject are offered on pending rows only; the others read as handled. */
  predicate ActionsOffered(c: Item) {
    c.status == "en_attente"
  }

  /** Among the stored statuses, the actions stay on exactly the pending rows: a decided row is never offered again. */
  lemma ActionsOnlyOnPending(c: Item, st: CandidatureStatus)
    requires c.status == CandidatureStatusName(st)
    ensures ActionsOffered(c) <==> st == CandidatureStatus.EnAttente
  {
  }

  /** The two statuses the action buttons send. */
  const AcceptStatus := "acceptée"
  const RejectStatus := "rejetée"

  /** Both statuses the buttons send are exactly the ones the server accepts, and mean what the buttons say. */
  lemma ButtonsSendAcceptedStatuses()
    ensures Candidatures.RequestedStatus(Some(AcceptStatus)) == Some(Acceptee)
    ensures Candidatures.RequestedStatus(Some(RejectStatus)) == Some(CandidatureStatus.Rejetee)
  {
  }

  /** The local update after a successful request: the row with that id takes the new status. */
  function LocalUpdate(cs: seq<Item>, id: nat, newStatus: string): (r: seq<Item>)
    ensures |r| == |cs|
    ensures forall i :: 0 <= i < |cs| ==> r[i].id == cs[i].id && r[i].offerId == cs[i].offerId
    ensures forall i :: 0 <= i < |cs| ==> r[i].status == (if cs[i].id == id then newStatus else cs[i].status)
  {
    if cs == [] then []
    else [if cs[0].id == id then cs[0].(status := newStatus) else cs[0]] + LocalUpdate(cs[1..], id, newStatus)
  }

  /** Axios resolves on a 2xx status only; on any other status the list is left as it was. */
  function AfterResponse(cs: seq<Item>, id: nat, newStatus: string, httpStatus: int): (r: seq<Item>)
    ensures 200 <= httpStatus < 300 ==> r == LocalUpdate(cs, id, newStatus)
    ensures !(200 <= httpStatus < 300) ==> r == cs
  {
    if 200 <= httpStatus < 300 then LocalUpdate(cs, id, newStatus) else cs
  }

  /** Only rows with that id change, and every row keeps its place. */
  lemma LocalUpdateTouchesOnlyTarget(cs: seq<Item>, id: nat, newStatus: string, i: nat)
    requires i < |cs| && cs[i].id != id
    ensures LocalUpdate(cs, id, newStatus)[i] == cs[i]
  {
  }

  /**
   * A pending sibling on the same offer stays pending in the table after
   * an acceptance the page records, though the server's cascade rejects it.
   */
  lemma LocalUpdateMissesCascade(cs: seq<Item>, id: nat, i: nat, j: nat)
    requires i < |cs| && j < |cs| && cs[i].id == id && cs[j].id != id
    requires cs[j].offerId == cs[i].offerId && cs[j].status == "en_attente"
    ensures LocalUpdate(cs, id, AcceptStatus)[i].status == "acceptée"
    ensures LocalUpdate(cs, id, AcceptStatus)[j].status == "en_attente"
  {
  }

  /**
   * An acceptance ends in the server's 500 after its writes, so the page
   * keeps its list as it was, while a rejection's 200 updates the row.
   */
  lemma AcceptIsNeverRecordedLocally(cs: seq<Item>, id: nat, rejected: Candidature)
    ensures AfterResponse(cs, id, AcceptStatus, Candidatures.UpdateOutcome.AcceptedThenServerError.Status()) == cs
    ensures AfterResponse(cs, id, RejectStatus, Candidatures.UpdateOutcome.Updated(rejected).Status()) == LocalUpdate(cs, id, RejectStatus)
  {
  }
}
