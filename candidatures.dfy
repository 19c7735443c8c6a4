/**
 * The candidature controller: submission by an entreprise, the status
 * decision by the ministry with its single-acceptance rule and cascade,
 * and the two listings, over a candidature table held as a map from
 * primary key to row.
 *
 * The table keeps two invariants that only the controller enforces (the
 * schema has no constraint for either): at most one `acceptée`
 * candidature per offer, and at most one candidature per
 * (entrepriseId, offerId) pair.
 */
module Candidatures {
  import opened Common
  import opened Lists
  import opened Models
  import opened Offers

  type Rows = map<nat, Candidature>

  /** No offer has two accepted candidatures. */
  predicate AtMostOneAccepted(m: Rows) {
    forall a, b ::
      (a in m && b in m && m[a].offerId == m[b].offerId && m[a].status == Acceptee && m[b].status == Acceptee)
      ==> a == b
  }

  /** No entreprise has applied twice to the same offer. */
  predicate UniquePairs(m: Rows) {
    forall a, b ::
      (a in m && b in m && m[a].entrepriseId == m[b].entrepriseId && m[a].offerId == m[b].offerId)
      ==> a == b
  }

  /** Some candidature other than `t`, on the same offer as `t`, is already accepted (the 409 case). */
  predicate OtherAccepted(m: Rows, t: nat)
    requires t in m
  {
    exists k :: k in m && k != t && m[k].offerId == m[t].offerId && m[k].status == Acceptee
  }

  /** Some candidature of entreprise `e` on offer `o` already exists. */
  predicate HasApplied(m: Rows, e: nat, o: nat) {
    exists k :: k in m && m[k].entrepriseId == e && m[k].offerId == o
  }

  /** `m2` differs from `m` at most in the status of existing rows. */
  predicate OnlyStatusChanges(m: Rows, m2: Rows) {
    m2.Keys == m.Keys && forall k :: k in m ==> m2[k].(status := m[k].status) == m[k]
  }

  /**
   * The bulk update of an acceptance: every candidature other than `t`
   * that is on offer `o` and still `en_attente` becomes `rejetée`.
   */
  function RejectSiblings(m: Rows, t: nat, o: nat): (r: Rows)
    ensures OnlyStatusChanges(m, r)
    ensures forall k :: k in m && k != t && m[k].offerId == o && m[k].status == CandidatureStatus.EnAttente ==>
      r[k].status == CandidatureStatus.Rejetee
    ensures forall k :: k in m && (k == t || m[k].offerId != o || m[k].status != CandidatureStatus.EnAttente) ==>
      r[k] == m[k]
  {
    map k | k in m ::
      if k != t && m[k].offerId == o && m[k].status == CandidatureStatus.EnAttente
      then m[k].(status := CandidatureStatus.Rejetee) else m[k]
  }

  /** The writes of an acceptance: the cascade on the target's offer, then the target itself. */
  function AcceptRows(m: Rows, t: nat): (r: Rows)
    requires t in m
    ensures OnlyStatusChanges(m, r)
    ensures r[t] == m[t].(status := Acceptee)
  {
    RejectSiblings(m, t, m[t].offerId)[t := m[t].(status := Acceptee)]
  }

  /** The write of a rejection: the target only, whatever its previous status. */
  function RejectRow(m: Rows, t: nat): (r: Rows)
    requires t in m
    ensures OnlyStatusChanges(m, r)
    ensures r[t] == m[t].(status := CandidatureStatus.Rejetee)
    ensures forall k :: k in m && k != t ==> r[k] == m[k]
  {
    m[t := m[t].(status := CandidatureStatus.Rejetee)]
  }

  /**
   * Accepting touches only the target's offer: candidatures on other
   * offers, and siblings already decided, are left as they were.
   */
  lemma AcceptFrame(m: Rows, t: nat)
    requires t in m
    ensures forall k :: k in m && k != t && (m[k].offerId != m[t].offerId || m[k].status != CandidatureStatus.EnAttente) ==>
      AcceptRows(m, t)[k] == m[k]
    ensures forall k :: k in m && k != t && m[k].offerId == m[t].offerId && m[k].status == CandidatureStatus.EnAttente ==>
      AcceptRows(m, t)[k] == m[k].(status := CandidatureStatus.Rejetee)
  {
  }

  /**
   * An acceptance the 409 guard lets through settles the offer: the target
   * is its only accepted candidature and every other one is rejected.
   */
  lemma {:induction false} AcceptSettlesOffer(m: Rows, t: nat)
    requires t in m && !OtherAccepted(m, t)
    ensures var r := AcceptRows(m, t);
      forall k :: k in r && k != t && r[k].offerId == r[t].offerId ==> r[k].status == CandidatureStatus.Rejetee
  {
    var r := AcceptRows(m, t);
    var s := RejectSiblings(m, t, m[t].offerId);
    forall k | k in r && k != t && r[k].offerId == r[t].offerId
      ensures r[k].status == CandidatureStatus.Rejetee
    {
      assert r[k] == s[k];
      assert m[k].offerId == m[t].offerId;
      assert m[k].status != Acceptee;
    }
  }

  /** Status-only updates keep every (entrepriseId, offerId) pair where it was. */
  lemma StatusChangesKeepPairs(m: Rows, m2: Rows)
    requires UniquePairs(m) && OnlyStatusChanges(m, m2)
    ensures UniquePairs(m2)
  {
    forall k | k in m ensures m2[k].entrepriseId == m[k].entrepriseId && m2[k].offerId == m[k].offerId {
      assert m2[k].(status := m[k].status) == m[k];
    }
  }

  /** An acceptance the 409 guard lets through keeps at most one acceptance per offer. */
  lemma {:induction false} AcceptKeepsSingle(m: Rows, t: nat)
    requires AtMostOneAccepted(m) && t in m && !OtherAccepted(m, t)
    ensures AtMostOneAccepted(AcceptRows(m, t))
  {
    var r := AcceptRows(m, t);
    AcceptSettlesOffer(m, t);
    forall a, b | a in r && b in r && r[a].offerId == r[b].offerId && r[a].status == Acceptee && r[b].status == Acceptee
      ensures a == b
    {
      assert r[a].(status := m[a].status) == m[a];
      assert r[b].(status := m[b].status) == m[b];
      if a != t && b != t {
        assert r[a].offerId != r[t].offerId;
        assert m[a].offerId != m[t].offerId;
        assert r[a] == m[a] && r[b] == m[b];
      }
    }
  }

  /** Inserting a fresh `en_attente` row for a new pair keeps both table invariants. */
  lemma InsertKeepsInvariants(m: Rows, c: Candidature)
    requires AtMostOneAccepted(m) && UniquePairs(m)
    requires c.id !in m && c.status == CandidatureStatus.EnAttente && !HasApplied(m, c.entrepriseId, c.offerId)
    ensures AtMostOneAccepted(m[c.id := c]) && UniquePairs(m[c.id := c])
  {
    var m2 := m[c.id := c];
    forall a, b | a in m2 && b in m2 && m2[a].entrepriseId == m2[b].entrepriseId && m2[a].offerId == m2[b].offerId
      ensures a == b
    {
      if a != c.id && b != c.id {
        assert m2[a] == m[a] && m2[b] == m[b];
      }
    }
  }

  /** A rejection never adds an acceptance. */
  lemma RejectKeepsSingle(m: Rows, t: nat)
    requires AtMostOneAccepted(m) && t in m
    ensures AtMostOneAccepted(RejectRow(m, t))
  {
  }

  /** The statuses an update request may ask for: exactly `acceptée` and `rejetée`. */
  function RequestedStatus(s: Option<string>): (r: Option<CandidatureStatus>)
    ensures r.Some? <==> s == Some("acceptée") || s == Some("rejetée")
    ensures r.Some? ==> CandidatureStatusName(r.value) == s.value && r.value != CandidatureStatus.EnAttente
  {
    if s == Some("acceptée") then Some(Acceptee)
    else if s == Some("rejetée") then Some(CandidatureStatus.Rejetee)
    else None
  }

  /**
   * The rows after an update request that names an existing candidature
   * with a valid status: unchanged on the 409 of a second acceptance,
   * otherwise the acceptance or rejection writes.
   */
  function UpdateRows(m: Rows, t: nat, s: CandidatureStatus): (r: Rows)
    requires t in m && s != CandidatureStatus.EnAttente
    ensures OnlyStatusChanges(m, r)
  {
    if s == Acceptee then
      if OtherAccepted(m, t) then m else AcceptRows(m, t)
    else RejectRow(m, t)
  }

  /** One update request, as a pure step, keeps at most one acceptance per offer. */
  lemma UpdateKeepsSingle(m: Rows, t: nat, s: CandidatureStatus)
    requires AtMostOneAccepted(m) && t in m && s != CandidatureStatus.EnAttente
    ensures AtMostOneAccepted(UpdateRows(m, t, s))
  {
    if s == Acceptee && !OtherAccepted(m, t) {
      AcceptKeepsSingle(m, t);
    }
  }

  /** A request of the status PATCH route: the target key and the status in the body. */
  datatype Request = Request(target: nat, status: Option<string>)

  /**
   * The rows after a sequence of requests processed one after the other;
   * a request rejected with 400 or 404 leaves them as they were.
   */
  function ApplyAll(m: Rows, reqs: seq<Request>): (r: Rows)
    ensures r.Keys == m.Keys
    decreases |reqs|
  {
    if reqs == [] then m
    else
      var q := reqs[0];
      var s := RequestedStatus(q.status);
      var m1 := if s.Some? && q.target in m then UpdateRows(m, q.target, s.value) else m;
      ApplyAll(m1, reqs[1..])
  }

  /** Sequential status updates preserve "at most one `acceptée` per offer". */
  lemma {:induction false} ApplyAllKeepsSingle(m: Rows, reqs: seq<Request>)
    requires AtMostOneAccepted(m)
    ensures AtMostOneAccepted(ApplyAll(m, reqs))
    decreases |reqs|
  {
    if reqs != [] {
      var q := reqs[0];
      var s := RequestedStatus(q.status);
      var m1 := if s.Some? && q.target in m then UpdateRows(m, q.target, s.value) else m;
      if s.Some? && q.target in m {
        UpdateKeepsSingle(m, q.target, s.value);
      }
      ApplyAllKeepsSingle(m1, reqs[1..]);
    }
  }

  predicate IsEnAttente(c: Candidature) { c.status == CandidatureStatus.EnAttente }
  predicate IsAcceptee(c: Candidature) { c.status == Acceptee }
  predicate IsRejetee(c: Candidature) { c.status == CandidatureStatus.Rejetee }

  datatype SubmitOutcome =
    | MissingOfferId
    | OfferUnavailable
    | AlreadyApplied
    | MissingContent
    | Submitted(candidature: Candidature)
  {
    function Status(): int {
      match this
      case MissingOfferId => 400
      case OfferUnavailable => 404
      case AlreadyApplied => 409
      case MissingContent => 400
      case Submitted(_) => 201
    }
  }

  datatype UpdateOutcome =
    | InvalidStatus
    | UnknownCandidature
    | AlreadyAccepted
    | Updated(candidature: Candidature)
    | AcceptedThenServerError
  {
    /**
     * An accepted update commits its writes and then fails while building
     * the response, so the caller sees a 500.
     */
    function Status(): int {
      match this
      case InvalidStatus => 400
      case UnknownCandidature => 404
      case AlreadyAccepted => 409
      case Updated(_) => 200
      case AcceptedThenServerError => 500
    }
  }

  /** The message stored with a submission: the trimmed text, or null when it is absent or blank. */
  function StoredMessage(message: Option<string>): (r: Option<string>)
    ensures r.Some? <==> Truthy(message) && !IsBlank(message.value)
    ensures r.Some? ==> r.value == Trim(message.value) && r.value != ""
  {
    if Truthy(message) && Trim(message.value) != "" then Some(Trim(message.value)) else None
  }

  /** The URL stored for an uploaded file. */
  function FileUrl(filename: Option<string>): (r: Option<string>)
    ensures r.Some? <==> filename.Some?
    ensures r.Some? ==> StartsWith(r.value, "/uploads/") && r.value[|"/uploads/"|..] == filename.value
  {
    if filename.Some? then Some("/uploads/" + filename.value) else None
  }

  /** Every submission that passes the content check stores a file or a non-blank message. */
  lemma StoredContentNonEmpty(message: Option<string>, filename: Option<string>)
    requires filename.Some? || (Truthy(message) && !IsBlank(message.value))
    ensures FileUrl(filename).Some? || StoredMessage(message).Some?
  {
  }

  class CandidatureTable {
    var rows: Rows
    var nextId: nat

    ghost predicate Valid()
      reads this
    {
      0 < nextId
      && (forall k :: k in rows ==> 0 < k < nextId && rows[k].id == k)
      && AtMostOneAccepted(rows)
      && UniquePairs(rows)
    }

    constructor()
      ensures Valid() && rows == map[] && nextId == 1
    {
      rows := map[];
      nextId := 1;
    }

    /**
     * submitCandidature: offer id present, offer published, no earlier
     * candidature of this entreprise on it, some content; then an insert
     * with status `en_attente`.
     */
    method Submit(offers: OfferTable, entrepriseId: nat, offerId: Option<string>, message: Option<string>,
                  filename: Option<string>, now: int) returns (r: SubmitOutcome)
      requires Valid()
      modifies this
      ensures Valid()
      ensures r.MissingOfferId? <==> !Truthy(offerId)
      ensures r.OfferUnavailable? <==> (Truthy(offerId) &&
        (KeyOf(offerId.value).None? || KeyOf(offerId.value).value !in offers.rows
         || offers.rows[KeyOf(offerId.value).value].status != Valide))
      ensures r.AlreadyApplied? <==> (Truthy(offerId) && KeyOf(offerId.value).Some?
        && KeyOf(offerId.value).value in offers.rows && offers.rows[KeyOf(offerId.value).value].status == Valide
        && HasApplied(old(rows), entrepriseId, KeyOf(offerId.value).value))
      ensures r.MissingContent? ==> filename.None? && (!Truthy(message) || IsBlank(message.value))
      ensures !r.Submitted? ==> rows == old(rows) && nextId == old(nextId)
      ensures r.Submitted? ==>
        var o := KeyOf(offerId.value).value;
        o in offers.rows && offers.rows[o].status == Valide && !HasApplied(old(rows), entrepriseId, o)
        && (filename.Some? || (Truthy(message) && !IsBlank(message.value)))
        && r.candidature == Candidature(old(nextId), StoredMessage(message), CandidatureStatus.EnAttente,
                                        FileUrl(filename), entrepriseId, o, now)
        && rows == old(rows)[old(nextId) := r.candidature] && nextId == old(nextId) + 1
    {
      if !Truthy(offerId) {
        return MissingOfferId;
      }
      var key := KeyOf(offerId.value);
      if key.None? || key.value !in offers.rows || offers.rows[key.value].status != Valide {
        return OfferUnavailable;
      }
      var o := key.value;
      if HasApplied(rows, entrepriseId, o) {
        return AlreadyApplied;
      }
      if filename.None? && (!Truthy(message) || IsBlank(message.value)) {
        return MissingContent;
      }
      var c := Candidature(nextId, StoredMessage(message), DefaultCandidatureStatus(), FileUrl(filename),
                           entrepriseId, o, now);
      InsertKeepsInvariants(rows, c);
      rows := rows[nextId := c];
      nextId := nextId + 1;
      r := Submitted(c);
    }

    /**
     * updateCandidatureStatus: a valid status, an existing candidature,
     * no other acceptance on its offer; then the writes. An acceptance
     * commits the cascade and the target, then answers 500.
     */
    method UpdateStatus(id: string, status: Option<string>) returns (r: UpdateOutcome)
      requires Valid()
      modifies this
      ensures Valid()
      ensures nextId == old(nextId)
      ensures r.InvalidStatus? <==> RequestedStatus(status).None?
      ensures r.UnknownCandidature? <==> RequestedStatus(status).Some? && (KeyOf(id).None? || KeyOf(id).value !in old(rows))
      ensures r.AlreadyAccepted? <==> status == Some("acceptée") && KeyOf(id).Some? && KeyOf(id).value in old(rows)
                                      && OtherAccepted(old(rows), KeyOf(id).value)
      ensures r.InvalidStatus? || r.UnknownCandidature? || r.AlreadyAccepted? ==> rows == old(rows)
      ensures r.Updated? ==> status == Some("rejetée") && rows == RejectRow(old(rows), KeyOf(id).value)
                             && r.candidature == rows[KeyOf(id).value]
      ensures r.AcceptedThenServerError? ==> status == Some("acceptée") && rows == AcceptRows(old(rows), KeyOf(id).value)
      ensures RequestedStatus(status).Some? && KeyOf(id).Some? && KeyOf(id).value in old(rows) ==>
        rows == UpdateRows(old(rows), KeyOf(id).value, RequestedStatus(status).value)
    {
      var s := RequestedStatus(status);
      if s.None? {
        return InvalidStatus;
      }
      var key := KeyOf(id);
      if key.None? || key.value !in rows {
        return UnknownCandidature;
      }
      var t := key.value;
      if s.value == Acceptee {
        if exists k :: k in rows && k != t && rows[k].offerId == rows[t].offerId && rows[k].status == Acceptee {
          return AlreadyAccepted;
        }
        AcceptKeepsSingle(rows, t);
        StatusChangesKeepPairs(rows, AcceptRows(rows, t));
        rows := AcceptRows(rows, t);
        r := AcceptedThenServerError;
      } else {
        RejectKeepsSingle(rows, t);
        StatusChangesKeepPairs(rows, RejectRow(rows, t));
        rows := RejectRow(rows, t);
        r := Updated(rows[t]);
      }
    }

    /** `Candidature.findAll()` without an order: every row, in key order. */
    function Rows(): (r: seq<Candidature>)
      requires Valid()
      reads this
      ensures forall c :: c in r <==> c in rows.Values
      ensures |r| == |rows|
      ensures forall c :: multiset(r)[c] == if c in rows.Values then 1 else 0
    {
      ScanOnce(rows, nextId);
      Scan(rows, nextId)
    }

    /** getCandidaturesByOffer: exactly the candidatures on the offer the route names, newest first. */
    function ByOffer(offerId: string): (r: seq<Candidature>)
      requires Valid()
      reads this
      ensures NewestFirst(r, CandidatureCreatedAt)
      ensures forall c :: c in r <==> c in rows.Values && KeyOf(offerId) == Some(c.offerId)
      ensures forall c :: multiset(r)[c] == if c in rows.Values && KeyOf(offerId) == Some(c.offerId) then 1 else 0
    {
      SortNewestFirst(Filter(Rows(), (c: Candidature) => KeyOf(offerId) == Some(c.offerId)), CandidatureCreatedAt)
    }

    /** getMyCandidatures: exactly the caller's candidatures, newest first. */
    function Mine(entrepriseId: nat): (r: seq<Candidature>)
      requires Valid()
      reads this
      ensures NewestFirst(r, CandidatureCreatedAt)
      ensures forall c :: c in r <==> c in rows.Values && c.entrepriseId == entrepriseId
      ensures forall c :: multiset(r)[c] == if c in rows.Values && c.entrepriseId == entrepriseId then 1 else 0
    {
      SortNewestFirst(Filter(Rows(), (c: Candidature) => c.entrepriseId == entrepriseId), CandidatureCreatedAt)
    }
  }
}
