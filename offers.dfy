/**
 * The offer controller: creation with its validation chain, the two
 * listings, lookup, deletion, and the validate/reject decisions, over an
 * offer table held as a map from primary key to row.
 *
 * Date parsing (`new Date(dateLimite)`) is the parameter `parseDate`,
 * which yields `None` for an Invalid Date; `now` is the current instant.
 */
module Offers {
  import opened Common
  import opened Lists
  import opened Models

  /** Which of the four required creation fields were falsy. */
  datatype Missing = Missing(title: bool, description: bool, domaine: bool, dateLimite: bool)

  datatype CreateError = MissingFields(missing: Missing) | InvalidDeadline | NotAuthenticated
  {
    function Status(): int {
      if NotAuthenticated? then 401 else 400
    }
  }

  /**
   * The checks createOffer makes before inserting, in order: every field
   * present, a parsable deadline strictly after now, then a caller with a
   * truthy id. `None` means every check passed.
   */
  function CheckCreate(title: Option<string>, description: Option<string>, domaine: Option<string>,
                       dateLimite: Option<string>, parseDate: string -> Option<int>, now: int,
                       caller: Option<nat>): (e: Option<CreateError>)
    ensures e == Some(MissingFields(Missing(!Truthy(title), !Truthy(description), !Truthy(domaine), !Truthy(dateLimite))))
            <==> !(Truthy(title) && Truthy(description) && Truthy(domaine) && Truthy(dateLimite))
    ensures e == Some(InvalidDeadline) <==>
      Truthy(title) && Truthy(description) && Truthy(domaine) && Truthy(dateLimite)
      && (parseDate(dateLimite.value).None? || parseDate(dateLimite.value).value <= now)
    ensures e == Some(NotAuthenticated) <==>
      Truthy(title) && Truthy(description) && Truthy(domaine) && Truthy(dateLimite)
      && parseDate(dateLimite.value).Some? && parseDate(dateLimite.value).value > now
      && (caller.None? || caller.value == 0)
    ensures e.None? ==> parseDate(dateLimite.value).Some? && parseDate(dateLimite.value).value > now
                        && caller.Some? && caller.value > 0
  {
    if !(Truthy(title) && Truthy(description) && Truthy(domaine) && Truthy(dateLimite)) then
      Some(MissingFields(Missing(!Truthy(title), !Truthy(description), !Truthy(domaine), !Truthy(dateLimite))))
    else if parseDate(dateLimite.value).None? || parseDate(dateLimite.value).value <= now then
      Some(InvalidDeadline)
    else if caller.None? || caller.value == 0 then
      Some(NotAuthenticated)
    else
      None
  }

  /** Four non-empty texts never draw the missing-fields answer, whatever follows. */
  lemma PresentFieldsAreNotMissing(title: string, description: string, domaine: string, dateLimite: string,
                                   parseDate: string -> Option<int>, now: int, caller: Option<nat>)
    requires title != "" && description != "" && domaine != "" && dateLimite != ""
    ensures var e := CheckCreate(Some(title), Some(description), Some(domaine), Some(dateLimite), parseDate, now, caller);
      e.None? || !e.value.MissingFields?
  {
  }

  /** A missing caller is reported only once the fields and the deadline are acceptable. */
  lemma FieldErrorsComeFirst(title: Option<string>, description: Option<string>, domaine: Option<string>,
                             dateLimite: Option<string>, parseDate: string -> Option<int>, now: int)
    ensures CheckCreate(title, description, domaine, dateLimite, parseDate, now, None)
            == CheckCreate(title, description, domaine, dateLimite, parseDate, now, Some(0))
    ensures var e := CheckCreate(title, description, domaine, dateLimite, parseDate, now, None);
      e.Some? && (e.value.NotAuthenticated? <==> CheckCreate(title, description, domaine, dateLimite, parseDate, now, Some(1)).None?)
  {
  }

  /**
   * A non-empty title of nothing but white space is truthy: with the other
   * fields present, a future deadline and a caller, it passes every check,
   * and it is stored as the empty string.
   */
  lemma BlankTitleStoredEmpty(title: string, description: string, domaine: string, dateLimite: string,
                              parseDate: string -> Option<int>, now: int, caller: nat)
    requires title != "" && IsBlank(title)
    requires description != "" && domaine != "" && dateLimite != ""
    requires parseDate(dateLimite).Some? && parseDate(dateLimite).value > now && caller > 0
    ensures CheckCreate(Some(title), Some(description), Some(domaine), Some(dateLimite), parseDate, now, Some(caller)).None?
    ensures Trim(title) == ""
  {
  }

  /** validateOffer's update: status `valide` and a validation instant, nothing else. */
  function Validated(o: Offer, at: int): (v: Offer)
    ensures v.status == Valide && v.validatedAt == Some(at)
    ensures v.rejectedAt == o.rejectedAt
    ensures v.(status := o.status, validatedAt := o.validatedAt) == o
  {
    o.(status := Valide, validatedAt := Some(at))
  }

  /** rejectOffer's update: status `rejetée` and a rejection instant, nothing else. */
  function Rejected(o: Offer, at: int): (v: Offer)
    ensures v.status == OfferStatus.Rejetee && v.rejectedAt == Some(at)
    ensures v.validatedAt == o.validatedAt
    ensures v.(status := o.status, rejectedAt := o.rejectedAt) == o
  {
    o.(status := OfferStatus.Rejetee, rejectedAt := Some(at))
  }

  /** Deciding twice keeps both instants: the later decision wins the status, no timestamp is cleared. */
  lemma DecisionsKeepBothInstants(o: Offer, t1: int, t2: int)
    ensures var v := Rejected(Validated(o, t1), t2);
      v.status == OfferStatus.Rejetee && v.validatedAt == Some(t1) && v.rejectedAt == Some(t2)
    ensures var v := Validated(Rejected(o, t1), t2);
      v.status == Valide && v.rejectedAt == Some(t1) && v.validatedAt == Some(t2)
  {
  }

  predicate IsPublished(o: Offer) {
    o.status == Valide
  }

  /** How a route id selects an offer: the 400 guard of getOfferById/deleteOffer, then the lookup. */
  datatype Lookup = BadId | NotFound | Found(offer: Offer)
  {
    function Status(): int {
      match this
      case BadId => 400
      case NotFound => 404
      case Found(_) => 200
    }
  }

  datatype Decided = DecideNotFound | Decided(offer: Offer)

  class OfferTable {
    var rows: map<nat, Offer>
    var nextId: nat

    /** Keys are the rows' own ids, positive and below the next id to hand out. */
    ghost predicate Valid()
      reads this
    {
      0 < nextId && forall k :: k in rows ==> 0 < k < nextId && rows[k].id == k
    }

    constructor()
      ensures Valid() && rows == map[] && nextId == 1
    {
      rows := map[];
      nextId := 1;
    }

    /** `Offer.findAll()` without an order: every row, in key order. */
    function Rows(): (r: seq<Offer>)
      requires Valid()
      reads this
      ensures forall o :: o in r <==> o in rows.Values
      ensures |r| == |rows|
      ensures forall o :: multiset(r)[o] == if o in rows.Values then 1 else 0
    {
      ScanOnce(rows, nextId);
      Scan(rows, nextId)
    }

    /** getPublishedOffers: exactly the `valide` offers, newest first. */
    function Published(): (r: seq<Offer>)
      requires Valid()
      reads this
      ensures NewestFirst(r, OfferCreatedAt)
      ensures forall o :: o in r <==> o in rows.Values && o.status == Valide
      ensures forall o :: multiset(r)[o] == if o in rows.Values && o.status == Valide then 1 else 0
    {
      SortNewestFirst(Filter(Rows(), IsPublished), OfferCreatedAt)
    }

    /** getAllOffers: every offer, newest first. */
    function All(): (r: seq<Offer>)
      requires Valid()
      reads this
      ensures NewestFirst(r, OfferCreatedAt)
      ensures forall o :: o in r <==> o in rows.Values
      ensures |r| == |rows|
      ensures forall o :: multiset(r)[o] == if o in rows.Values then 1 else 0
    {
      SortNewestFirst(Rows(), OfferCreatedAt)
    }

    /** getOfferById: 400 unless `parseInt` finds a number, 404 unless the key holds a row. */
    function GetById(id: string): (r: Lookup)
      reads this
      ensures r.BadId? <==> id == "" || ParseIntIsNaN(id)
      ensures r.Found? <==> !(id == "" || ParseIntIsNaN(id)) && KeyOf(id).Some? && KeyOf(id).value in rows
      ensures r.Found? ==> r.offer == rows[KeyOf(id).value]
    {
      if id == "" || ParseIntIsNaN(id) then BadId
      else match KeyOf(id)
        case None => NotFound
        case Some(k) => if k in rows then Found(rows[k]) else NotFound
    }

    /** createOffer: the checks, then an insert with trimmed text and the forced status `en_attente`. */
    method Create(title: Option<string>, description: Option<string>, domaine: Option<string>,
                  dateLimite: Option<string>, parseDate: string -> Option<int>, now: int,
                  caller: Option<nat>) returns (r: Result)
      requires Valid()
      modifies this
      ensures Valid()
      ensures r.Failed? <==> CheckCreate(title, description, domaine, dateLimite, parseDate, now, caller).Some?
      ensures r.Failed? ==> r.error == CheckCreate(title, description, domaine, dateLimite, parseDate, now, caller).value
                            && rows == old(rows) && nextId == old(nextId)
      ensures r.Created? ==>
        r.offer == Offer(old(nextId), Trim(title.value), Trim(description.value), Trim(domaine.value),
                         parseDate(dateLimite.value).value, OfferStatus.EnAttente, None, None, caller.value, now)
        && rows == old(rows)[old(nextId) := r.offer] && nextId == old(nextId) + 1
      ensures r.Created? ==> r.offer.dateLimite > r.offer.createdAt && r.offer !in Published()
    {
      var e := CheckCreate(title, description, domaine, dateLimite, parseDate, now, caller);
      if e.Some? {
        return Failed(e.value);
      }
      var o := Offer(nextId, Trim(title.value), Trim(description.value), Trim(domaine.value),
                     parseDate(dateLimite.value).value, DefaultOfferStatus(), None, None, caller.value, now);
      rows := rows[nextId := o];
      nextId := nextId + 1;
      r := Created(o);
    }

    /** deleteOffer: the same 400 guard, then removal of that one row; candidatures are not touched. */
    method Delete(id: string) returns (r: Lookup)
      requires Valid()
      modifies this
      ensures Valid()
      ensures r == old(GetById(id))
      ensures r.Found? ==> rows == old(rows) - {KeyOf(id).value} && r.offer.id == KeyOf(id).value
      ensures !r.Found? ==> rows == old(rows)
      ensures nextId == old(nextId)
    {
      r := GetById(id);
      if r.Found? {
        rows := rows - {KeyOf(id).value};
      }
    }

    /** validateOffer: 404 for an unknown id, otherwise `valide` from any prior status. */
    method Validate(id: string, now: int) returns (r: Decided)
      requires Valid()
      modifies this
      ensures Valid()
      ensures r.DecideNotFound? <==> KeyOf(id).None? || KeyOf(id).value !in old(rows)
      ensures r.Decided? ==>
        var k := KeyOf(id).value;
        r.offer == Validated(old(rows)[k], now) && rows == old(rows)[k := r.offer] && r.offer in Published()
      ensures r.DecideNotFound? ==> rows == old(rows)
      ensures nextId == old(nextId)
    {
      match KeyOf(id)
      case None => return DecideNotFound;
      case Some(k) =>
        if k !in rows {
          return DecideNotFound;
        }
        var o := Validated(rows[k], now);
        rows := rows[k := o];
        assert rows[k] == o;
        r := Decided(o);
    }

    /** rejectOffer: 404 for an unknown id, otherwise `rejetée` from any prior status. */
    method Reject(id: string, now: int) returns (r: Decided)
      requires Valid()
      modifies this
      ensures Valid()
      ensures r.DecideNotFound? <==> KeyOf(id).None? || KeyOf(id).value !in old(rows)
      ensures r.Decided? ==>
        var k := KeyOf(id).value;
        r.offer == Rejected(old(rows)[k], now) && rows == old(rows)[k := r.offer] && r.offer !in Published()
      ensures r.DecideNotFound? ==> rows == old(rows)
      ensures nextId == old(nextId)
    {
      match KeyOf(id)
      case None => return DecideNotFound;
      case Some(k) =>
        if k !in rows {
          return DecideNotFound;
        }
        var o := Rejected(rows[k], now);
        rows := rows[k := o];
        assert rows[k] == o;
        r := Decided(o);
    }
  }

  datatype Result = Failed(error: CreateError) | Created(offer: Offer)

}
