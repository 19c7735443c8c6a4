/**
 * The two ministry pages that create an offer: the newer form with its
 * `validateForm` chain and trimmed payload, and the older form with its
 * shorter chain, untrimmed payload and error display.
 *
 * `new Date(text)` is the parameter `parseDate`, which yields `None` for
 * an Invalid Date; every comparison with an Invalid Date is false, so a
 * date check never fails on one. The current instant, today at 00:00 and
 * the same instant two years ahead are integer parameters.
 */
module OfferForms {
  import opened Common
  import opened Offers

  /** The four text inputs of an offer form; each starts out as "". */
  datatype OfferForm = OfferForm(title: string, description: string, domaine: string, dateLimite: string)

  /** The body posted to the offer-creation endpoint. */
  datatype Payload = Payload(title: string, description: string, domaine: string, dateLimite: string)

  /** What a submit does: show a message and send nothing, or send a body. */
  datatype Submission = Refused(message: string) | Sent(payload: Payload)

  /** `dateObj <= bound` where `dateObj` may be an Invalid Date. */
  predicate AtOrBefore(parseDate: string -> Option<int>, text: string, bound: int) {
    parseDate(text).Some? && parseDate(text).value <= bound
  }

  /** `dateObj > bound` where `dateObj` may be an Invalid Date. */
  predicate After(parseDate: string -> Option<int>, text: string, bound: int) {
    parseDate(text).Some? && parseDate(text).value > bound
  }

  // ---------------------------------------------------------------------
  // The newer form

  /** The messages the two forms show for a failed check. */
  datatype FormError =
    | TitleRequired | TitleTooShort | DescriptionRequired | DescriptionTooShort | DomaineRequired
    | DeadlineRequired | DeadlineNotFuture | DeadlineTooFar
    | OldTitleRequired | OldDomaineRequired | OldDeadlineNotFuture

  function FormErrorText(e: FormError): string {
    match e
    case TitleRequired => "Le titre de l'offre est obligatoire"
    case TitleTooShort => "Le titre doit contenir au moins 5 caractères"
    case DescriptionRequired => "La description est obligatoire"
    case DescriptionTooShort => "La description doit contenir au moins 20 caractères"
    case DomaineRequired => "Veuillez sélectionner un domaine"
    case DeadlineRequired => "La date limite est obligatoire"
    case DeadlineNotFuture => "La date limite doit être dans le futur (au moins demain)"
    case DeadlineTooFar => "La date limite ne peut pas dépasser 2 ans"
    case OldTitleRequired => "Le titre est obligatoire"
    case OldDomaineRequired => "Le domaine est obligatoire"
    case OldDeadlineNotFuture => "La date limite doit être dans le futur"
  }

  /** Every check of validateForm passes. */
  predicate FormAcceptable(f: OfferForm, parseDate: string -> Option<int>, today: int, maxDate: int) {
    |Trim(f.title)| >= 5 && |Trim(f.description)| >= 20 && f.domaine != "" && f.dateLimite != ""
    && !AtOrBefore(parseDate, f.dateLimite, today) && !After(parseDate, f.dateLimite, maxDate)
  }

  /**
   * validateForm: the title, the description, the domain, the deadline and
   * its range, in that order; the first failing check names the message.
   */
  function ValidateForm(f: OfferForm, parseDate: string -> Option<int>, today: int, maxDate: int): (r: Option<FormError>)
    ensures r.None? <==> FormAcceptable(f, parseDate, today, maxDate)
    ensures r == Some(TitleRequired) <==> IsBlank(f.title)
    ensures r == Some(TitleTooShort) <==> !IsBlank(f.title) && |Trim(f.title)| < 5
    ensures r == Some(DescriptionRequired) <==> |Trim(f.title)| >= 5 && IsBlank(f.description)
    ensures r == Some(DescriptionTooShort) <==>
      |Trim(f.title)| >= 5 && !IsBlank(f.description) && |Trim(f.description)| < 20
    ensures r == Some(DomaineRequired) <==>
      |Trim(f.title)| >= 5 && |Trim(f.description)| >= 20 && f.domaine == ""
    ensures r == Some(DeadlineRequired) <==>
      |Trim(f.title)| >= 5 && |Trim(f.description)| >= 20 && f.domaine != "" && f.dateLimite == ""
    ensures r == Some(DeadlineNotFuture) <==>
      |Trim(f.title)| >= 5 && |Trim(f.description)| >= 20 && f.domaine != "" && f.dateLimite != ""
      && AtOrBefore(parseDate, f.dateLimite, today)
    ensures r == Some(DeadlineTooFar) <==>
      |Trim(f.title)| >= 5 && |Trim(f.description)| >= 20 && f.domaine != "" && f.dateLimite != ""
      && !AtOrBefore(parseDate, f.dateLimite, today) && After(parseDate, f.dateLimite, maxDate)
  {
    if IsBlank(f.title) then Some(TitleRequired)
    else if |Trim(f.title)| < 5 then Some(TitleTooShort)
    else if IsBlank(f.description) then Some(DescriptionRequired)
    else if |Trim(f.description)| < 20 then Some(DescriptionTooShort)
    else if f.domaine == "" then Some(DomaineRequired)
    else if f.dateLimite == "" then Some(DeadlineRequired)
    else if AtOrBefore(parseDate, f.dateLimite, today) then Some(DeadlineNotFuture)
    else if After(parseDate, f.dateLimite, maxDate) then Some(DeadlineTooFar)
    else None
  }

  /** The body the newer form sends: the title and the description trimmed, the rest as chosen. */
  function NewPayload(f: OfferForm): (p: Payload)
    ensures p.domaine == f.domaine && p.dateLimite == f.dateLimite
    ensures p.title == Trim(f.title) && p.description == Trim(f.description)
  {
    Payload(Trim(f.title), Trim(f.description), f.domaine, f.dateLimite)
  }

  const SessionExpired := "Session expirée. Veuillez vous reconnecter."

  /** handleSubmit of the newer form: validation, then the stored token, then a body with trimmed texts. */
  function SubmitNew(f: OfferForm, parseDate: string -> Option<int>, today: int, maxDate: int,
                     token: Option<string>): (s: Submission)
    ensures ValidateForm(f, parseDate, today, maxDate).Some? ==>
      s == Refused(FormErrorText(ValidateForm(f, parseDate, today, maxDate).value))
    ensures ValidateForm(f, parseDate, today, maxDate).None? && !Truthy(token) ==> s == Refused(SessionExpired)
    ensures s.Sent? <==> FormAcceptable(f, parseDate, today, maxDate) && Truthy(token)
    ensures s.Sent? ==> s.payload == NewPayload(f)
    ensures s.Sent? ==> IsTrimmed(s.payload.title) && IsTrimmed(s.payload.description)
  {
    match ValidateForm(f, parseDate, today, maxDate)
    case Some(e) => Refused(FormErrorText(e))
    case None =>
      if !Truthy(token) then Refused(SessionExpired)
      else
        TrimIsTrimmed(f.title);
        TrimIsTrimmed(f.description);
        Sent(NewPayload(f))
  }

  /**
   * Every text the server requires is present in what the newer form
   * sends for an acceptable form, so the server refuses it only for its
   * deadline or its caller.
   */
  lemma NewFormPayloadPassesServerFields(f: OfferForm, parseDate: string -> Option<int>, today: int, maxDate: int,
                                         now: int, caller: nat)
    requires FormAcceptable(f, parseDate, today, maxDate)
    ensures var p := NewPayload(f);
      var e := CheckCreate(Some(p.title), Some(p.description), Some(p.domaine), Some(p.dateLimite),
                           parseDate, now, Some(caller));
      (e.None? || e == Some(InvalidDeadline) || e == Some(NotAuthenticated))
      && (After(parseDate, p.dateLimite, now) && caller > 0 ==> e.None?)
  {
    var p := NewPayload(f);
    assert p.title != "" && p.description != "" && p.domaine != "" && p.dateLimite != "";
    PresentFieldsReachDeadlineCheck(p, parseDate, now, caller);
  }

  /** With every text present, the server's field check passes and only the deadline and the caller remain. */
  lemma PresentFieldsReachDeadlineCheck(p: Payload, parseDate: string -> Option<int>, now: int, caller: nat)
    requires p.title != "" && p.description != "" && p.domaine != "" && p.dateLimite != ""
    ensures var e := CheckCreate(Some(p.title), Some(p.description), Some(p.domaine), Some(p.dateLimite),
                                 parseDate, now, Some(caller));
      (e.None? || e == Some(InvalidDeadline) || e == Some(NotAuthenticated))
      && (After(parseDate, p.dateLimite, now) && caller > 0 ==> e.None?)
  {
  }

  /**
   * An unparsable deadline slips through validateForm, because no
   * comparison with an Invalid Date holds; the server then refuses it.
   */
  lemma UnparsableDeadlinePassesForm(f: OfferForm, parseDate: string -> Option<int>, today: int, maxDate: int,
                                     now: int, caller: nat)
    requires |Trim(f.title)| >= 5 && |Trim(f.description)| >= 20 && f.domaine != "" && f.dateLimite != ""
    requires parseDate(f.dateLimite).None?
    ensures FormAcceptable(f, parseDate, today, maxDate)
    ensures CheckCreate(Some(Trim(f.title)), Some(Trim(f.description)), Some(f.domaine), Some(f.dateLimite),
                        parseDate, now, Some(caller)) == Some(InvalidDeadline)
  {
    assert Trim(f.title) != [];
    assert Trim(f.description) != [];
  }

  /**
   * The newer form only compares the deadline with today at 00:00, the
   * server with the current instant: a deadline earlier today passes the
   * form and is refused by the server.
   */
  lemma EarlierTodayPassesFormOnly(f: OfferForm, parseDate: string -> Option<int>, today: int, maxDate: int,
                                   now: int, caller: nat)
    requires |Trim(f.title)| >= 5 && |Trim(f.description)| >= 20 && f.domaine != "" && f.dateLimite != ""
    requires parseDate(f.dateLimite).Some? && today < parseDate(f.dateLimite).value <= now <= maxDate
    ensures FormAcceptable(f, parseDate, today, maxDate)
    ensures CheckCreate(Some(Trim(f.title)), Some(Trim(f.description)), Some(f.domaine), Some(f.dateLimite),
                        parseDate, now, Some(caller)) == Some(InvalidDeadline)
  {
    assert Trim(f.title) != [];
    assert Trim(f.description) != [];
  }

  // ---------------------------------------------------------------------
  // The older form

  const NotLoggedIn := "Vous devez être connecté pour créer une offre"

  /** The older form's chain: blank title, blank description, empty domain, empty deadline, past deadline. */
  function CheckOldForm(f: OfferForm, parseDate: string -> Option<int>, now: int): (r: Option<FormError>)
    ensures r == Some(OldTitleRequired) <==> IsBlank(f.title)
    ensures r == Some(DescriptionRequired) <==> !IsBlank(f.title) && IsBlank(f.description)
    ensures r == Some(OldDomaineRequired) <==> !IsBlank(f.title) && !IsBlank(f.description) && f.domaine == ""
    ensures r == Some(DeadlineRequired) <==>
      !IsBlank(f.title) && !IsBlank(f.description) && f.domaine != "" && f.dateLimite == ""
    ensures r == Some(OldDeadlineNotFuture) <==>
      !IsBlank(f.title) && !IsBlank(f.description) && f.domaine != "" && f.dateLimite != ""
      && AtOrBefore(parseDate, f.dateLimite, now)
    ensures r.None? <==>
      !IsBlank(f.title) && !IsBlank(f.description) && f.domaine != "" && f.dateLimite != ""
      && !AtOrBefore(parseDate, f.dateLimite, now)
  {
    if IsBlank(f.title) then Some(OldTitleRequired)
    else if IsBlank(f.description) then Some(DescriptionRequired)
    else if f.domaine == "" then Some(OldDomaineRequired)
    else if f.dateLimite == "" then Some(DeadlineRequired)
    else if AtOrBefore(parseDate, f.dateLimite, now) then Some(OldDeadlineNotFuture)
    else None
  }

  /** handleSubmit of the older form: the chain, then the token, then the texts exactly as typed. */
  function SubmitOld(f: OfferForm, parseDate: string -> Option<int>, now: int, token: Option<string>): (s: Submission)
    ensures CheckOldForm(f, parseDate, now).Some? ==> s == Refused(FormErrorText(CheckOldForm(f, parseDate, now).value))
    ensures CheckOldForm(f, parseDate, now).None? && !Truthy(token) ==> s == Refused(NotLoggedIn)
    ensures s.Sent? <==> CheckOldForm(f, parseDate, now).None? && Truthy(token)
    ensures s.Sent? ==> s.payload == Payload(f.title, f.description, f.domaine, f.dateLimite)
  {
    match CheckOldForm(f, parseDate, now)
    case Some(e) => Refused(FormErrorText(e))
    case None =>
      if !Truthy(token) then Refused(NotLoggedIn)
      else Sent(Payload(f.title, f.description, f.domaine, f.dateLimite))
  }

  /**
   * The older form sends the title as typed. The title is never blank, so
   * the server's field check lets it through, and the server stores its
   * trim: a non-empty title that differs from the typed one exactly when
   * the typed one has white space at an end.
   */
  lemma OldFormTitleTrimmedByServer(f: OfferForm, parseDate: string -> Option<int>, now: int,
                                    token: Option<string>, caller: Option<nat>)
    requires SubmitOld(f, parseDate, now, token).Sent?
    ensures var p := SubmitOld(f, parseDate, now, token).payload;
      var e := CheckCreate(Some(p.title), Some(p.description), Some(p.domaine), Some(p.dateLimite), parseDate, now, caller);
      p.title == f.title && (e.None? || !e.value.MissingFields?)
      && Trim(p.title) != "" && (Trim(p.title) == p.title <==> IsTrimmed(p.title))
  {
    var p := SubmitOld(f, parseDate, now, token).payload;
    assert p == Payload(f.title, f.description, f.domaine, f.dateLimite);
    OldFormFieldsPresent(f, parseDate, now);
    PresentFieldsAreNotMissing(f.title, f.description, f.domaine, f.dateLimite, parseDate, now, caller);
    TrimFixedIff(f.title);
  }

  /** What the older form's chain lets through has every field non-empty and a title that is not blank. */
  lemma OldFormFieldsPresent(f: OfferForm, parseDate: string -> Option<int>, now: int)
    requires CheckOldForm(f, parseDate, now).None?
    ensures !IsBlank(f.title) && Trim(f.title) != ""
    ensures f.title != "" && f.description != "" && f.domaine != "" && f.dateLimite != ""
  {
    assert Trim("") == "";
  }

  /** The newer form's field checks are stricter than the older form's: what it accepts, the older one does too. */
  lemma NewFieldsSatisfyOldFields(f: OfferForm, parseDate: string -> Option<int>, today: int, maxDate: int, now: int)
    requires FormAcceptable(f, parseDate, today, maxDate)
    ensures CheckOldForm(f, parseDate, now) == None || CheckOldForm(f, parseDate, now) == Some(OldDeadlineNotFuture)
  {
  }

  // ---------------------------------------------------------------------
  // The older form's error display

  /** One entry of a `details` array: its `message` may be absent. */
  datatype Detail = Detail(message: Option<string>)

  /** A truthy `details` value: an array, or anything else. */
  datatype Details = DetailList(items: seq<Detail>) | DetailOther

  /** The body of a failed response; `None` fields stand for falsy ones. */
  datatype ErrorBody = ErrorBody(message: Option<string>, details: Option<Details>)

  const DefaultCreateError := "Erreur lors de la création de l'offre"

  /** `d.message` as `join` renders it: an absent message becomes "". */
  function DetailText(d: Detail): string {
    d.message.GetOr("")
  }

  function DetailTexts(ds: seq<Detail>): (r: seq<string>)
    ensures |r| == |ds|
    ensures forall i :: 0 <= i < |ds| ==> r[i] == DetailText(ds[i])
  {
    if ds == [] then [] else [DetailText(ds[0])] + DetailTexts(ds[1..])
  }

  /**
   * The error the older form shows after a failed request: a details
   * array as its messages joined by ", ", other details as the body's
   * message, otherwise the body's message or a default. `None` is an
   * undefined error.
   */
  function ErrorText(body: Option<ErrorBody>): (r: Option<string>)
    ensures (body.Some? && body.value.details.Some? && body.value.details.value.DetailList?) ==>
      r == Some("Erreurs de validation: " + Join(DetailTexts(body.value.details.value.items), ", "))
    ensures (body.Some? && body.value.details.Some? && body.value.details.value.DetailOther?) ==>
      r == body.value.message
    ensures (body.None? || body.value.details.None?) ==>
      r == Some(if body.Some? && Truthy(body.value.message) then body.value.message.value else DefaultCreateError)
  {
    if body.Some? && body.value.details.Some? then
      match body.value.details.value
      case DetailList(items) => Some("Erreurs de validation: " + Join(DetailTexts(items), ", "))
      case DetailOther => body.value.message
    else if body.Some? && Truthy(body.value.message) then body.value.message
    else Some(DefaultCreateError)
  }

  /** Every detail's message appears in the error shown for a details array. */
  lemma EveryDetailShown(body: ErrorBody, i: nat)
    requires body.details.Some? && body.details.value.DetailList? && i < |body.details.value.items|
    requires body.details.value.items[i].message.Some?
    ensures Includes(ErrorText(Some(body)).value, body.details.value.items[i].message.value)
  {
    var texts := DetailTexts(body.details.value.items);
    var joined := Join(texts, ", ");
    var m := body.details.value.items[i].message.value;
    assert texts[i] == m;
    JoinIncludesEachPart(texts, ", ", i);
    var k :| 0 <= k <= |joined| - |m| && OccursAt(joined, m, k);
    var pre := "Erreurs de validation: ";
    assert (pre + joined)[|pre| + k..|pre| + k + |m|] == joined[k..k + |m|];
    assert OccursAt(pre + joined, m, |pre| + k);
  }
}
