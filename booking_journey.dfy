/**
 * The booking-journey test (tests/e2e/booking-journey.spec.ts) after the search: the check of
 * the errors the empty passenger form raises, one attempt at booking the hotel at a given
 * index, and the loop that moves on to the next hotel when an attempt does not get through.
 */
module BookingJourney {
  import opened Wrappers
  import opened Text
  import opened Patterns
  import opened Domain
  import opened ResultsPage
  import opened FlightsSelection
  import opened PassengerDetails

  // ---------------------------------------------------------------------------------------
  // The required-error check

  /** A field that must report an error on the empty form, and the pattern its message must match. */
  datatype RequiredError = RequiredError(fieldId: string, pattern: Pattern)

  /** The required errors, in the order the check walks them. */
  const RequiredErrors: seq<RequiredError> := [
    RequiredError("firstName_0", Pattern("/voornaam|first.*name/i", [["voornaam"], ["first", "name"]])),
    RequiredError("lastName_0", Pattern("/achternaam|last.*name/i", [["achternaam"], ["last", "name"]])),
    RequiredError("dob_0", Pattern("/geboortedatum|date.*birth|DD\\/MM\\/JJJJ/i",
      [["geboortedatum"], ["date", "birth"], ["dd/mm/jjjj"]])),
    RequiredError("email", Pattern("/e-mail|email/i", [["e-mail"], ["email"]])),
    RequiredError("address1", Pattern("/straatnaam|street/i", [["straatnaam"], ["street"]])),
    RequiredError("houseNum", Pattern("/huisnummer|house.*number/i", [["huisnummer"], ["house", "number"]])),
    RequiredError("postCode", Pattern("/postcode|postal/i", [["postcode"], ["postal"]])),
    RequiredError("town", Pattern("/woonplaats|town|city/i", [["woonplaats"], ["town"], ["city"]])),
    RequiredError("mobileNum", Pattern("/telefoonnummer|phone|mobile/i", [["telefoonnummer"], ["phone"], ["mobile"]]))
  ]

  /** Why the form-validation step failed. `FormFailureText` renders each as the message of
      the failed expectation. */
  datatype FormFailure =
    | ValidationTimedOut
    | AlertNotVisible
    | MissingRequired(fieldId: string)
    | UnmatchedRequired(fieldId: string)

  function FormFailureText(f: FormFailure): (r: string)
    ensures f.MissingRequired? ==> OccursAt(r, f.fieldId, 7)
    ensures f.UnmatchedRequired? ==> OccursAt(r, f.fieldId, 19)
    ensures f.ValidationTimedOut? ==> r == TimeoutError(DefaultTimeout)
  {
    match f
    case ValidationTimedOut => TimeoutError(DefaultTimeout)
    case AlertNotVisible => "Validation alert should be visible when submitting empty passenger form"
    case MissingRequired(fieldId) => "Field \"" + fieldId + "\" should have a validation error"
    case UnmatchedRequired(fieldId) => "Error message for \"" + fieldId + "\" should match expected pattern"
  }

  /** The map from field id to message the field errors are poured into: a later error for
      the same field replaces an earlier one. */
  function ErrorMap(errors: seq<FieldValidationError>): (m: map<string, string>)
    ensures forall id :: id in m <==> exists k :: 0 <= k < |errors| && errors[k].fieldId == id
  {
    if errors == [] then map[]
    else
      var n := |errors| - 1;
      var m := ErrorMap(errors[..n]);
      assert forall k :: 0 <= k < n ==> errors[..n][k] == errors[k];
      m[errors[n].fieldId := errors[n].message]
  }

  /** The message kept for a field is that of the last error for it. */
  lemma {:induction false} ErrorMapLastWins(errors: seq<FieldValidationError>, k: nat)
    requires k < |errors|
    requires forall j :: k < j < |errors| ==> errors[j].fieldId != errors[k].fieldId
    ensures errors[k].fieldId in ErrorMap(errors)
    ensures ErrorMap(errors)[errors[k].fieldId] == errors[k].message
  {
    var n := |errors| - 1;
    if k < n {
      ErrorMapLastWins(errors[..n], k);
    }
  }

  /** Every message in the map is the message of some error for that field. */
  lemma {:induction false} ErrorMapMessagesComeFromErrors(errors: seq<FieldValidationError>, id: string)
    requires id in ErrorMap(errors)
    ensures exists k :: 0 <= k < |errors| && errors[k].fieldId == id && errors[k].message == ErrorMap(errors)[id]
  {
    var n := |errors| - 1;
    if errors[n].fieldId != id {
      ErrorMapMessagesComeFromErrors(errors[..n], id);
      var k :| 0 <= k < n && errors[..n][k].fieldId == id && errors[..n][k].message == ErrorMap(errors[..n])[id];
      assert errors[k] == errors[..n][k];
    }
  }

  /** `errorMap.set` for every field error, in order. */
  method BuildErrorMap(errors: seq<FieldValidationError>) returns (m: map<string, string>)
    ensures m == ErrorMap(errors)
  {
    m := map[];
    for i := 0 to |errors|
      invariant m == ErrorMap(errors[..i])
    {
      assert errors[..i + 1][..i] == errors[..i];
      m := m[errors[i].fieldId := errors[i].message];
    }
    assert errors[..|errors|] == errors;
  }

  /** A required error is met when its field has a non-empty message matching its pattern. */
  predicate Satisfied(m: map<string, string>, req: RequiredError) {
    req.fieldId in m && m[req.fieldId] != "" && Matches(req.pattern, m[req.fieldId])
  }

  /** The first expectation that fails, walking the required errors `reqs` from `from` on. */
  function RequiredVerdictFrom(reqs: seq<RequiredError>, m: map<string, string>, from: nat): (r: Option<FormFailure>)
    requires from <= |reqs|
    ensures r.None? <==> forall k :: from <= k < |reqs| ==> Satisfied(m, reqs[k])
    ensures r.Some? ==> exists k :: (
      && from <= k < |reqs| && !Satisfied(m, reqs[k])
      && (forall j :: from <= j < k ==> Satisfied(m, reqs[j]))
      && r.value == (if reqs[k].fieldId in m && m[reqs[k].fieldId] != ""
                     then UnmatchedRequired(reqs[k].fieldId)
                     else MissingRequired(reqs[k].fieldId)))
    decreases |reqs| - from
  {
    if from == |reqs| then None
    else
      var req := reqs[from];
      if !(req.fieldId in m && m[req.fieldId] != "") then Some(MissingRequired(req.fieldId))
      else if !Matches(req.pattern, m[req.fieldId]) then Some(UnmatchedRequired(req.fieldId))
      else RequiredVerdictFrom(reqs, m, from + 1)
  }

  /** The first required-error expectation that fails, if any. */
  function RequiredVerdict(m: map<string, string>): (r: Option<FormFailure>)
    ensures r.Some? ==> r.value.MissingRequired? || r.value.UnmatchedRequired?
  {
    RequiredVerdictFrom(RequiredErrors, m, 0)
  }

  /** The loop over the required errors: a missing or empty message fails the first
      expectation, a message off the pattern the second. */
  method CheckRequiredErrors(m: map<string, string>) returns (failure: Option<FormFailure>)
    ensures failure == RequiredVerdict(m)
  {
    var reqs := RequiredErrors;
    for i := 0 to |reqs|
      invariant RequiredVerdict(m) == RequiredVerdictFrom(reqs, m, i)
    {
      var fieldId := reqs[i].fieldId;
      var expectedPattern := reqs[i].pattern;
      if !(fieldId in m && m[fieldId] != "") {
        return Some(MissingRequired(fieldId));
      }
      if !Matches(expectedPattern, m[fieldId]) {
        return Some(UnmatchedRequired(fieldId));
      }
    }
    failure := None;
  }

  /** The errors `getValidationErrors` collects never carry an empty message, so a required
      field that reports an error never fails the first expectation. */
  lemma CollectedMessagesNonEmpty(elements: seq<ErrorElement>, id: string)
    requires id in ErrorMap(CollectedErrors(elements))
    ensures ErrorMap(CollectedErrors(elements))[id] != ""
  {
    var errors := CollectedErrors(elements);
    CollectedErrorsWellFormed(elements);
    ErrorMapMessagesComeFromErrors(errors, id);
    var k :| 0 <= k < |errors| && errors[k].fieldId == id && errors[k].message == ErrorMap(errors)[id];
    assert WellFormedError(errors[k]);
  }

  /** A passing check means every required field received, from some visible error element, a
      message that matches its pattern and that the field table assigns to it. */
  lemma RequiredCheckPassed(elements: seq<ErrorElement>, k: nat)
    requires RequiredVerdict(ErrorMap(CollectedErrors(elements))).None?
    requires k < |RequiredErrors|
    ensures exists j :: (
      && 0 <= j < |CollectedErrors(elements)|
      && CollectedErrors(elements)[j].fieldId == RequiredErrors[k].fieldId
      && Matches(RequiredErrors[k].pattern, CollectedErrors(elements)[j].message)
      && FieldClassification.Classify(CollectedErrors(elements)[j].message) == RequiredErrors[k].fieldId)
  {
    var errors := CollectedErrors(elements);
    var id := RequiredErrors[k].fieldId;
    assert Satisfied(ErrorMap(errors), RequiredErrors[k]);
    ErrorMapMessagesComeFromErrors(errors, id);
    CollectedErrorsWellFormed(elements);
    var j :| 0 <= j < |errors| && errors[j].fieldId == id && errors[j].message == ErrorMap(errors)[id];
    assert WellFormedError(errors[j]);
  }

  // ---------------------------------------------------------------------------------------
  // One attempt

  /**
   * What the browser shows during the attempt at the hotel at some index: the error (if any)
   * thrown by each step outside this model, the hotel tiles, whether each banner check sees a
   * banner, what each inline probe sees, and what the page shows when the empty form is submitted.
   */
  datatype AttemptObservation = AttemptObservation(
    reloadError: Option<string>,
    hotels: seq<HotelItem>,
    hotelsLoaded: bool,
    detailsPageError: Option<string>,
    detailsBanner: bool,
    verderError: Option<string>,
    flights: FlightsObservation,
    flightsBanner: bool,
    boekNuError: Option<string>,
    passengerPageError: Option<string>,
    passengerBanner: bool,
    email: seq<ProbeObservation>,
    firstName: seq<ProbeObservation>,
    mobile: seq<ProbeObservation>,
    promoCode: seq<ProbeObservation>,
    dob: seq<DobObservation>,
    address: seq<ProbeObservation>,
    form: FormObservation)

  /** One observation per fill of each probe script. */
  predicate WellFormed(o: AttemptObservation) {
    |o.email| == 4 && |o.firstName| == 4 && |o.mobile| == 4
    && |o.promoCode| == 2 && |o.dob| == 3 && |o.address| == 2
  }

  /** How an attempt ends: the hotel or its flights are unavailable (try the next hotel), a step
      throws, or the passenger form passes every check. */
  datatype AttemptOutcome =
    | HotelUnavailable
    | FlightsUnavailable
    | Threw(error: AttemptError)
    | Completed(details: HotelDetails)

  /** What a step that throws raises: the message of a step outside this model or of the
      selection of the hotel, the banner on the passenger page, or a failed check. */
  datatype AttemptError =
    | StepError(message: string)
    | PassengerUnavailable
    | InlineFailed(probeFailure: ProbeFailure)
    | FormFailed(formFailure: FormFailure)

  function AttemptErrorText(e: AttemptError): (r: string)
    ensures e.StepError? ==> r == e.message
    ensures e.InlineFailed? ==> r == FailureText(e.probeFailure)
    ensures e.FormFailed? ==> r == FormFailureText(e.formFailure)
  {
    match e
    case StepError(message) => message
    case PassengerUnavailable => "Booking unavailable at passenger details - will retry entire test"
    case InlineFailed(f) => FailureText(f)
    case FormFailed(f) => FormFailureText(f)
  }

  /** The inline-validation step: the six probe scripts in order, stopping at the first failure. */
  function InlineChecksVerdict(o: AttemptObservation): (r: Verdict)
    requires WellFormed(o)
    ensures r.Pass? <==>
      && ScriptVerdict(ProbeVerdicts("email", EmailInvalids, EmailValid, EmailInlinePattern, o.email)).Pass?
      && ScriptVerdict(ProbeVerdicts("firstName_0", FirstNameInvalids, FirstNameValid, FirstNameInlinePattern, o.firstName)).Pass?
      && ScriptVerdict(ProbeVerdicts("mobileNum", MobileInvalids, MobileValid, MobileInlinePattern, o.mobile)).Pass?
      && PromoCodeScriptVerdict(o.promoCode).Pass?
      && DobScriptVerdict(o.dob).Pass?
      && AddressScriptVerdict(o.address).Pass?
  {
    var email := ScriptVerdict(ProbeVerdicts("email", EmailInvalids, EmailValid, EmailInlinePattern, o.email));
    var firstName := ScriptVerdict(ProbeVerdicts("firstName_0", FirstNameInvalids, FirstNameValid, FirstNameInlinePattern, o.firstName));
    var mobile := ScriptVerdict(ProbeVerdicts("mobileNum", MobileInvalids, MobileValid, MobileInlinePattern, o.mobile));
    if email.Fail? then email
    else if firstName.Fail? then firstName
    else if mobile.Fail? then mobile
    else if PromoCodeScriptVerdict(o.promoCode).Fail? then PromoCodeScriptVerdict(o.promoCode)
    else if DobScriptVerdict(o.dob).Fail? then DobScriptVerdict(o.dob)
    else AddressScriptVerdict(o.address)
  }

  /** The form-validation step: submit, expect the alert, then check the required errors. */
  function FormStepVerdict(form: FormObservation): (r: Option<FormFailure>)
    ensures r.None? <==>
      && !ValidationTimesOut(form) && form.alertVisible
      && RequiredVerdict(ErrorMap(CollectedErrors(form.elements))).None?
    ensures ValidationTimesOut(form) ==> r == Some(ValidationTimedOut)
    ensures !ValidationTimesOut(form) && !form.alertVisible ==> r == Some(AlertNotVisible)
  {
    if ValidationTimesOut(form) then Some(ValidationTimedOut)
    else if !form.alertVisible then Some(AlertNotVisible)
    else RequiredVerdict(ErrorMap(CollectedErrors(form.elements)))
  }

  /**
   * How the attempt at `index` ends, given the verdicts of its inline-validation and
   * form-validation steps. On a retry the results page is reloaded first; the details are
   * read before the hotel is selected; a banner after the selection, or a flights page that
   * fails to load or shows a banner, moves on to the next hotel; a banner on the passenger
   * page throws; the completed attempt carries the details read for the hotel.
   */
  function AttemptOutcomeGiven(index: nat, o: AttemptObservation, details: Result<HotelDetails>,
                               inline: Verdict, formStep: Option<FormFailure>): (r: AttemptOutcome)
    ensures r.Completed? ==> details.Ok? && r.details == details.value && inline.Pass? && formStep.None?
    ensures r == HotelUnavailable ==> o.detailsBanner
    ensures r == FlightsUnavailable ==> WaitForLoaded(o.flights).Err? || o.flightsBanner
  {
    if index > 0 && o.reloadError.Some? then Threw(StepError(o.reloadError.value))
    else if details.Err? then Threw(StepError(details.message))
    else if !o.hotelsLoaded then Threw(StepError(TimeoutError(ActionTimeout)))
    else if index >= |o.hotels| || !HasVisibleButton(o.hotels[index].continueButtons) then
      Threw(StepError(NoVisibleDiscoverButtonError))
    else if o.detailsPageError.Some? then Threw(StepError(o.detailsPageError.value))
    else if o.detailsBanner then HotelUnavailable
    else if o.verderError.Some? then Threw(StepError(o.verderError.value))
    else if WaitForLoaded(o.flights).Err? || o.flightsBanner then FlightsUnavailable
    else if o.boekNuError.Some? then Threw(StepError(o.boekNuError.value))
    else if o.passengerPageError.Some? then Threw(StepError(o.passengerPageError.value))
    else if o.passengerBanner then Threw(PassengerUnavailable)
    else if inline.Fail? then Threw(InlineFailed(inline.failure))
    else if formStep.Some? then Threw(FormFailed(formStep.value))
    else Completed(details.value)
  }

  /** How the attempt at `index` ends. */
  function AttemptOutcomeOf(index: nat, o: AttemptObservation): AttemptOutcome
    requires WellFormed(o)
  {
    AttemptOutcomeGiven(index, o, GetHotelDetailsByIndex(o.hotels, index), InlineChecksVerdict(o), FormStepVerdict(o.form))
  }

  /** An attempt completes exactly when every step gets through, and then carries the details
      read for its hotel; it moves on only because of a banner or flights that did not load. */
  lemma AttemptOutcomeMeaning(index: nat, o: AttemptObservation, details: Result<HotelDetails>,
                              inline: Verdict, formStep: Option<FormFailure>)
    ensures AttemptOutcomeGiven(index, o, details, inline, formStep).Completed? <==>
      && (index == 0 || o.reloadError.None?)
      && details.Ok? && o.hotelsLoaded
      && index < |o.hotels| && HasVisibleButton(o.hotels[index].continueButtons)
      && o.detailsPageError.None? && !o.detailsBanner && o.verderError.None?
      && WaitForLoaded(o.flights).Ok? && !o.flightsBanner
      && o.boekNuError.None? && o.passengerPageError.None? && !o.passengerBanner
      && inline.Pass? && formStep.None?
    ensures AttemptOutcomeGiven(index, o, details, inline, formStep).Completed? ==>
      AttemptOutcomeGiven(index, o, details, inline, formStep).details == details.value
    ensures AttemptOutcomeGiven(index, o, details, inline, formStep) == HotelUnavailable ==> o.detailsBanner
    ensures AttemptOutcomeGiven(index, o, details, inline, formStep) == FlightsUnavailable ==>
      WaitForLoaded(o.flights).Err? || o.flightsBanner
  {
  }

  /** A banner on the passenger page never lets an attempt complete, whatever the probes and
      the form would have shown. */
  lemma PassengerBannerNeverCompletes(index: nat, o: AttemptObservation, details: Result<HotelDetails>,
                                      inline: Verdict, formStep: Option<FormFailure>)
    requires o.passengerBanner
    ensures !AttemptOutcomeGiven(index, o, details, inline, formStep).Completed?
    ensures AttemptOutcomeGiven(index, o, details, inline, formStep)
      == AttemptOutcomeGiven(index, o, details, Pass, None)
  {
  }

  /** The inline-validation step, run on a fresh passenger form. */
  method RunInlineChecks(o: AttemptObservation) returns (r: Verdict)
    requires WellFormed(o)
    ensures r == InlineChecksVerdict(o)
  {
    var form := new PassengerForm();
    r := form.ValidateEmailInline(o.email);
    if r.Fail? {
      return;
    }
    r := form.ValidateFirstNameInline(o.firstName);
    if r.Fail? {
      return;
    }
    r := form.ValidateMobileInline(o.mobile);
    if r.Fail? {
      return;
    }
    r := form.ValidatePromoCodeInline(o.promoCode);
    if r.Fail? {
      return;
    }
    r := form.ValidateDobInline(o.dob);
    if r.Fail? {
      return;
    }
    r := form.ValidateAddressInline(o.address);
  }

  /** The form-validation step. */
  method RunFormStep(form: FormObservation) returns (failure: Option<FormFailure>)
    ensures failure == FormStepVerdict(form)
  {
    var validationResult := ValidateFormFields(form);
    if validationResult.Err? {
      return Some(ValidationTimedOut);
    }
    if !validationResult.value.alertVisible {
      return Some(AlertNotVisible);
    }
    var errorMap := BuildErrorMap(validationResult.value.fieldErrors);
    failure := CheckRequiredErrors(errorMap);
  }

  /** One pass of the body of the retry loop, at `hotelIndex`. */
  method RunAttempt(hotelIndex: nat, o: AttemptObservation) returns (outcome: AttemptOutcome)
    requires WellFormed(o)
    ensures outcome == AttemptOutcomeOf(hotelIndex, o)
  {
    ghost var detailsRead := GetHotelDetailsByIndex(o.hotels, hotelIndex);
    ghost var inlineVerdict := InlineChecksVerdict(o);
    ghost var formVerdict := FormStepVerdict(o.form);
    assert AttemptOutcomeOf(hotelIndex, o) == AttemptOutcomeGiven(hotelIndex, o, detailsRead, inlineVerdict, formVerdict);
    if hotelIndex > 0 && o.reloadError.Some? {
      return Threw(StepError(o.reloadError.value));
    }
    var selectedHotelDetails := GetHotelDetailsByIndex(o.hotels, hotelIndex);
    if selectedHotelDetails.Err? {
      return Threw(StepError(selectedHotelDetails.message));
    }
    var selected := SelectHotelByIndex(o.hotels, hotelIndex, o.hotelsLoaded);
    if selected.Err? {
      return Threw(StepError(selected.message));
    }
    if o.detailsPageError.Some? {
      return Threw(StepError(o.detailsPageError.value));
    }
    if o.detailsBanner {
      return HotelUnavailable;
    }
    if o.verderError.Some? {
      return Threw(StepError(o.verderError.value));
    }
    var flightsLoaded := WaitForLoaded(o.flights).Ok?;
    if o.flightsBanner || !flightsLoaded {
      return FlightsUnavailable;
    }
    if o.boekNuError.Some? {
      return Threw(StepError(o.boekNuError.value));
    }
    if o.passengerPageError.Some? {
      return Threw(StepError(o.passengerPageError.value));
    }
    if o.passengerBanner {
      return Threw(PassengerUnavailable);
    }
    var inline := RunInlineChecks(o);
    if inline.Fail? {
      return Threw(InlineFailed(inline.failure));
    }
    var formStep := RunFormStep(o.form);
    if formStep.Some? {
      return Threw(FormFailed(formStep.value));
    }
    outcome := Completed(selectedHotelDetails.value);
  }

  // ---------------------------------------------------------------------------------------
  // The hotel retry loop

  /** How the loop ends: a hotel booked through the passenger checks, or the test fails. */
  datatype JourneyResult = Booked(details: HotelDetails, hotelIndex: nat) | Failed(message: string)

  const FailedPrefix := "Failed to complete booking after "

  /** Thrown from the catch block when the attempt that threw was the last one allowed. */
  function AttemptsExhaustedError(maxHotelRetries: int): (r: string)
    ensures StartsWith(r, FailedPrefix) && OccursAt(r, IntToString(maxHotelRetries), |FailedPrefix|)
  {
    FailedPrefix + IntToString(maxHotelRetries) + " hotel attempts"
  }

  /** Thrown after the loop when no attempt got through. */
  function HotelsExhaustedError(maxHotelRetries: int): (r: string)
    ensures StartsWith(r, FailedPrefix) && OccursAt(r, IntToString(maxHotelRetries), |FailedPrefix| + 7)
  {
    FailedPrefix + "trying " + IntToString(maxHotelRetries) + " hotels. Test will retry with new search criteria."
  }

  /** The two failure messages can never be confused. */
  lemma ExhaustedErrorsDistinct(n: int, m: int)
    ensures AttemptsExhaustedError(n) != HotelsExhaustedError(m)
  {
    var a := AttemptsExhaustedError(n);
    var b := HotelsExhaustedError(m);
    var trying := "trying ";
    assert a[|FailedPrefix|] == (FailedPrefix + IntToString(n))[|FailedPrefix|] == IntToString(n)[0];
    assert b[|FailedPrefix|] == (FailedPrefix + trying)[|FailedPrefix|] == trying[0] == 't';
  }

  /** The result of the loop from `hotelIndex` on, given how each attempt ends. */
  function RetryFrom(maxHotelRetries: int, outcomes: seq<AttemptOutcome>, hotelIndex: nat): (r: JourneyResult)
    requires maxHotelRetries <= |outcomes|
    ensures r.Booked? ==>
      hotelIndex <= r.hotelIndex < maxHotelRetries && outcomes[r.hotelIndex] == Completed(r.details)
    ensures r.Failed? ==>
      r.message == HotelsExhaustedError(maxHotelRetries) || r.message == AttemptsExhaustedError(maxHotelRetries)
    decreases |outcomes| - hotelIndex
  {
    if hotelIndex >= maxHotelRetries then Failed(HotelsExhaustedError(maxHotelRetries))
    else match outcomes[hotelIndex]
      case Completed(details) => Booked(details, hotelIndex)
      case Threw(_) =>
        if hotelIndex + 1 >= maxHotelRetries then Failed(AttemptsExhaustedError(maxHotelRetries))
        else RetryFrom(maxHotelRetries, outcomes, hotelIndex + 1)
      case _ => RetryFrom(maxHotelRetries, outcomes, hotelIndex + 1)
  }

  /** One step of `RetryFrom` at an index the loop is allowed to try. */
  lemma RetryFromUnfold(maxHotelRetries: int, outcomes: seq<AttemptOutcome>, hotelIndex: nat)
    requires hotelIndex < maxHotelRetries <= |outcomes|
    ensures RetryFrom(maxHotelRetries, outcomes, hotelIndex) ==
      if outcomes[hotelIndex].Completed? then Booked(outcomes[hotelIndex].details, hotelIndex)
      else if outcomes[hotelIndex].Threw? && hotelIndex + 1 >= maxHotelRetries
      then Failed(AttemptsExhaustedError(maxHotelRetries))
      else RetryFrom(maxHotelRetries, outcomes, hotelIndex + 1)
  {
  }

  function Journey(maxHotelRetries: int, outcomes: seq<AttemptOutcome>): (r: JourneyResult)
    requires maxHotelRetries <= |outcomes|
    ensures r.Booked? ==> r.hotelIndex < maxHotelRetries && outcomes[r.hotelIndex] == Completed(r.details)
  {
    RetryFrom(maxHotelRetries, outcomes, 0)
  }

  /** `outcomes[i]` is how the attempt at index i ends, for every attempt observed. */
  predicate AreOutcomes(attempts: seq<AttemptObservation>, outcomes: seq<AttemptOutcome>) {
    && |outcomes| == |attempts|
    && (forall i :: 0 <= i < |attempts| ==> WellFormed(attempts[i]))
    && forall i {:trigger AttemptOutcomeOf(i, attempts[i])} :: 0 <= i < |attempts| ==>
         outcomes[i] == AttemptOutcomeOf(i, attempts[i])
  }

  /** How each attempt would end, hotel index by hotel index. */
  function Outcomes(attempts: seq<AttemptObservation>): (r: seq<AttemptOutcome>)
    requires forall i :: 0 <= i < |attempts| ==> WellFormed(attempts[i])
    ensures AreOutcomes(attempts, r)
  {
    seq(|attempts|, i requires 0 <= i < |attempts| && WellFormed(attempts[i]) => AttemptOutcomeOf(i, attempts[i]))
  }

  /** The loop books the first hotel whose attempt completes, and only that one. */
  lemma {:induction false} BookedIffFirstCompleted(maxHotelRetries: int, outcomes: seq<AttemptOutcome>,
                                                   from: nat, details: HotelDetails, k: nat)
    requires maxHotelRetries <= |outcomes|
    ensures RetryFrom(maxHotelRetries, outcomes, from) == Booked(details, k) <==>
      && from <= k < maxHotelRetries
      && outcomes[k] == Completed(details)
      && forall j :: from <= j < k ==> !outcomes[j].Completed?
    decreases |outcomes| - from
  {
    if from < maxHotelRetries && !outcomes[from].Completed? {
      BookedIffFirstCompleted(maxHotelRetries, outcomes, from + 1, details, k);
    }
  }

  /** The loop fails exactly when no attempt it is allowed to make completes. */
  lemma {:induction false} FailedIffNoneCompleted(maxHotelRetries: int, outcomes: seq<AttemptOutcome>, from: nat)
    requires maxHotelRetries <= |outcomes|
    ensures RetryFrom(maxHotelRetries, outcomes, from).Failed? <==>
      forall j :: from <= j < maxHotelRetries ==> !outcomes[j].Completed?
    decreases |outcomes| - from
  {
    if from < maxHotelRetries && !outcomes[from].Completed? {
      FailedIffNoneCompleted(maxHotelRetries, outcomes, from + 1);
    }
  }

  /** Which message a failed loop throws depends only on how the last allowed attempt ended:
      a throw there is rethrown from the catch block, anything else ends the loop normally. */
  lemma {:induction false} FailureMessage(maxHotelRetries: int, outcomes: seq<AttemptOutcome>, from: nat)
    requires maxHotelRetries <= |outcomes|
    requires RetryFrom(maxHotelRetries, outcomes, from).Failed?
    ensures RetryFrom(maxHotelRetries, outcomes, from).message ==
      if from < maxHotelRetries && outcomes[maxHotelRetries - 1].Threw?
      then AttemptsExhaustedError(maxHotelRetries)
      else HotelsExhaustedError(maxHotelRetries)
    decreases |outcomes| - from
  {
    if from < maxHotelRetries && from + 1 < maxHotelRetries {
      FailureMessage(maxHotelRetries, outcomes, from + 1);
    }
  }

  /** A throw before the last allowed attempt is handled like an unavailable hotel. */
  lemma {:induction false} EarlyThrowIsRetried(maxHotelRetries: int, outcomes: seq<AttemptOutcome>,
                                               from: nat, j: nat, error: AttemptError)
    requires maxHotelRetries <= |outcomes|
    requires j + 1 < maxHotelRetries && outcomes[j] == Threw(error)
    ensures RetryFrom(maxHotelRetries, outcomes, from) == RetryFrom(maxHotelRetries, outcomes[j := HotelUnavailable], from)
    decreases |outcomes| - from
  {
    var retried := outcomes[j := HotelUnavailable];
    if from < maxHotelRetries && !outcomes[from].Completed? {
      EarlyThrowIsRetried(maxHotelRetries, outcomes, from + 1, j, error);
      RetryFromUnfold(maxHotelRetries, outcomes, from);
      RetryFromUnfold(maxHotelRetries, retried, from);
    }
  }

  /** Allowing more attempts never loses a booking the loop makes. */
  lemma {:induction false} MoreRetriesKeepBooking(n: int, m: int, outcomes: seq<AttemptOutcome>, from: nat)
    requires n <= m <= |outcomes|
    requires RetryFrom(n, outcomes, from).Booked?
    ensures RetryFrom(m, outcomes, from) == RetryFrom(n, outcomes, from)
    decreases |outcomes| - from
  {
    if !outcomes[from].Completed? {
      MoreRetriesKeepBooking(n, m, outcomes, from + 1);
    }
  }

  /**
   * One turn of the loop: the attempt at `hotelIndex`, then the decision. `done` holds the
   * loop's result when this turn ends it; otherwise the loop goes on at `hotelIndex + 1`.
   */
  method RetryTurn(maxHotelRetries: int, attempts: seq<AttemptObservation>, ghost outcomes: seq<AttemptOutcome>,
                   hotelIndex: nat)
    returns (done: Option<JourneyResult>)
    requires hotelIndex < maxHotelRetries <= |attempts|
    requires AreOutcomes(attempts, outcomes)
    ensures done.Some? ==> done.value == RetryFrom(maxHotelRetries, outcomes, hotelIndex)
    ensures done.Some? && done.value.Booked? ==> done.value.hotelIndex == hotelIndex
    ensures done.Some? && done.value.Failed? ==> hotelIndex + 1 == maxHotelRetries
    ensures done.None? ==>
      RetryFrom(maxHotelRetries, outcomes, hotelIndex) == RetryFrom(maxHotelRetries, outcomes, hotelIndex + 1)
  {
    var outcome := RunAttempt(hotelIndex, attempts[hotelIndex]);
    assert outcome == outcomes[hotelIndex];
    RetryFromUnfold(maxHotelRetries, outcomes, hotelIndex);
    match outcome {
      case Completed(details) =>
        return Some(Booked(details, hotelIndex));
      case Threw(_) =>
        if hotelIndex + 1 >= maxHotelRetries {
          return Some(Failed(AttemptsExhaustedError(maxHotelRetries)));
        }
        return None;
      case _ =>
        return None;
    }
  }

  /**
   * The hotel retry loop: attempt the hotels at index 0, 1, ... until an attempt completes;
   * an unavailable hotel or flight moves on, a throw moves on unless it was the last attempt
   * allowed. `attempts[i]` is what the browser shows during the attempt at index i, and
   * `outcomes` how each of them ends. Besides the result, `attempted` counts the attempts made.
   */
  method RetryLoop(maxHotelRetries: int, attempts: seq<AttemptObservation>, ghost outcomes: seq<AttemptOutcome>)
    returns (r: JourneyResult, attempted: nat)
    requires maxHotelRetries <= |attempts|
    requires AreOutcomes(attempts, outcomes)
    ensures r == Journey(maxHotelRetries, outcomes)
    ensures r.Booked? ==> attempted == r.hotelIndex + 1 && r.hotelIndex < maxHotelRetries
    ensures r.Failed? ==> attempted == if maxHotelRetries < 0 then 0 else maxHotelRetries
  {
    var hotelIndex: nat := 0;
    while hotelIndex < maxHotelRetries
      invariant maxHotelRetries < 0 ==> hotelIndex == 0
      invariant maxHotelRetries >= 0 ==> hotelIndex <= maxHotelRetries
      invariant Journey(maxHotelRetries, outcomes) == RetryFrom(maxHotelRetries, outcomes, hotelIndex)
      decreases maxHotelRetries - hotelIndex
    {
      var done := RetryTurn(maxHotelRetries, attempts, outcomes, hotelIndex);
      hotelIndex := hotelIndex + 1;
      if done.Some? {
        return done.value, hotelIndex;
      }
    }
    r, attempted := Failed(HotelsExhaustedError(maxHotelRetries)), hotelIndex;
  }

  /** The loop over the attempts as the browser shows them. */
  method HotelRetryLoop(maxHotelRetries: int, attempts: seq<AttemptObservation>)
    returns (r: JourneyResult, attempted: nat)
    requires maxHotelRetries <= |attempts|
    requires forall i :: 0 <= i < |attempts| ==> WellFormed(attempts[i])
    ensures r == Journey(maxHotelRetries, Outcomes(attempts))
    ensures r.Booked? ==> attempted == r.hotelIndex + 1 && r.hotelIndex < maxHotelRetries
    ensures r.Failed? ==> attempted == if maxHotelRetries < 0 then 0 else maxHotelRetries
  {
    r, attempted := RetryLoop(maxHotelRetries, attempts, Outcomes(attempts));
  }
}
