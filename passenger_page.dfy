/**
 * The passenger-details page (pages/PassengerDetailsPage.ts): collecting the visible field
 * errors, triggering form validation, and the inline probes that fill a field with invalid and
 * valid values and check the classes and error text the page shows after each blur.
 */
module PassengerDetails {
  import opened Wrappers
  import opened Text
  import opened Patterns
  import opened Domain
  import opened FieldClassification

  // ---------------------------------------------------------------------------------------
  // Collecting the visible field errors

  /** An element matched by the error selector: whether it is visible and its text content. */
  datatype ErrorElement = ErrorElement(visible: bool, textContent: Option<string>)

  /** The error one element contributes: visible elements with non-blank text give their trimmed
      text, classified through the field table. */
  function EntryOf(e: ErrorElement): (r: Option<FieldValidationError>)
    ensures r.Some? <==> e.visible && e.textContent.Some? && !IsBlank(e.textContent.value)
    ensures r.Some? ==>
      && r.value.message == Trim(e.textContent.value)
      && r.value.fieldId == Classify(r.value.message)
  {
    if !e.visible || e.textContent.None? then None
    else
      var trimmed := Trim(e.textContent.value);
      if trimmed == [] then None else Some(FieldValidationError(Classify(trimmed), trimmed))
  }

  /** The errors the collection loop gathers, in element order. */
  function CollectedErrors(elements: seq<ErrorElement>): (r: seq<FieldValidationError>)
    ensures |r| <= |elements|
  {
    if elements == [] then []
    else
      var i := |elements| - 1;
      CollectedErrors(elements[..i]) + (match EntryOf(elements[i]) case Some(e) => [e] case None => [])
  }

  /** The errors of a list of elements are those of its two parts, in order. */
  lemma {:induction false} CollectedErrorsAppend(a: seq<ErrorElement>, b: seq<ErrorElement>)
    ensures CollectedErrors(a + b) == CollectedErrors(a) + CollectedErrors(b)
    decreases |b|
  {
    if b == [] {
      assert a + b == a;
    } else {
      var i := |b| - 1;
      assert (a + b)[..|a + b| - 1] == a + b[..i];
      CollectedErrorsAppend(a, b[..i]);
    }
  }

  /** One element contributes exactly its own entry. */
  lemma CollectedErrorsSingle(e: ErrorElement)
    ensures CollectedErrors([e]) == match EntryOf(e) case Some(x) => [x] case None => []
  {
    assert [e][..0] == [];
  }

  /** Every collected error has a trimmed, non-empty message and the field id of that message. */
  predicate WellFormedError(err: FieldValidationError) {
    err.message != "" && IsTrimmed(err.message) && err.fieldId == Classify(err.message)
  }

  lemma {:induction false} CollectedErrorsWellFormed(elements: seq<ErrorElement>)
    ensures |CollectedErrors(elements)| <= |elements|
    ensures forall k :: 0 <= k < |CollectedErrors(elements)| ==> WellFormedError(CollectedErrors(elements)[k])
  {
    if elements != [] {
      CollectedErrorsWellFormed(elements[..|elements| - 1]);
    }
  }

  /** Hidden elements contribute nothing. */
  lemma {:induction false} HiddenElementsIgnored(elements: seq<ErrorElement>)
    requires forall i :: 0 <= i < |elements| ==> !elements[i].visible
    ensures CollectedErrors(elements) == []
  {
    if elements != [] {
      HiddenElementsIgnored(elements[..|elements| - 1]);
    }
  }

  /** `getValidationErrors`: walk the matched elements and gather their errors. */
  method GetValidationErrors(elements: seq<ErrorElement>) returns (errors: seq<FieldValidationError>)
    ensures errors == CollectedErrors(elements)
  {
    errors := [];
    for i := 0 to |elements|
      invariant errors == CollectedErrors(elements[..i])
    {
      assert elements[..i + 1][..i] == elements[..i];
      var e := elements[i];
      if !e.visible {
        continue;
      }
      if e.textContent.None? || Trim(e.textContent.value) == [] {
        continue;
      }
      var trimmedError := Trim(e.textContent.value);
      var matchedFieldId := Classify(trimmedError);
      errors := errors + [FieldValidationError(matchedFieldId, trimmedError)];
    }
    assert elements[..|elements|] == elements;
  }

  // ---------------------------------------------------------------------------------------
  // Triggering form validation

  /**
   * What the page shows around a submit of the empty form: whether the continue button is
   * visible, whether the validation alert is visible when first asked and when asked again for
   * its text, the alert text's content once it shows (`None` when it does not show within the
   * default wait), and the elements matched by the error selector.
   */
  datatype FormObservation = FormObservation(
    continueVisible: bool,
    alertVisible: bool,
    alertStillVisible: bool,
    alertText: Option<string>,
    elements: seq<ErrorElement>)

  /** `getValidationAlertMessage`: "" once the alert is gone; otherwise the trimmed alert text,
      whose wait times out when the text never shows. */
  function AlertMessage(obs: FormObservation): (r: Result<string>)
    ensures !obs.alertStillVisible ==> r == Ok("")
    ensures obs.alertStillVisible ==> (r.Ok? <==> obs.alertText.Some?)
    ensures r.Err? ==> r == Err(TimeoutError(DefaultTimeout))
    ensures r.Ok? ==> IsTrimmed(r.value)
    ensures obs.alertStillVisible && obs.alertText.Some? ==> r.value == Trim(obs.alertText.value)
  {
    if !obs.alertStillVisible then Ok("")
    else match obs.alertText
      case Some(t) => Ok(Trim(t))
      case None => Err(TimeoutError(DefaultTimeout))
  }

  /** The submit throws: the continue button never shows, or the alert is there but its text
      never shows. */
  predicate ValidationTimesOut(obs: FormObservation) {
    !obs.continueVisible || (obs.alertVisible && obs.alertStillVisible && obs.alertText.None?)
  }

  /** `validateFormFields`: click the continue button, then report the alert and the field errors. */
  method ValidateFormFields(obs: FormObservation) returns (r: Result<PassengerValidationResult>)
    ensures r.Err? <==> ValidationTimesOut(obs)
    ensures r.Err? ==> r.message == TimeoutError(DefaultTimeout)
    ensures r.Ok? ==> r.value.alertVisible == obs.alertVisible
    ensures r.Ok? && !obs.alertVisible ==> r.value.alertMessage == ""
    ensures r.Ok? && obs.alertVisible ==> Ok(r.value.alertMessage) == AlertMessage(obs)
    ensures r.Ok? ==> IsTrimmed(r.value.alertMessage)
    ensures r.Ok? ==> r.value.fieldErrors == CollectedErrors(obs.elements)
  {
    if !obs.continueVisible {
      return Err(TimeoutError(DefaultTimeout));
    }
    var alertVisible := obs.alertVisible;
    var alertMessage := "";
    if alertVisible {
      alertMessage :- AlertMessage(obs);
    }
    var fieldErrors := GetValidationErrors(obs.elements);
    r := Ok(PassengerValidationResult(alertVisible, alertMessage, fieldErrors));
  }

  // ---------------------------------------------------------------------------------------
  // Inline probes

  /** How long a probe waits for the error to show or hide, in ms. */
  const ProbeTimeout: nat := 3000

  /**
   * What the page shows after a value was filled in and the input blurred: the `class`
   * attributes of the input and of its error container, the text of the error's last span
   * (`None` when the container holds no span, so that reading it waits out the driver's
   * action timeout), and whether that span became visible within the probe timeout.
   */
  datatype ProbeObservation = ProbeObservation(
    inputClass: Option<string>,
    containerClass: Option<string>,
    errorText: Option<string>,
    errorTextVisible: bool)

  /** `(await locator.getAttribute('class') || '').includes(marker)` */
  predicate HasClass(classAttr: Option<string>, marker: string) {
    Contains(classAttr.GetOr(""), marker)
  }

  function Quoted(s: string): string {
    "\"" + s + "\""
  }

  /** Why a probe failed. `FailureText` renders each as the message the probe raises. */
  datatype ProbeFailure =
    | MissingErrorClass(fieldName: string, value: string)
    | HiddenErrorMessage(fieldName: string, value: string)
    | PatternMismatch(fieldName: string, shown: string, pattern: Pattern, value: string)
    | UnexpectedErrorClass(fieldName: string, value: string)
    | ShownErrorMessage(fieldName: string, value: string, shown: string)
    | StreetMissingErrorClass
    | StreetHiddenErrorMessage
    | StreetPatternMismatch(shown: string)
    | StreetUnexpectedErrorClass
    | StreetShownError(shown: string)
    | DobPatternMismatch(shown: string)
    | DobShownError(shown: string)
    | ProbeTimedOut(ms: nat)

  /** The outcome of a probe or of a script of probes. */
  datatype Verdict = Pass | Fail(failure: ProbeFailure)

  function MissingErrorClassText(fieldName: string, value: string): (r: string)
    ensures StartsWith(r, fieldName + ": ") && OccursAt(r, Quoted(value), |r| - |value| - 2)
    ensures |r| > |fieldName| + 2 && r[|fieldName| + 2] == 'i'
  {
    var head, lead := fieldName + ": ", "input " + "should have \"inputs__error\" class for invalid value ";
    assert (head + (lead + Quoted(value)))[|head|] == lead[0];
    head + (lead + Quoted(value))
  }

  function HiddenErrorMessageText(fieldName: string, value: string): (r: string)
    ensures StartsWith(r, fieldName + ": ") && OccursAt(r, Quoted(value), |r| - |value| - 2)
    ensures |r| > |fieldName| + 2 && r[|fieldName| + 2] == 'e'
  {
    var head, lead := fieldName + ": ", "error " + "message should be visible (inputs__show) for invalid value ";
    assert (head + (lead + Quoted(value)))[|head|] == lead[0];
    head + (lead + Quoted(value))
  }

  function PatternMismatchText(fieldName: string, shown: string, p: Pattern, value: string): (r: string)
    ensures StartsWith(r, fieldName + ": ") && OccursAt(r, Quoted(value), |r| - |value| - 2)
    ensures OccursAt(r, Quoted(shown), |fieldName| + 16)
    ensures |r| > |fieldName| + 2 && r[|fieldName| + 2] == 'e'
  {
    var head, lead := fieldName + ": ", "error message ";
    var rest := Quoted(shown) + " does not match pattern " + p.source + " for invalid value " + Quoted(value);
    assert (head + (lead + rest))[|head|] == lead[0];
    head + (lead + rest)
  }

  /** The message of the error a failed probe raises. */
  function FailureText(f: ProbeFailure): string {
    match f
    case MissingErrorClass(fieldName, value) => MissingErrorClassText(fieldName, value)
    case HiddenErrorMessage(fieldName, value) => HiddenErrorMessageText(fieldName, value)
    case PatternMismatch(fieldName, shown, pattern, value) => PatternMismatchText(fieldName, shown, pattern, value)
    case UnexpectedErrorClass(fieldName, value) =>
      fieldName + ": input should NOT have \"inputs__error\" class for valid value " + Quoted(value)
    case ShownErrorMessage(fieldName, value, shown) =>
      fieldName + ": error message should be hidden for valid value " + Quoted(value) + ", but shows: " + Quoted(shown)
    case StreetMissingErrorClass =>
      "Street input should have \"inputs__error\" class for invalid value \"   \""
    case StreetHiddenErrorMessage =>
      "Error message container should have \"inputs__show\" class for invalid street"
    case StreetPatternMismatch(shown) =>
      "Street error message " + Quoted(shown) + " does not match pattern " + StreetInlinePattern.source
    case StreetUnexpectedErrorClass =>
      "Street input should NOT have \"inputs__error\" class for valid value \"Main Street\""
    case StreetShownError(shown) =>
      "Error message should be hidden for valid street, but shows: " + Quoted(shown)
    case DobPatternMismatch(shown) =>
      "DOB error message " + Quoted(shown) + " does not match pattern " + DobInlinePattern.source
    case DobShownError(shown) =>
      "DOB error should be hidden for valid date, but shows: " + Quoted(shown)
    case ProbeTimedOut(ms) =>
      TimeoutError(ms)
  }

  /**
   * The checks of `assertInlineError`, in order: the error text is read (which waits for the
   * last span), the input carries `inputs__error`, the error container carries `inputs__show`,
   * and the trimmed error text matches the pattern.
   */
  function InlineErrorVerdict(fieldName: string, invalidValue: string, pattern: Pattern, obs: ProbeObservation)
    : (r: Verdict)
    ensures r.Pass? <==>
      && obs.errorText.Some?
      && HasClass(obs.inputClass, "inputs__error")
      && HasClass(obs.containerClass, "inputs__show")
      && Matches(pattern, Trim(obs.errorText.value))
    ensures obs.errorText.None? ==> r == Fail(ProbeTimedOut(ActionTimeout))
    ensures obs.errorText.Some? && !HasClass(obs.inputClass, "inputs__error") ==>
      r == Fail(MissingErrorClass(fieldName, invalidValue))
    ensures obs.errorText.Some? && HasClass(obs.inputClass, "inputs__error") && !HasClass(obs.containerClass, "inputs__show") ==>
      r == Fail(HiddenErrorMessage(fieldName, invalidValue))
    ensures (obs.errorText.Some? && HasClass(obs.inputClass, "inputs__error") && HasClass(obs.containerClass, "inputs__show") && r.Fail?)
      ==> r == Fail(PatternMismatch(fieldName, Trim(obs.errorText.value), pattern, invalidValue))
  {
    match obs.errorText
    case None => Fail(ProbeTimedOut(ActionTimeout))
    case Some(errorText) =>
      if !HasClass(obs.inputClass, "inputs__error") then Fail(MissingErrorClass(fieldName, invalidValue))
      else if !HasClass(obs.containerClass, "inputs__show") then Fail(HiddenErrorMessage(fieldName, invalidValue))
      else
        var trimmedError := Trim(errorText);
        if !Matches(pattern, trimmedError) then Fail(PatternMismatch(fieldName, trimmedError, pattern, invalidValue))
        else Pass
  }

  /** A missing error class and a hidden error message are reported differently: they differ
      in the first character after the field name. */
  lemma MissingAndHiddenTextsDiffer(fieldName: string, value: string)
    ensures MissingErrorClassText(fieldName, value) != HiddenErrorMessageText(fieldName, value)
  {
  }

  /** A missing error class and an error text off the pattern are reported differently. */
  lemma MissingAndMismatchTextsDiffer(fieldName: string, text: string, p: Pattern, value: string)
    ensures MissingErrorClassText(fieldName, value) != PatternMismatchText(fieldName, text, p, value)
  {
  }

  /** A missing error class is reported differently from the two later failures of
      `assertInlineError`. */
  lemma InlineErrorFailuresDistinct(fieldName: string, text: string, p: Pattern, value: string)
    ensures FailureText(MissingErrorClass(fieldName, value)) != FailureText(HiddenErrorMessage(fieldName, value))
    ensures FailureText(MissingErrorClass(fieldName, value)) != FailureText(PatternMismatch(fieldName, text, p, value))
  {
    MissingAndHiddenTextsDiffer(fieldName, value);
    MissingAndMismatchTextsDiffer(fieldName, text, p, value);
  }

  /** The checks of `assertInlineValid`: no `inputs__error` on the input, no `inputs__show` on
      the container; a shown container has its text read for the message, which waits out the
      action timeout when there is no span. */
  function InlineValidVerdict(fieldName: string, validValue: string, obs: ProbeObservation): (r: Verdict)
    ensures r.Pass? <==> !HasClass(obs.inputClass, "inputs__error") && !HasClass(obs.containerClass, "inputs__show")
    ensures HasClass(obs.inputClass, "inputs__error") ==> r == Fail(UnexpectedErrorClass(fieldName, validValue))
    ensures !HasClass(obs.inputClass, "inputs__error") && HasClass(obs.containerClass, "inputs__show") ==>
      r == Fail(if obs.errorText.None? then ProbeTimedOut(ActionTimeout)
                else ShownErrorMessage(fieldName, validValue, Trim(obs.errorText.value)))
  {
    if HasClass(obs.inputClass, "inputs__error") then Fail(UnexpectedErrorClass(fieldName, validValue))
    else if HasClass(obs.containerClass, "inputs__show") then
      match obs.errorText
      case None => Fail(ProbeTimedOut(ActionTimeout))
      case Some(t) => Fail(ShownErrorMessage(fieldName, validValue, Trim(t)))
    else Pass
  }

  /** No single observation satisfies both an error probe and a valid probe. */
  lemma ProbesExclusive(fieldName: string, v: string, w: string, p: Pattern, obs: ProbeObservation)
    ensures !(InlineErrorVerdict(fieldName, v, p, obs).Pass? && InlineValidVerdict(fieldName, w, obs).Pass?)
  {
  }

  /** The verdicts of the error probes of a script, one per invalid value; `obs[j]` is what the
      page shows after the j-th fill. */
  function ErrorProbeVerdicts(fieldName: string, invalids: seq<string>, pattern: Pattern,
                              obs: seq<ProbeObservation>): (v: seq<Verdict>)
    requires |invalids| <= |obs|
    ensures |v| == |invalids|
    ensures forall j :: 0 <= j < |invalids| ==> v[j] == InlineErrorVerdict(fieldName, invalids[j], pattern, obs[j])
  {
    if invalids == [] then []
    else
      var n := |invalids| - 1;
      ErrorProbeVerdicts(fieldName, invalids[..n], pattern, obs) + [InlineErrorVerdict(fieldName, invalids[n], pattern, obs[n])]
  }

  /** The verdicts of a probe script: the error probes, then the valid probe on `valid`. */
  function ProbeVerdicts(fieldName: string, invalids: seq<string>, valid: string, pattern: Pattern,
                         obs: seq<ProbeObservation>): (v: seq<Verdict>)
    requires |obs| == |invalids| + 1
    ensures |v| == |obs|
    ensures forall j :: 0 <= j < |invalids| ==> v[j] == InlineErrorVerdict(fieldName, invalids[j], pattern, obs[j])
    ensures v[|invalids|] == InlineValidVerdict(fieldName, valid, obs[|invalids|])
  {
    ErrorProbeVerdicts(fieldName, invalids, pattern, obs) + [InlineValidVerdict(fieldName, valid, obs[|invalids|])]
  }

  /** The position of the first failing verdict at or after `from`. */
  function FirstFailureFrom(verdicts: seq<Verdict>, from: nat): (k: Option<nat>)
    requires from <= |verdicts|
    ensures k.Some? ==>
      && from <= k.value < |verdicts| && verdicts[k.value].Fail?
      && forall j :: from <= j < k.value ==> verdicts[j].Pass?
    ensures k.None? <==> forall j :: from <= j < |verdicts| ==> verdicts[j].Pass?
    decreases |verdicts| - from
  {
    if from == |verdicts| then None
    else if verdicts[from].Fail? then Some(from)
    else FirstFailureFrom(verdicts, from + 1)
  }

  /** The first failing verdict is the one every earlier verdict passed before. */
  lemma FirstFailureIsUnique(verdicts: seq<Verdict>, k: nat)
    requires k < |verdicts| && verdicts[k].Fail?
    requires forall j :: 0 <= j < k ==> verdicts[j].Pass?
    ensures FirstFailureFrom(verdicts, 0) == Some(k)
  {
  }

  /** A script stops at its first failing probe and reports it. */
  function ScriptVerdict(verdicts: seq<Verdict>): (r: Verdict)
    ensures r.Pass? <==> forall j :: 0 <= j < |verdicts| ==> verdicts[j].Pass?
  {
    match FirstFailureFrom(verdicts, 0)
    case Some(k) => verdicts[k]
    case None => Pass
  }

  /** The value a field holds after a script: the value of the failing probe, or "" when every
      probe passed and the valid probe cleared the field. */
  function ScriptFinalValue(filled: seq<string>, verdicts: seq<Verdict>): (v: string)
    requires |filled| == |verdicts|
    ensures ScriptVerdict(verdicts).Pass? ==> v == ""
    ensures ScriptVerdict(verdicts).Fail? ==>
      exists k :: 0 <= k < |filled| && v == filled[k] && verdicts[k] == ScriptVerdict(verdicts)
        && forall j :: 0 <= j < k ==> verdicts[j].Pass?
  {
    match FirstFailureFrom(verdicts, 0)
    case Some(k) => filled[k]
    case None => ""
  }

  /** A script of four probes, written out: it reports the first failure in order, and the
      field keeps the value of that probe. */
  lemma ScriptOfFour(v: seq<Verdict>, f: seq<string>)
    requires |v| == 4 && |f| == 4
    ensures ScriptVerdict(v) ==
      if v[0].Fail? then v[0] else if v[1].Fail? then v[1] else if v[2].Fail? then v[2]
      else if v[3].Fail? then v[3] else Pass
    ensures ScriptFinalValue(f, v) ==
      if v[0].Fail? then f[0] else if v[1].Fail? then f[1] else if v[2].Fail? then f[2]
      else if v[3].Fail? then f[3] else ""
  {
    if v[0].Fail? {
      FirstFailureIsUnique(v, 0);
    } else if v[1].Fail? {
      FirstFailureIsUnique(v, 1);
    } else if v[2].Fail? {
      FirstFailureIsUnique(v, 2);
    } else if v[3].Fail? {
      FirstFailureIsUnique(v, 3);
    } else {
      assert FirstFailureFrom(v, 0).None?;
    }
  }

  /** The inputs the probes fill. */
  datatype Field = FirstNameField | EmailField | MobileField | PromoCodeField | Address1Field
                 | DobDayField | DobMonthField | DobYearField

  const FirstNameInlinePattern := Pattern(
    "/voornaam|paspoort|minimaal|minimum|gebruik|letters|cijfers|speciale/i",
    [["voornaam"], ["paspoort"], ["minimaal"], ["minimum"], ["gebruik"], ["letters"], ["cijfers"], ["speciale"]])
  /** `e-?mail` is written as its two spellings. */
  const EmailInlinePattern := Pattern(
    "/e-?mail|e-mailadres|geldig|ongeldig/i",
    [["e-mail"], ["email"], ["e-mailadres"], ["geldig"], ["ongeldig"]])
  const MobileInlinePattern := Pattern("/telefoonnummer|phone|mobiel/i", [["telefoonnummer"], ["phone"], ["mobiel"]])
  const PromoCodeInlinePattern := Pattern("/kortingscode|niet geldig/i", [["kortingscode"], ["niet geldig"]])
  const DobInlinePattern := Pattern("/geboortedatum|DD\\/MM\\/JJJJ/i", [["geboortedatum"], ["dd/mm/jjjj"]])
  const StreetInlinePattern := Pattern("/straatnaam|street/i", [["straatnaam"], ["street"]])

  const FirstNameInvalids := ["1234", ";%:?*", "   "]
  const FirstNameValid := "Vitalii"
  const EmailInvalids := ["not-an-email", "qa@@example", "   "]
  const EmailValid := "qa.test@example.com"
  const MobileInvalids := ["123", "abc", "++++++"]
  const MobileValid := "0612345678"
  const PromoCodeInvalid := ";%:?*()"
  const ValidPromoCode := "1234567"
  const StreetInvalidValue := "   "
  const StreetValidValue := "Main Street"

  /** The invalid-street probe: the two class checks with their own messages, then a wait for
      the error text that fails the probe when the text does not show, then the pattern. */
  function StreetInvalidVerdict(obs: ProbeObservation): (r: Verdict)
    ensures r.Pass? <==>
      && HasClass(obs.inputClass, "inputs__error")
      && HasClass(obs.containerClass, "inputs__show")
      && obs.errorTextVisible && obs.errorText.Some?
      && Matches(StreetInlinePattern, Trim(obs.errorText.value))
    ensures !HasClass(obs.inputClass, "inputs__error") ==> r == Fail(StreetMissingErrorClass)
    ensures HasClass(obs.inputClass, "inputs__error") && !HasClass(obs.containerClass, "inputs__show") ==>
      r == Fail(StreetHiddenErrorMessage)
    ensures (HasClass(obs.inputClass, "inputs__error") && HasClass(obs.containerClass, "inputs__show")
      && !(obs.errorTextVisible && obs.errorText.Some?)) ==> r == Fail(ProbeTimedOut(ProbeTimeout))
    ensures (HasClass(obs.inputClass, "inputs__error") && HasClass(obs.containerClass, "inputs__show")
      && obs.errorTextVisible && obs.errorText.Some? && r.Fail?) ==>
      r == Fail(StreetPatternMismatch(Trim(obs.errorText.value)))
  {
    if !HasClass(obs.inputClass, "inputs__error") then Fail(StreetMissingErrorClass)
    else if !HasClass(obs.containerClass, "inputs__show") then Fail(StreetHiddenErrorMessage)
    else if !(obs.errorTextVisible && obs.errorText.Some?) then Fail(ProbeTimedOut(ProbeTimeout))
    else
      var trimmedError := Trim(obs.errorText.value);
      if !Matches(StreetInlinePattern, trimmedError) then Fail(StreetPatternMismatch(trimmedError))
      else Pass
  }

  /** Once its error text shows, the street probe accepts exactly what `assertInlineError` would. */
  lemma StreetProbeAgreesWithInlineError(obs: ProbeObservation)
    requires obs.errorTextVisible
    ensures StreetInvalidVerdict(obs).Pass? == InlineErrorVerdict("address1", StreetInvalidValue, StreetInlinePattern, obs).Pass?
  {
  }

  /** The valid-street probe: the checks of `assertInlineValid` with the street's own messages. */
  function StreetValidVerdict(obs: ProbeObservation): (r: Verdict)
    ensures r.Pass? <==> InlineValidVerdict("address1", StreetValidValue, obs).Pass?
    ensures HasClass(obs.inputClass, "inputs__error") ==> r == Fail(StreetUnexpectedErrorClass)
    ensures !HasClass(obs.inputClass, "inputs__error") && HasClass(obs.containerClass, "inputs__show") ==>
      r == Fail(if obs.errorText.None? then ProbeTimedOut(ActionTimeout) else StreetShownError(Trim(obs.errorText.value)))
  {
    if HasClass(obs.inputClass, "inputs__error") then Fail(StreetUnexpectedErrorClass)
    else if HasClass(obs.containerClass, "inputs__show") then
      match obs.errorText
      case None => Fail(ProbeTimedOut(ActionTimeout))
      case Some(t) => Fail(StreetShownError(Trim(t)))
    else Pass
  }

  /** What the date-of-birth error shows after a date was filled: its text when it is visible
      (within the probe timeout), `None` when it is not. */
  datatype DobObservation = DobObservation(shownError: Option<string>)

  /** An impossible date: the error must show (the wait is not caught) and match the date pattern. */
  function DobInvalidVerdict(obs: DobObservation): (r: Verdict)
    ensures r.Pass? <==> obs.shownError.Some? && Matches(DobInlinePattern, Trim(obs.shownError.value))
    ensures obs.shownError.None? ==> r == Fail(ProbeTimedOut(ProbeTimeout))
    ensures obs.shownError.Some? && r.Fail? ==> r == Fail(DobPatternMismatch(Trim(obs.shownError.value)))
  {
    match obs.shownError
    case None => Fail(ProbeTimedOut(ProbeTimeout))
    case Some(t) =>
      var trimmedError := Trim(t);
      if !Matches(DobInlinePattern, trimmedError) then Fail(DobPatternMismatch(trimmedError))
      else Pass
  }

  /** The verdict of `validatePromoCodeInline`: the error probe, then the valid code's checks. */
  function PromoCodeScriptVerdict(obs: seq<ProbeObservation>): (r: Verdict)
    requires |obs| == 2
    ensures r.Pass? <==>
      && InlineErrorVerdict("promoCode", PromoCodeInvalid, PromoCodeInlinePattern, obs[0]).Pass?
      && InlineValidVerdict("promoCode", ValidPromoCode, obs[1]).Pass?
    ensures InlineErrorVerdict("promoCode", PromoCodeInvalid, PromoCodeInlinePattern, obs[0]).Fail? ==>
      r == InlineErrorVerdict("promoCode", PromoCodeInvalid, PromoCodeInlinePattern, obs[0])
    ensures InlineErrorVerdict("promoCode", PromoCodeInvalid, PromoCodeInlinePattern, obs[0]).Pass? ==>
      r == InlineValidVerdict("promoCode", ValidPromoCode, obs[1])
  {
    var e := InlineErrorVerdict("promoCode", PromoCodeInvalid, PromoCodeInlinePattern, obs[0]);
    if e.Fail? then e else InlineValidVerdict("promoCode", ValidPromoCode, obs[1])
  }

  /** The verdict of `validateDobInline`: two impossible dates, then a real one. */
  function DobScriptVerdict(obs: seq<DobObservation>): (r: Verdict)
    requires |obs| == 3
    ensures r.Pass? <==> DobInvalidVerdict(obs[0]).Pass? && DobInvalidVerdict(obs[1]).Pass? && obs[2].shownError.None?
    ensures DobInvalidVerdict(obs[0]).Fail? ==> r == DobInvalidVerdict(obs[0])
    ensures DobInvalidVerdict(obs[0]).Pass? && DobInvalidVerdict(obs[1]).Fail? ==> r == DobInvalidVerdict(obs[1])
    ensures DobInvalidVerdict(obs[0]).Pass? && DobInvalidVerdict(obs[1]).Pass? && obs[2].shownError.Some? ==>
      r == Fail(DobShownError(Trim(obs[2].shownError.value)))
  {
    var first := DobInvalidVerdict(obs[0]);
    var second := DobInvalidVerdict(obs[1]);
    if first.Fail? then first
    else if second.Fail? then second
    else match obs[2].shownError
      case Some(t) => Fail(DobShownError(Trim(t)))
      case None => Pass
  }

  /** The verdict of `validateAddressInline`: the blank street, then "Main Street". */
  function AddressScriptVerdict(obs: seq<ProbeObservation>): (r: Verdict)
    requires |obs| == 2
    ensures r.Pass? <==> StreetInvalidVerdict(obs[0]).Pass? && StreetValidVerdict(obs[1]).Pass?
    ensures StreetInvalidVerdict(obs[0]).Fail? ==> r == StreetInvalidVerdict(obs[0])
    ensures StreetInvalidVerdict(obs[0]).Pass? ==> r == StreetValidVerdict(obs[1])
  {
    var e := StreetInvalidVerdict(obs[0]);
    if e.Fail? then e else StreetValidVerdict(obs[1])
  }

  /** Filling a field twice leaves only the second value. */
  lemma Overwrite(m: map<Field, string>, f: Field, a: string, b: string)
    ensures m[f := a][f := b] == m[f := b]
  {
  }

  /** The fields after the three date-of-birth inputs were filled. */
  function WithDob(m: map<Field, string>, day: string, month: string, year: string): (r: map<Field, string>)
    ensures r.Keys == m.Keys + {DobDayField, DobMonthField, DobYearField}
    ensures r[DobDayField] == day && r[DobMonthField] == month && r[DobYearField] == year
    ensures forall f :: f in m && f !in {DobDayField, DobMonthField, DobYearField} ==> r[f] == m[f]
  {
    m[DobDayField := day][DobMonthField := month][DobYearField := year]
  }

  /** Filling the three date-of-birth inputs twice leaves only the second date. */
  lemma OverwriteDob(m: map<Field, string>, d1: string, m1: string, y1: string, d2: string, m2: string, y2: string)
    ensures WithDob(WithDob(m, d1, m1, y1), d2, m2, y2) == WithDob(m, d2, m2, y2)
  {
  }

  /** The form fields as the probes leave them: field name to current value. */
  class PassengerForm {
    var values: map<Field, string>

    constructor ()
      ensures values == map[]
    {
      values := map[];
    }

    /** Fill `field` with an invalid value, blur, and run the checks of `assertInlineError`. */
    method AssertInlineError(field: Field, invalidValue: string, pattern: Pattern, fieldName: string,
                             obs: ProbeObservation) returns (r: Verdict)
      modifies this
      ensures values == old(values)[field := invalidValue]
      ensures r == InlineErrorVerdict(fieldName, invalidValue, pattern, obs)
    {
      values := values[field := invalidValue];
      r := InlineErrorVerdict(fieldName, invalidValue, pattern, obs);
    }

    /** Fill `field` with a valid value, blur, run the checks of `assertInlineValid`, and on
        success clear the field again. */
    method AssertInlineValid(field: Field, validValue: string, fieldName: string, obs: ProbeObservation)
      returns (r: Verdict)
      modifies this
      ensures r == InlineValidVerdict(fieldName, validValue, obs)
      ensures r.Pass? ==> values == old(values)[field := ""]
      ensures r.Fail? ==> values == old(values)[field := validValue]
    {
      values := values[field := validValue];
      r := InlineValidVerdict(fieldName, validValue, obs);
      if r.Fail? {
        return;
      }
      values := values[field := ""];
      Overwrite(old(values), field, validValue, "");
    }

    /**
     * Three error probes on `field`, stopping at the first failure, then the valid probe;
     * `obs[i]` is what the page shows after the i-th fill. This is the common shape of
     * `validateFirstNameInline`, `validateEmailInline` and `validateMobileInline`.
     */
    method RunInlineScript(field: Field, fieldName: string, v0: string, v1: string, v2: string,
                           valid: string, pattern: Pattern, obs: seq<ProbeObservation>) returns (r: Verdict)
      requires |obs| == 4
      modifies this
      ensures r == ScriptVerdict(ProbeVerdicts(fieldName, [v0, v1, v2], valid, pattern, obs))
      ensures values == old(values)[field :=
        ScriptFinalValue([v0, v1, v2, valid], ProbeVerdicts(fieldName, [v0, v1, v2], valid, pattern, obs))]
    {
      ghost var verdicts := ProbeVerdicts(fieldName, [v0, v1, v2], valid, pattern, obs);
      ScriptOfFour(verdicts, [v0, v1, v2, valid]);
      assert verdicts[0] == InlineErrorVerdict(fieldName, v0, pattern, obs[0]);
      assert verdicts[1] == InlineErrorVerdict(fieldName, v1, pattern, obs[1]);
      assert verdicts[2] == InlineErrorVerdict(fieldName, v2, pattern, obs[2]);
      assert verdicts[3] == InlineValidVerdict(fieldName, valid, obs[3]);
      r := AssertInlineError(field, v0, pattern, fieldName, obs[0]);
      if r.Fail? {
        return;
      }
      r := AssertInlineError(field, v1, pattern, fieldName, obs[1]);
      Overwrite(old(values), field, v0, v1);
      if r.Fail? {
        return;
      }
      r := AssertInlineError(field, v2, pattern, fieldName, obs[2]);
      Overwrite(old(values), field, v1, v2);
      if r.Fail? {
        return;
      }
      r := AssertInlineValid(field, valid, fieldName, obs[3]);
      Overwrite(old(values), field, v2, valid);
      Overwrite(old(values), field, v2, "");
    }

    /** `validateEmailInline` */
    method ValidateEmailInline(obs: seq<ProbeObservation>) returns (r: Verdict)
      requires |obs| == 4
      modifies this
      ensures r == ScriptVerdict(ProbeVerdicts("email", EmailInvalids, EmailValid, EmailInlinePattern, obs))
      ensures r.Pass? ==> values == old(values)[EmailField := ""]
      ensures values == old(values)[EmailField :=
        ScriptFinalValue(EmailInvalids + [EmailValid], ProbeVerdicts("email", EmailInvalids, EmailValid, EmailInlinePattern, obs))]
    {
      assert [EmailInvalids[0], EmailInvalids[1], EmailInvalids[2]] == EmailInvalids;
      r := RunInlineScript(EmailField, "email", EmailInvalids[0], EmailInvalids[1], EmailInvalids[2], EmailValid, EmailInlinePattern, obs);
    }

    /** `validateFirstNameInline` */
    method ValidateFirstNameInline(obs: seq<ProbeObservation>) returns (r: Verdict)
      requires |obs| == 4
      modifies this
      ensures r == ScriptVerdict(ProbeVerdicts("firstName_0", FirstNameInvalids, FirstNameValid, FirstNameInlinePattern, obs))
      ensures r.Pass? ==> values == old(values)[FirstNameField := ""]
      ensures values == old(values)[FirstNameField :=
        ScriptFinalValue(FirstNameInvalids + [FirstNameValid], ProbeVerdicts("firstName_0", FirstNameInvalids, FirstNameValid, FirstNameInlinePattern, obs))]
    {
      assert [FirstNameInvalids[0], FirstNameInvalids[1], FirstNameInvalids[2]] == FirstNameInvalids;
      r := RunInlineScript(FirstNameField, "firstName_0", FirstNameInvalids[0], FirstNameInvalids[1], FirstNameInvalids[2], FirstNameValid, FirstNameInlinePattern, obs);
    }

    /** `validateMobileInline` */
    method ValidateMobileInline(obs: seq<ProbeObservation>) returns (r: Verdict)
      requires |obs| == 4
      modifies this
      ensures r == ScriptVerdict(ProbeVerdicts("mobileNum", MobileInvalids, MobileValid, MobileInlinePattern, obs))
      ensures r.Pass? ==> values == old(values)[MobileField := ""]
      ensures values == old(values)[MobileField :=
        ScriptFinalValue(MobileInvalids + [MobileValid], ProbeVerdicts("mobileNum", MobileInvalids, MobileValid, MobileInlinePattern, obs))]
    {
      assert [MobileInvalids[0], MobileInvalids[1], MobileInvalids[2]] == MobileInvalids;
      r := RunInlineScript(MobileField, "mobileNum", MobileInvalids[0], MobileInvalids[1], MobileInvalids[2], MobileValid, MobileInlinePattern, obs);
    }

    /** `validatePromoCodeInline`: one error probe, then the valid code's checks, after which
        the code stays in the field. */
    method ValidatePromoCodeInline(obs: seq<ProbeObservation>) returns (r: Verdict)
      requires |obs| == 2
      modifies this
      ensures r == PromoCodeScriptVerdict(obs)
      ensures values == old(values)[PromoCodeField :=
        if InlineErrorVerdict("promoCode", PromoCodeInvalid, PromoCodeInlinePattern, obs[0]).Fail?
        then PromoCodeInvalid else ValidPromoCode]
    {
      r := AssertInlineError(PromoCodeField, PromoCodeInvalid, PromoCodeInlinePattern, "promoCode", obs[0]);
      if r.Fail? {
        return;
      }
      values := values[PromoCodeField := ValidPromoCode];
      Overwrite(old(values), PromoCodeField, PromoCodeInvalid, ValidPromoCode);
      r := InlineValidVerdict("promoCode", ValidPromoCode, obs[1]);
    }

    /** Fill the three date-of-birth inputs. */
    method FillDob(day: string, month: string, year: string)
      modifies this
      ensures values == WithDob(old(values), day, month, year)
    {
      values := values[DobDayField := day][DobMonthField := month][DobYearField := year];
    }

    /** `validateDobInline`: two impossible dates must raise the date error, a real date must
        not, and the three inputs are cleared at the end. */
    method ValidateDobInline(obs: seq<DobObservation>) returns (r: Verdict)
      requires |obs| == 3
      modifies this
      ensures r == DobScriptVerdict(obs)
      ensures DobInvalidVerdict(obs[0]).Fail? ==> values == WithDob(old(values), "32", "13", "2000")
      ensures DobInvalidVerdict(obs[0]).Pass? && DobInvalidVerdict(obs[1]).Fail? ==>
        values == WithDob(old(values), "01", "01", "2100")
      ensures DobInvalidVerdict(obs[0]).Pass? && DobInvalidVerdict(obs[1]).Pass? && obs[2].shownError.Some? ==>
        values == WithDob(old(values), "01", "02", "1990")
      ensures r.Pass? ==> values == WithDob(old(values), "", "", "")
    {
      FillDob("32", "13", "2000");
      r := DobInvalidVerdict(obs[0]);
      if r.Fail? {
        return;
      }
      FillDob("01", "01", "2100");
      OverwriteDob(old(values), "32", "13", "2000", "01", "01", "2100");
      r := DobInvalidVerdict(obs[1]);
      if r.Fail? {
        return;
      }
      FillDob("01", "02", "1990");
      OverwriteDob(old(values), "01", "01", "2100", "01", "02", "1990");
      if obs[2].shownError.Some? {
        return Fail(DobShownError(Trim(obs[2].shownError.value)));
      }
      FillDob("", "", "");
      OverwriteDob(old(values), "01", "02", "1990", "", "", "");
      r := Pass;
    }

    /** `validateAddressInline`: a blank street must be rejected, "Main Street" accepted, and the
        field is cleared at the end. */
    method ValidateAddressInline(obs: seq<ProbeObservation>) returns (r: Verdict)
      requires |obs| == 2
      modifies this
      ensures r == AddressScriptVerdict(obs)
      ensures StreetInvalidVerdict(obs[0]).Fail? ==> values == old(values)[Address1Field := StreetInvalidValue]
      ensures StreetInvalidVerdict(obs[0]).Pass? && r.Fail? ==> values == old(values)[Address1Field := StreetValidValue]
      ensures r.Pass? ==> values == old(values)[Address1Field := ""]
    {
      ghost var before := values;
      values := values[Address1Field := StreetInvalidValue];
      r := StreetInvalidVerdict(obs[0]);
      if r.Fail? {
        return;
      }
      values := values[Address1Field := StreetValidValue];
      Overwrite(before, Address1Field, StreetInvalidValue, StreetValidValue);
      r := StreetValidVerdict(obs[1]);
      if r.Fail? {
        return;
      }
      values := values[Address1Field := ""];
      Overwrite(before, Address1Field, StreetValidValue, "");
    }
  }
}
