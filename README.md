# Booking journey model

A Dafny model of the core of a Playwright end-to-end test suite for a travel-booking site.
The suite walks the journey search → results → hotel details → flights → passenger details.
The model covers the part that makes decisions, and proves what those decisions mean:

- **Search form** (`home_page.dfy`, `drop_modal.dfy`). The drop modals pick a random selectable
  item. An item is skipped when its text is blank, when it contains an excluded text, or when it
  is disabled: by its checkbox if it has one, otherwise by a `disabled`/`Disabled` class. The
  form also has the duration select (`<n> nachten`) and the rooms-and-guests configuration,
  which gives every child slot an explicit age or a random one in [0, 18).
- **Results list** (`results_page.dfy`). Reading a hotel tile by index, with its name, price,
  board type and rating clean-ups, the index errors, and the click on the first visible
  discover button.
- **Flights step** (`flights_page.dfy`). The race between the flights list and the error banner,
  then the wait for the "Boek nu" button.
- **Passenger details** (`passenger_page.dfy`, `field_classification.dfy`):
  - the collection of visible field errors;
  - their classification through the ordered field table;
  - `validateFormFields`;
  - the inline probes. Each probe fills a field, blurs it and checks the input's
    `inputs__error` class, the container's `inputs__show` class and the error text against a
    pattern. The probes are composed into the scripts for e-mail, first name, mobile number,
    promo code, date of birth and street.
- **The journey test's hotel-retry loop** (`booking_journey.dfy`). It covers one attempt at the
  hotel at a given index and the required-error check on the empty passenger form. The loop
  moves on to the next hotel after a banner or after flights that do not load. After a throw it
  also moves on, unless that attempt was the last one allowed. It reports one of two exhaustion
  messages.

The browser is never modelled. Everything a page shows is an observation handed in as a datatype:
visibility, texts, `class` attributes, and when a racer appears. An element whose text or
visibility the code waits for is observed as present or absent, and an absent one makes the
wait time out. `Math.random()` is an injected
real in [0, 1). Case-insensitive regular expressions are modelled exactly for the shape every
pattern of the core has: top-level alternatives of literal chains joined by `.*`.

Operations that only compute a verdict or a reading are functions: the probe verdicts,
`GetHotelByIndex`, `GetHotelDetailsByIndex` and `FlightsSelection.WaitForLoaded`. Operations
with a loop or with state are methods. Where a function states the same result, the method is
proved equal to it: the scripts of the passenger form, the required-error check, the attempt
and the retry loop. The modal and search-form methods (`SelectRandomItem`, `Open`, `Save`,
`OpenSelectSave`, `SelectDuration`, `ConfigureRoomsAndGuests`) state their results and new
state directly in their contracts.

Lemmas then state what the results mean. Some examples:

- the loop books the first hotel whose attempt completes, and fails exactly when none does;
- the selection candidates are exactly the selectable items, in order;
- the required-error check passes only when every required field got a matching error that the
  field table assigns to it;
- the second passenger's table entries can never claim an error text.

Where the system's design description and its code differ, the model follows the code:

- A banner on the passenger page throws an error whose message speaks of retrying the entire
  test. The loop's own `catch` catches it like any other throw and moves on to the next hotel,
  counted against the same budget (`EarlyThrowIsRetried`).
- The promo-code script has a single invalid probe. Its valid code stays in the field afterwards.
- A valid probe clears its field only when its checks pass.
- The results page counts every hotel tile, not only visible ones. A negative index has an error
  of its own.
- The error-text waits of the street probe and of the two invalid date-of-birth probes are not
  caught, so a text that does not show fails the probe by timeout. The wait of
  `assertInlineError` is caught and ignored, but its read of the last error span is not: a
  container without a span fails the probe by the driver's action timeout.
- A form passes only when the message of each of the nine required fields matches its pattern.
  Being present is not enough.

## Model

| member | source | states |
|---|---|---|
| Text.Trim | pages/ResultsPage.ts:22 | `trim()`: the result has no white space at either end, is the slice of the input that starts at its first non-space character, and is empty exactly when the input is blank |
| Text.TrimOfTrimmed | pages/ResultsPage.ts:22 | trimming a text that is already trimmed changes nothing |
| Text.ContainsIff | pages/components/DropModalComponent.ts:59 | `includes` finds a needle exactly when the needle occurs at some position of the text |
| Text.DecimalRoundTrip | pages/HomePage.ts:102 | the decimal digits a template literal renders for a number read back as that number |
| Text.Lower | pages/PassengerDetailsPage.ts:321 | the case folding of the `i` flag: same length, each letter A-Z lowered and every other character kept |
| Text.LowerIsIdempotent | pages/PassengerDetailsPage.ts:321 | lower-casing twice is lower-casing once |
| Patterns.LiteralChainIsContains | pages/PassengerDetailsPage.ts:321 | an unanchored one-literal pattern matches exactly where `includes` finds the literal |
| Patterns.LiteralMatchIff | pages/PassengerDetailsPage.ts:321 | a case-insensitive single-literal pattern matches a text exactly when its lower-cased form contains the literal |
| Patterns.MatchesIgnoresCase | pages/PassengerDetailsPage.ts:321 | `Matches`, the `test` of a pattern with the `i` flag, gives the same answer for a text and for its lower-cased form |
| FieldClassification.FirstMatchFrom | pages/PassengerDetailsPage.ts:319-325 | the entry found matches, every earlier entry does not, and nothing is found exactly when no entry matches |
| FieldClassification.Classify | pages/PassengerDetailsPage.ts:288-325 | the field id is "unknown" exactly when no table entry matches; otherwise it is the id of the first entry that matches |
| FieldClassification.SubsumedMatches | pages/PassengerDetailsPage.ts:302-305 | an entry whose patterns all belong to another entry matches only texts that the other entry matches too |
| FieldClassification.ShadowedNeverFirst | pages/PassengerDetailsPage.ts:320-324 | an entry whose patterns all occur in an earlier entry is never the first to match |
| FieldClassification.SecondPassengerEntriesShadowed | pages/PassengerDetailsPage.ts:302-305 | the entries of the second passenger repeat patterns of the first passenger's entries, so no text is claimed by them |
| FieldClassification.SecondPassengerNeverClassified | pages/PassengerDetailsPage.ts:302-305 | no error text is ever classified as `firstName_1`, `lastName_1`, `gender_1` or `dob_1` |
| FieldClassification.LandClaimedByCountryAtTheLatest | pages/PassengerDetailsPage.ts:294 | a text containing "land" in any letter case is claimed by the `country` entry or an earlier one |
| FieldClassification.LandIsNeverPhonecode | pages/PassengerDetailsPage.ts:294-299 | a text containing "land" is never classified as `phonecode` |
| FieldClassification.LandIsCountry | pages/PassengerDetailsPage.ts:294 | a text containing "land" that no earlier entry claims is classified as `country` |
| FieldClassification.PhonecodeOnlyThroughPhoneCode | pages/PassengerDetailsPage.ts:299 | a text classified as `phonecode` matches `/phone.*code/i` and never `/landcode/i`, so the `/landcode/i` pattern never decides |
| PassengerDetails.EntryOf | pages/PassengerDetailsPage.ts:309-330 | an element contributes an error exactly when it is visible with non-blank text; the message is the trimmed text and the field id is its classification |
| PassengerDetails.CollectedErrors | pages/PassengerDetailsPage.ts:308-331 | the errors gathered from the elements in order, at most one per element |
| PassengerDetails.CollectedErrorsAppend | pages/PassengerDetailsPage.ts:308-331 | the errors of a list of elements are the errors of its two parts, in order |
| PassengerDetails.CollectedErrorsSingle | pages/PassengerDetailsPage.ts:308-331 | one element contributes exactly its own entry |
| PassengerDetails.CollectedErrorsWellFormed | pages/PassengerDetailsPage.ts:308-331 | there are no more errors than elements, and every error has a trimmed non-empty message carrying that message's field id |
| PassengerDetails.HiddenElementsIgnored | pages/PassengerDetailsPage.ts:310-312 | hidden elements contribute no error |
| PassengerDetails.GetValidationErrors | pages/PassengerDetailsPage.ts:282-334 | the loop gathers exactly the errors of the visible, non-blank elements, in element order |
| PassengerDetails.AlertMessage | pages/PassengerDetailsPage.ts:117-122 | the alert message is "" once the alert is no longer visible; otherwise it is the trimmed alert text, and the read times out after the default wait when that text never shows |
| PassengerDetails.ValidationTimesOut | pages/PassengerDetailsPage.ts:117-127 | the submit throws when the continue button never shows, or when the alert is visible but its text never shows |
| PassengerDetails.ValidateFormFields | pages/PassengerDetailsPage.ts:337-349 | the step fails by timeout exactly when the continue button is missing or the visible alert's text never shows; otherwise the result has the alert's visibility, the alert message read when the alert is visible and "" when it is not, and the collected errors |
| PassengerDetails.MissingErrorClassText | pages/PassengerDetailsPage.ts:72 | the missing-class message starts with the field name and a colon and ends with the quoted invalid value |
| PassengerDetails.HiddenErrorMessageText | pages/PassengerDetailsPage.ts:76 | the hidden-message message starts with the field name and a colon and ends with the quoted invalid value |
| PassengerDetails.PatternMismatchText | pages/PassengerDetailsPage.ts:81-83 | the pattern-mismatch message starts with the field name, quotes the trimmed error text after "error message ", and ends with the quoted invalid value |
| PassengerDetails.FailureText | pages/PassengerDetailsPage.ts:71-107 | each probe failure rendered as the message the probe raises, a timeout as the driver's timeout message |
| PassengerDetails.InlineErrorVerdict | pages/PassengerDetailsPage.ts:53-85 | the probe passes exactly when the error span exists, the input has `inputs__error`, the container has `inputs__show` and the trimmed text matches; a missing span times out first, and otherwise the first failed check is reported with its own message, in source order |
| PassengerDetails.MissingAndHiddenTextsDiffer | pages/PassengerDetailsPage.ts:71-77 | the missing-class and hidden-message failures have different messages |
| PassengerDetails.MissingAndMismatchTextsDiffer | pages/PassengerDetailsPage.ts:71-84 | the missing-class and pattern-mismatch failures have different messages |
| PassengerDetails.InlineErrorFailuresDistinct | pages/PassengerDetailsPage.ts:71-84 | a missing error class is reported with a message different from both later failures of the probe |
| PassengerDetails.InlineValidVerdict | pages/PassengerDetailsPage.ts:87-111 | the valid probe passes exactly when neither class marker is present; an error class is reported first, and a shown message is reported with its trimmed text, or times out when it has no span |
| PassengerDetails.ProbesExclusive | pages/PassengerDetailsPage.ts:53-111 | no single page state passes both an error probe and a valid probe |
| PassengerDetails.ErrorProbeVerdicts | pages/PassengerDetailsPage.ts:141-143 | one verdict per invalid value, each the error probe's verdict on what the page showed after that fill |
| PassengerDetails.ProbeVerdicts | pages/PassengerDetailsPage.ts:141-144 | the error probes' verdicts followed by the valid probe's verdict |
| PassengerDetails.FirstFailureFrom | pages/PassengerDetailsPage.ts:137-145 | the position found fails and everything before it passes; nothing is found exactly when every verdict passes |
| PassengerDetails.FirstFailureIsUnique | pages/PassengerDetailsPage.ts:137-145 | a failing probe preceded only by passing ones is the one the script reports |
| PassengerDetails.ScriptVerdict | pages/PassengerDetailsPage.ts:137-145 | a script passes exactly when every probe in it passes |
| PassengerDetails.ScriptFinalValue | pages/PassengerDetailsPage.ts:137-145 | a script in which every probe passes leaves its field empty; a failing script leaves the value of the probe whose failure it reports, which every earlier probe passed |
| PassengerDetails.ScriptOfFour | pages/PassengerDetailsPage.ts:137-145 | a four-probe script reports its first failure in order, and its field keeps the value of that probe (empty when all pass) |
| PassengerDetails.StreetInvalidVerdict | pages/PassengerDetailsPage.ts:239-259 | the blank-street probe passes exactly when both class markers are present and the error text shows and matches; a missing class, a hidden container, a text that never shows (timeout) and a mismatch are each reported as such, in source order |
| PassengerDetails.StreetProbeAgreesWithInlineError | pages/PassengerDetailsPage.ts:239-259 | once its text shows, the street probe accepts exactly what `assertInlineError` would |
| PassengerDetails.StreetValidVerdict | pages/PassengerDetailsPage.ts:261-275 | the "Main Street" probe passes exactly when the generic valid probe would; an error class is reported first, and a shown error with its trimmed text, or a timeout when it has no span |
| PassengerDetails.DobInvalidVerdict | pages/PassengerDetailsPage.ts:195-204 | an impossible date passes exactly when the date error shows and matches; an error that never shows fails by timeout, and one that does not match is reported with its trimmed text |
| PassengerDetails.PromoCodeScriptVerdict | pages/PassengerDetailsPage.ts:165-190 | the promo-code script passes exactly when its error probe and the valid code's checks pass; a failing error probe is the one reported, and after a passing one the verdict is that of the valid code's checks |
| PassengerDetails.DobScriptVerdict | pages/PassengerDetailsPage.ts:192-228 | the date-of-birth script passes exactly when both impossible dates raise a matching error and the real date raises none; it reports the first failure, and an error shown for the real date with its trimmed text |
| PassengerDetails.AddressScriptVerdict | pages/PassengerDetailsPage.ts:236-275 | the street script passes exactly when both street probes pass; a failing first probe is the one reported, and after a passing one the verdict is that of the "Main Street" probe |
| PassengerDetails.PassengerForm.AssertInlineError | pages/PassengerDetailsPage.ts:53-85 | the field holds the invalid value, and the verdict is that of the error probe |
| PassengerDetails.PassengerForm.AssertInlineValid | pages/PassengerDetailsPage.ts:87-111 | the verdict is that of the valid probe; the field is cleared when it passes and keeps the valid value when it fails |
| PassengerDetails.PassengerForm.RunInlineScript | pages/PassengerDetailsPage.ts:137-163 | three error probes and a valid probe run until the first failure; the verdict is the script's, and the field holds the value of the failing probe, or is empty |
| PassengerDetails.PassengerForm.ValidateEmailInline | pages/PassengerDetailsPage.ts:147-154 | the e-mail script's verdict on its three invalid values and its valid one; the field holds the value of the failing probe, or is empty when it passes |
| PassengerDetails.PassengerForm.ValidateFirstNameInline | pages/PassengerDetailsPage.ts:137-145 | the first-name script's verdict; the field holds the value of the failing probe, or is empty when it passes |
| PassengerDetails.PassengerForm.ValidateMobileInline | pages/PassengerDetailsPage.ts:156-163 | the mobile-number script's verdict; the field holds the value of the failing probe, or is empty when it passes |
| PassengerDetails.PassengerForm.ValidatePromoCodeInline | pages/PassengerDetailsPage.ts:165-190 | the promo-code script's verdict; the field keeps the invalid code if the error probe fails, and the valid code otherwise |
| PassengerDetails.WithDob | pages/PassengerDetailsPage.ts:195-198 | the date inputs hold the given day, month and year, and every other field keeps its value |
| PassengerDetails.OverwriteDob | pages/PassengerDetailsPage.ts:195-219 | filling the date twice leaves only the second date |
| PassengerDetails.PassengerForm.FillDob | pages/PassengerDetailsPage.ts:195-198 | the three date inputs hold the given day, month and year, and nothing else changes |
| PassengerDetails.PassengerForm.ValidateDobInline | pages/PassengerDetailsPage.ts:192-234 | the date-of-birth script's verdict; the three date inputs hold the date whose probe failed (32/13/2000, 01/01/2100 or 01/02/1990), or are empty when it passes |
| PassengerDetails.PassengerForm.ValidateAddressInline | pages/PassengerDetailsPage.ts:236-279 | the street script's verdict; the street keeps the blank value, or "Main Street", when the respective probe fails, and is empty when it passes |
| ResultsPage.ReadText | pages/ResultsPage.ts:21 | a read succeeds exactly when the element is present, with its text, and otherwise times out after the action timeout |
| ResultsPage.NameText | pages/ResultsPage.ts:19-23 | the name is the trimmed text, and empty exactly when the text is blank |
| ResultsPage.NameTextIdempotent | pages/ResultsPage.ts:19-23 | reading a name a second time changes nothing |
| ResultsPage.PriceText | pages/ResultsPage.ts:38-42 | the price is the currency directly followed by the value, with no separator |
| ResultsPage.RemoveParens | pages/ResultsPage.ts:47 | the result has no parentheses, is no longer than the input, and has the input's length exactly when the input has none |
| ResultsPage.RemoveParensOfParenFree | pages/ResultsPage.ts:47 | removing parentheses from a text without any leaves it unchanged |
| ResultsPage.RemoveParensAppend | pages/ResultsPage.ts:47 | removing parentheses from a concatenation works part by part |
| ResultsPage.BoardTypeText | pages/ResultsPage.ts:44-48 | the board type is trimmed and has no parentheses; it is the text with its parentheses removed, then trimmed |
| ResultsPage.BoardTypeIdempotent | pages/ResultsPage.ts:44-48 | reading a board type a second time changes nothing |
| ResultsPage.GetHotelByIndex | pages/ResultsPage.ts:56-70 | a tile comes back exactly when the first tile shows and the index lies inside the list, which counts hidden tiles too; an empty list or a hidden first tile times out after the default wait, and an index past the end and a negative index each raise their own error |
| ResultsPage.OutOfRangeNamesBoth | pages/ResultsPage.ts:60-62 | the out-of-range message names both the requested index and the number of hotels |
| ResultsPage.IndexErrorsDistinct | pages/ResultsPage.ts:60-67 | the out-of-range and undefined-entry errors can never be confused |
| ResultsPage.OutOfRangeError | pages/ResultsPage.ts:61 | the out-of-range message carries the requested index right after "Hotel index " |
| ResultsPage.UndefinedHotelError | pages/ResultsPage.ts:66 | the undefined-entry message carries the requested index right after "Hotel at index " |
| ResultsPage.GetHotelDetailsByIndex | pages/ResultsPage.ts:72-81 | the details exist exactly when the tile does and has all four elements; they carry the requested index and the name, price, board type and rating read from that tile; otherwise the tile's error, or a timeout for a missing element |
| ResultsPage.DetailsAreClean | pages/ResultsPage.ts:72-81 | the name and board type of the details are trimmed, and the board type has no parentheses |
| ResultsPage.ClickDiscoverButton | pages/ResultsPage.ts:25-36 | the button clicked is visible and every earlier one is hidden; the error is raised exactly when no button is visible |
| ResultsPage.SelectHotelByIndex | pages/ResultsPage.ts:83-91 | selection succeeds exactly when the list loads, the tile exists, has a name and has a visible button; a list that does not load or a missing name times out; it returns the tile's trimmed name, the same one the details read |
| FlightsSelection.RaceWinner | pages/FlightsSelectionPage.ts:17-24 | the winner appeared before the timeout and no later than its rival (the flights list on a tie); there is no winner exactly when neither appeared in time |
| FlightsSelection.WaitForLoaded | pages/FlightsSelectionPage.ts:12-31 | a document that does not reach `domcontentloaded` in time times out after the 30000 ms navigation timeout, before the race; a race without a winner fails; a banner after the race returns without waiting for the button; otherwise the page is ready exactly when the button appears, and times out if it does not |
| FlightsSelection.OutcomeIgnoresWinner | pages/FlightsSelectionPage.ts:13-31 | once the document has loaded, which racer wins does not affect the outcome |
| FlightsSelection.SignalAtTimeoutIsTooLate | pages/FlightsSelectionPage.ts:15-24 | a signal at exactly the timeout is too late for either racer |
| DropModal.IsExcluded | pages/components/DropModalComponent.ts:59-61 | an item is excluded when some excluded text occurs in its trimmed text |
| DropModal.MarkedDisabled | pages/components/DropModalComponent.ts:69-72 | an item without a checkbox is disabled when its class attribute contains `disabled` or `Disabled` |
| DropModal.IsEnabled | pages/components/DropModalComponent.ts:63-73 | a checkbox decides by its own disabled state; without one the class attribute decides |
| DropModal.Selectable | pages/components/DropModalComponent.ts:56-73 | an item is selectable when its trimmed text is non-empty, not excluded, and the item is enabled |
| DropModal.Candidates | pages/components/DropModalComponent.ts:53-76 | the candidates of the selection loop, in item order, no more than there are items |
| DropModal.CandidatesAreSound | pages/components/DropModalComponent.ts:53-76 | every candidate is a selectable item and carries that item's index and trimmed text |
| DropModal.CandidatesAreOrdered | pages/components/DropModalComponent.ts:53-76 | the candidates keep the items' order |
| DropModal.CandidatesAreComplete | pages/components/DropModalComponent.ts:53-76 | every selectable item is among the candidates |
| DropModal.CandidatesCharacterized | pages/components/DropModalComponent.ts:53-76 | the candidates are exactly the selectable items, each with its own index and trimmed text, in order |
| DropModal.NoCandidatesIff | pages/components/DropModalComponent.ts:53-80 | nothing is left to choose from exactly when no item is selectable |
| DropModal.CollectCandidates | pages/components/DropModalComponent.ts:53-76 | the loop collects exactly the candidates of the items |
| DropModal.RandomIndex | pages/components/DropModalComponent.ts:82 | `Math.floor(Math.random() * n)` lies in [0, n) |
| DropModal.DropModalComponent.constructor | pages/components/DropModalComponent.ts:13-26 | a new modal has the given trigger and items, is hidden, and has clicked nothing |
| DropModal.DropModalComponent.Open | pages/components/DropModalComponent.ts:28-34 | without a trigger, opening raises its error and changes nothing; otherwise the modal is shown exactly when it appears in time, and times out if it does not |
| DropModal.DropModalComponent.Save | pages/components/DropModalComponent.ts:36-39 | saving succeeds and hides the modal exactly when it hides in time, and otherwise times out |
| DropModal.DropModalComponent.SelectRandomItem | pages/components/DropModalComponent.ts:45-86 | a hidden modal times out; with no candidates the no-selectable-items error is raised; otherwise it succeeds, the candidate picked by the random draw is clicked, and it is a selectable item whose trimmed text is returned |
| DropModal.CheckboxOverridesClass | pages/components/DropModalComponent.ts:63-73 | for an item with a checkbox the class attribute plays no part |
| DropModal.ClassMarkerIsCaseSensitive | pages/components/DropModalComponent.ts:69-72 | an item without a checkbox whose class reads `DISABLED` stays selectable |
| HomePage.DurationLabelRoundTrip | pages/HomePage.ts:101-103 | the label built for a number of nights reads back as that number |
| HomePage.DurationLabel | pages/HomePage.ts:102 | the label asked for is the decimal rendering of the number of nights followed by " nachten" |
| HomePage.ChildAge | pages/HomePage.ts:127 | a child's age is the explicit age when one is given, otherwise in [0, 18) |
| HomePage.OpenSelectSave | pages/HomePage.ts:87-92 | it succeeds exactly when the modal has a trigger, appears, has a candidate and hides; a missing trigger, a modal that does not appear or does not hide and an empty candidate list each give their own error; the modal's new visibility and clicks are stated for every outcome: the candidate the random draw picks is appended to the earlier clicks whenever there is one, a timed-out save leaves the modal shown, and a success hides it |
| HomePage.SearchForm.SelectRandomDepartureAirport | pages/HomePage.ts:78-85 | it succeeds exactly when the airport modal opens, has an airport other than "Alle luchthavens" and closes; the airport picked is non-empty, never contains "Alle luchthavens", and is the text of the one item clicked; the error and the modal's new visibility and clicks are those `OpenSelectSaveOutcome` gives for every outcome |
| HomePage.SearchForm.SelectRandomDestination | pages/HomePage.ts:87-92 | it succeeds exactly when the destination modal opens, has a selectable item and closes; the destination picked is non-empty and is the text of the one selectable item clicked; the error and the modal's new visibility and clicks are those `OpenSelectSaveOutcome` gives for every outcome |
| HomePage.SearchForm.SelectRandomDepartureDate | pages/HomePage.ts:94-99 | it succeeds exactly when the date modal opens, has a selectable item and closes; the date picked is non-empty and is the text of the one selectable item clicked; the error and the modal's new visibility and clicks are those `OpenSelectSaveOutcome` gives for every outcome |
| HomePage.SearchForm.SelectDuration | pages/HomePage.ts:101-103 | the duration is set exactly when the select offers `<n> nachten`; otherwise the select times out and nothing changes |
| HomePage.SearchForm.ConfigureRoomsAndGuests | pages/HomePage.ts:109-141 | it succeeds exactly when the modal opens and closes and children have an age select; a missing trigger, a modal that does not appear or does not hide, and children without an age select (the wait of line 118) each give their own error; once the modal opens, adults and children are set and each child slot that has an age select gets the explicit age or one in [0, 18), and the other selects keep their value; the modal's visibility is stated for every outcome; the result is the first child's age, or 0 without children; a modal that does not open changes nothing |
| BookingJourney.ErrorMap | tests/e2e/booking-journey.spec.ts:129-132 | the map has a key exactly for each field id that some error carries |
| BookingJourney.ErrorMapLastWins | tests/e2e/booking-journey.spec.ts:129-132 | the message kept for a field is that of its last error |
| BookingJourney.ErrorMapMessagesComeFromErrors | tests/e2e/booking-journey.spec.ts:129-132 | every message in the map is the message of some error for that field |
| BookingJourney.BuildErrorMap | tests/e2e/booking-journey.spec.ts:129-132 | setting every error in order builds exactly that map |
| BookingJourney.RequiredVerdictFrom | tests/e2e/booking-journey.spec.ts:146-153 | the check passes exactly when every required field has a non-empty message matching its pattern; otherwise it names the first field that fails, as missing or as unmatched |
| BookingJourney.RequiredVerdict | tests/e2e/booking-journey.spec.ts:134-153 | the required-error check over the nine fields of the test; a failure names a field, as missing or as unmatched |
| BookingJourney.CheckRequiredErrors | tests/e2e/booking-journey.spec.ts:134-153 | the loop over the nine required errors reports exactly the first failed expectation |
| BookingJourney.CollectedMessagesNonEmpty | tests/e2e/booking-journey.spec.ts:147-148 | a field that received a collected error never fails the first expectation |
| BookingJourney.RequiredCheckPassed | tests/e2e/booking-journey.spec.ts:146-153 | a passing check means every required field received, from a visible error element, a message that matches its pattern and that the field table assigns to that field |
| BookingJourney.InlineChecksVerdict | tests/e2e/booking-journey.spec.ts:112-119 | the inline step passes exactly when all six probe scripts pass |
| BookingJourney.FormStepVerdict | tests/e2e/booking-journey.spec.ts:121-153 | the form step passes exactly when the submit and the alert read do not time out, the alert is visible and the required check passes; a timeout or a missing alert is reported as such |
| BookingJourney.FormFailureText | tests/e2e/booking-journey.spec.ts:124-152 | the message of each failed expectation, naming the field id where the test does, and the driver's timeout message for a timed-out submit |
| BookingJourney.AttemptErrorText | tests/e2e/booking-journey.spec.ts:68-160 | what an attempt that throws raises: a step's own message, the passenger banner's message, or the message of the failed probe or expectation |
| BookingJourney.AttemptOutcomeGiven | tests/e2e/booking-journey.spec.ts:68-160 | the loop body's steps in order; a completed attempt had its details read, its probes and form check passed, and carries those details; a details banner or flights that failed move on |
| BookingJourney.AttemptOutcomeOf | tests/e2e/booking-journey.spec.ts:68-160 | the loop body on what the browser shows, with the details, probe verdicts and form verdict computed from it |
| BookingJourney.AttemptOutcomeMeaning | tests/e2e/booking-journey.spec.ts:68-156 | an attempt completes exactly when every step gets through, and then carries the details read for its hotel; it moves on only because of a details banner, or flights that showed a banner or did not load |
| BookingJourney.PassengerBannerNeverCompletes | tests/e2e/booking-journey.spec.ts:107-110 | a passenger-page banner never lets an attempt complete, whatever the probes and the form show |
| BookingJourney.RunInlineChecks | tests/e2e/booking-journey.spec.ts:112-119 | running the six scripts on a fresh form gives the inline step's verdict |
| BookingJourney.RunFormStep | tests/e2e/booking-journey.spec.ts:121-153 | submitting, checking the alert, building the map and checking the required errors gives the form step's verdict |
| BookingJourney.RunAttempt | tests/e2e/booking-journey.spec.ts:68-160 | one pass of the loop body ends exactly as the attempt's outcome says |
| BookingJourney.AttemptsExhaustedError | tests/e2e/booking-journey.spec.ts:166 | the message starts with "Failed to complete booking after " and names the retry limit right after it |
| BookingJourney.HotelsExhaustedError | tests/e2e/booking-journey.spec.ts:174 | the message starts with "Failed to complete booking after " and names the retry limit after "trying " |
| BookingJourney.ExhaustedErrorsDistinct | tests/e2e/booking-journey.spec.ts:162-175 | the two exhaustion messages can never be confused |
| BookingJourney.RetryFrom | tests/e2e/booking-journey.spec.ts:67-175 | the while loop and its catch from a hotel index on: a booking is at an allowed index at or after it whose attempt completed, with that attempt's details, and a failure carries one of the two exhaustion messages |
| BookingJourney.Journey | tests/e2e/booking-journey.spec.ts:60-175 | the loop from the first hotel: a booking is at an allowed index whose attempt completed, with its details |
| BookingJourney.BookedIffFirstCompleted | tests/e2e/booking-journey.spec.ts:67-160 | the loop books a hotel exactly when its attempt is the first allowed one to complete, and books it with that attempt's details and index |
| BookingJourney.FailedIffNoneCompleted | tests/e2e/booking-journey.spec.ts:67-175 | the loop fails exactly when no allowed attempt completes |
| BookingJourney.FailureMessage | tests/e2e/booking-journey.spec.ts:162-175 | a failed loop throws the attempts-exhausted message when the last allowed attempt threw, and the hotels-exhausted message otherwise |
| BookingJourney.EarlyThrowIsRetried | tests/e2e/booking-journey.spec.ts:162-170 | a throw before the last allowed attempt, including the passenger-page banner's, is handled like an unavailable hotel |
| BookingJourney.MoreRetriesKeepBooking | tests/e2e/booking-journey.spec.ts:63-67 | allowing more attempts never loses a booking the loop makes |
| BookingJourney.RetryTurn | tests/e2e/booking-journey.spec.ts:68-170 | a turn that ends the loop returns the loop's result from that index on; otherwise the loop's result is that of the next index |
| BookingJourney.RetryLoop | tests/e2e/booking-journey.spec.ts:60-175 | the loop's result is the journey's result over the attempts' outcomes, and it makes exactly the attempts up to the booked one, or all those allowed |
| BookingJourney.HotelRetryLoop | tests/e2e/booking-journey.spec.ts:60-175 | the loop run on what the browser shows gives the journey's result for those attempts, with the same attempt count |

## Left out

- Browser I/O: every wait, read and click is an observation passed in. This covers visibility,
  texts, `class` attributes, the moment a flights racer appears, and whether a wait finished in
  time. Not every implicit wait of the driver is observed: the `getAttribute('class')` reads of
  the probes assume that the input and its error container exist, and the clicks assume that
  their target is there once the code's own wait has passed.
- Timeout messages: a timed-out wait raises `Timeout <ms>ms exceeded.`. The driver puts the name
  of the call in front (for example `locator.waitFor: `) and adds the locator call log; both are
  left out. A failed expectation raises its custom message, without the matcher
  details.
- Steps outside this core are modelled as the error they may throw. These are the navigation
  and search before the loop, the reload of the results page, `HotelDetailsPage.waitForLoaded`
  and `clickVerder`, `clickBoekNu` and the passenger page's `waitForLoaded`. The hotel-details
  page is not part of this model.
- `maxHotelRetries` is a parameter: the test configuration that sets it is not part of this
  model.
- The test framework's own retry of the whole test, `test.step` names and `console.log` output
  are left out.
- Case folding is ASCII only. JavaScript's Unicode case folding for the `i` flag is not modelled.
- Regular expressions are modelled only for the literal-chain shape. Every pattern in the core
  has that shape.
- `Math.random()` is an injected real. Its uniformity is not modelled.
- Strict-mode locator errors are left out. A locator that resolves to several elements throws in
  the driver. This affects the `span` read of `assertInlineValid`, which the model reads as the
  same single error text the other probes read through `.last()`.
- The caught waits of the probes are left out. They wait for the error to show or hide, do not
  change the outcome, and are modelled only through the final observation. The same goes for
  the `attached` wait of `selectRandomItem`.
- The page's own validation logic is not modelled: which messages it shows for which values is
  an observation.
- HomePage.SearchForm.ConfigureRoomsAndGuests: the adults and children selects are taken to
  accept every count. The timeout of a select that lacks the requested option is not modelled.

