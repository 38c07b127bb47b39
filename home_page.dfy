/**
 * The search form of the home page (pages/HomePage.ts): random airport, destination and date
 * through drop modals, the duration select, and the rooms-and-guests configuration.
 */
module HomePage {
  import opened Wrappers
  import opened Text
  import opened Domain
  import opened DropModal

  /** The airport modal's catch-all entry, never a valid pick. */
  const AllAirports := "Alle luchthavens"
  const NachtenSuffix := " nachten"
  /** Random child ages are drawn from [0, ChildAgeBound). */
  const ChildAgeBound: nat := 18

  /** The option label `selectDuration` asks for. */
  function DurationLabel(nights: int): (r: string)
    ensures |r| > |NachtenSuffix| && r[|r| - |NachtenSuffix|..] == NachtenSuffix
    ensures r[..|r| - |NachtenSuffix|] == IntToString(nights)
  {
    IntToString(nights) + NachtenSuffix
  }

  /** The number of nights a label of the form `<digits> nachten` stands for. */
  function NightsOf(optionLabel: string): Option<nat> {
    var n := |optionLabel| - |NachtenSuffix|;
    if n > 0 && optionLabel[n..] == NachtenSuffix && forall i :: 0 <= i < n ==> IsDigit(optionLabel[i])
    then Some(DecimalValue(optionLabel[..n]))
    else None
  }

  /** The label built for a number of nights reads back as that number. */
  lemma DurationLabelRoundTrip(nights: nat)
    ensures NightsOf(DurationLabel(nights)) == Some(nights)
  {
    var digits := NatToString(nights);
    var optionLabel := DurationLabel(nights);
    assert optionLabel[..|digits|] == digits && optionLabel[|digits|..] == NachtenSuffix;
    DecimalRoundTrip(nights);
  }

  /** The age set on one child slot: the explicit age, or `Math.floor(Math.random() * 18)`. */
  function ChildAge(childAge: Option<int>, rand: real): (age: int)
    requires 0.0 <= rand < 1.0
    ensures childAge.Some? ==> age == childAge.value
    ensures childAge.None? ==> 0 <= age < ChildAgeBound
  {
    match childAge
    case Some(a) => a
    case None => RandomIndex(rand, ChildAgeBound)
  }

  /**
   * The result of `OpenSelectSave` and the modal's new state, given its visibility and clicks
   * before: each failing stage leaves its own error and the state it reached, and a modal with
   * candidates gets exactly the click the random draw picks, whether or not the save succeeds.
   */
  predicate OpenSelectSaveOutcome(modal: DropModalComponent, excludeTexts: seq<string>, appears: bool, hides: bool,
                                  rand: real, visibleBefore: bool, clickedBefore: seq<nat>, r: Result<string>)
    requires 0.0 <= rand < 1.0
    reads modal
  {
    var c := Candidates(modal.items, excludeTexts);
    if !modal.hasTrigger then
      r == Err(NoTriggerError) && modal.visible == visibleBefore && modal.clicked == clickedBefore
    else if !appears then
      r == Err(TimeoutError(ModalTimeout)) && !modal.visible && modal.clicked == clickedBefore
    else if c == [] then
      r == Err(NoSelectableItemsError) && modal.visible && modal.clicked == clickedBefore
    else
      var picked := c[RandomIndex(rand, |c|)];
      && modal.clicked == clickedBefore + [picked.index]
      && modal.visible == !hides
      && r == if hides then Ok(picked.text) else Err(TimeoutError(ModalTimeout))
  }

  /** Open a modal, click a random selectable item, save; the text of the item is the result. */
  method OpenSelectSave(modal: DropModalComponent, excludeTexts: seq<string>, appears: bool, hides: bool, rand: real)
    returns (r: Result<string>)
    requires 0.0 <= rand < 1.0
    modifies modal
    ensures r.Ok? ==>
      && |modal.clicked| == |old(modal.clicked)| + 1
      && var i := modal.clicked[|modal.clicked| - 1];
      i < |modal.items| && Selectable(modal.items[i], excludeTexts) && r.value == ItemText(modal.items[i])
    ensures !modal.hasTrigger ==> r == Err(NoTriggerError) && modal.clicked == old(modal.clicked)
    ensures modal.hasTrigger && !appears ==> r == Err(TimeoutError(ModalTimeout))
    ensures modal.hasTrigger && appears && Candidates(modal.items, excludeTexts) == [] ==>
      r == Err(NoSelectableItemsError)
    ensures modal.hasTrigger && appears && Candidates(modal.items, excludeTexts) != [] && !hides ==>
      r == Err(TimeoutError(ModalTimeout))
    ensures r.Ok? <==> modal.hasTrigger && appears && hides && Candidates(modal.items, excludeTexts) != []
    ensures r.Ok? ==> !modal.visible && modal.clicked[..|old(modal.clicked)|] == old(modal.clicked)
    ensures OpenSelectSaveOutcome(modal, excludeTexts, appears, hides, rand, old(modal.visible), old(modal.clicked), r)
  {
    var openResult := modal.Open(appears);
    if openResult.Err? {
      return Err(openResult.message);
    }
    var picked := modal.SelectRandomItem(excludeTexts, rand);
    if picked.Err? {
      return Err(picked.message);
    }
    var saved := modal.Save(hides);
    if saved.Err? {
      return Err(saved.message);
    }
    r := Ok(picked.value);
  }

  class SearchForm {
    const airportModal: DropModalComponent
    const destinationModal: DropModalComponent
    const dateModal: DropModalComponent
    const roomsGuestsModal: DropModalComponent
    /** The labels the duration select offers. */
    const durationOptions: seq<string>
    /** The selected duration label, once one was selected. */
    var durationLabel: Option<string>
    /** The values of the adults and children selects. */
    var adults: int
    var children: int
    /** The values of the child-age selects, in document order. */
    const childAgeSelects: array<int>

    constructor (airportModal: DropModalComponent, destinationModal: DropModalComponent,
                 dateModal: DropModalComponent, roomsGuestsModal: DropModalComponent,
                 durationOptions: seq<string>, childAgeSelects: array<int>)
      ensures this.airportModal == airportModal && this.destinationModal == destinationModal
      ensures this.dateModal == dateModal && this.roomsGuestsModal == roomsGuestsModal
      ensures this.durationOptions == durationOptions && this.childAgeSelects == childAgeSelects
      ensures durationLabel == None
    {
      this.airportModal := airportModal;
      this.destinationModal := destinationModal;
      this.dateModal := dateModal;
      this.roomsGuestsModal := roomsGuestsModal;
      this.durationOptions := durationOptions;
      this.childAgeSelects := childAgeSelects;
      durationLabel := None;
      adults := 0;
      children := 0;
    }

    /** A random departure airport other than the catch-all entry. */
    method SelectRandomDepartureAirport(appears: bool, hides: bool, rand: real) returns (r: Result<string>)
      requires 0.0 <= rand < 1.0
      modifies airportModal
      ensures r.Ok? <==>
        airportModal.hasTrigger && appears && hides && Candidates(airportModal.items, [AllAirports]) != []
      ensures r.Ok? ==> r.value != "" && !Contains(r.value, AllAirports)
      ensures r.Ok? ==>
        |airportModal.clicked| > 0 &&
        var i := airportModal.clicked[|airportModal.clicked| - 1];
        i < |airportModal.items| && r.value == ItemText(airportModal.items[i])
      ensures r.Ok? ==> !airportModal.visible && |airportModal.clicked| == |old(airportModal.clicked)| + 1
      ensures OpenSelectSaveOutcome(airportModal, [AllAirports], appears, hides, rand,
        old(airportModal.visible), old(airportModal.clicked), r)
    {
      r := OpenSelectSave(airportModal, [AllAirports], appears, hides, rand);
      if r.Ok? {
        var i := airportModal.clicked[|airportModal.clicked| - 1];
        assert !IsExcluded(ItemText(airportModal.items[i]), [AllAirports]);
        assert [AllAirports][0] == AllAirports;
      }
    }

    method SelectRandomDestination(appears: bool, hides: bool, rand: real) returns (r: Result<string>)
      requires 0.0 <= rand < 1.0
      modifies destinationModal
      ensures r.Ok? <==> destinationModal.hasTrigger && appears && hides && Candidates(destinationModal.items, []) != []
      ensures r.Ok? ==> r.value != ""
      ensures r.Ok? ==>
        |destinationModal.clicked| > 0 &&
        var i := destinationModal.clicked[|destinationModal.clicked| - 1];
        i < |destinationModal.items| && Selectable(destinationModal.items[i], [])
        && r.value == ItemText(destinationModal.items[i])
      ensures r.Ok? ==> !destinationModal.visible && |destinationModal.clicked| == |old(destinationModal.clicked)| + 1
      ensures OpenSelectSaveOutcome(destinationModal, [], appears, hides, rand, old(destinationModal.visible), old(destinationModal.clicked), r)
    {
      r := OpenSelectSave(destinationModal, [], appears, hides, rand);
    }

    method SelectRandomDepartureDate(appears: bool, hides: bool, rand: real) returns (r: Result<string>)
      requires 0.0 <= rand < 1.0
      modifies dateModal
      ensures r.Ok? <==> dateModal.hasTrigger && appears && hides && Candidates(dateModal.items, []) != []
      ensures r.Ok? ==> r.value != ""
      ensures r.Ok? ==>
        |dateModal.clicked| > 0 &&
        var i := dateModal.clicked[|dateModal.clicked| - 1];
        i < |dateModal.items| && Selectable(dateModal.items[i], [])
        && r.value == ItemText(dateModal.items[i])
      ensures r.Ok? ==> !dateModal.visible && |dateModal.clicked| == |old(dateModal.clicked)| + 1
      ensures OpenSelectSaveOutcome(dateModal, [], appears, hides, rand, old(dateModal.visible), old(dateModal.clicked), r)
    {
      r := OpenSelectSave(dateModal, [], appears, hides, rand);
    }

    /** Select the option labelled `<nights> nachten`; the select throws when it has no such option. */
    method SelectDuration(nights: int) returns (r: Result<()>)
      modifies this`durationLabel
      ensures r.Ok? <==> DurationLabel(nights) in durationOptions
      ensures r.Ok? ==> durationLabel == Some(DurationLabel(nights))
      ensures r.Err? ==> durationLabel == old(durationLabel) && r.message == TimeoutError(ActionTimeout)
    {
      var wanted := DurationLabel(nights);
      if wanted in durationOptions {
        durationLabel := Some(wanted);
        r := Ok(());
      } else {
        r := Err(TimeoutError(ActionTimeout));
      }
    }

    /**
     * Set the adults and children selects and give each child slot an age, explicit or drawn
     * from `rands[i]`; return the first child's age, or 0 without children. Children beyond the
     * rendered age selects get no age.
     */
    method ConfigureRoomsAndGuests(
      adultCount: int, childCount: int, childAge: Option<int>,
      appears: bool, hides: bool, rands: seq<real>)
      returns (r: Result<int>)
      requires childCount <= |rands|
      requires forall k :: 0 <= k < |rands| ==> 0.0 <= rands[k] < 1.0
      modifies this`adults, this`children, childAgeSelects, roomsGuestsModal`visible
      ensures roomsGuestsModal.hasTrigger && appears ==> adults == adultCount && children == childCount
      ensures roomsGuestsModal.hasTrigger && appears ==> forall j :: 0 <= j < childAgeSelects.Length ==>
        childAgeSelects[j] == if j < childCount then ChildAge(childAge, rands[j]) else old(childAgeSelects[j])
      ensures r.Ok? ==> r.value == if childCount > 0 && childAgeSelects.Length > 0 then childAgeSelects[0] else 0
      ensures r.Ok? ==> forall j :: 0 <= j < childAgeSelects.Length && j < childCount ==>
        (childAge.Some? ==> childAgeSelects[j] == childAge.value)
        && (childAge.None? ==> 0 <= childAgeSelects[j] < ChildAgeBound)
      ensures childCount <= 0 ==> childAgeSelects[..] == old(childAgeSelects[..])
      ensures roomsGuestsModal.hasTrigger && appears && childCount > 0 && childAgeSelects.Length == 0 ==>
        r == Err(TimeoutError(DefaultTimeout))
      ensures !roomsGuestsModal.hasTrigger ==> r == Err(NoTriggerError)
      ensures roomsGuestsModal.hasTrigger && !appears ==> r == Err(TimeoutError(ModalTimeout))
      ensures roomsGuestsModal.hasTrigger && appears && (childCount <= 0 || childAgeSelects.Length > 0) && !hides ==>
        r == Err(TimeoutError(ModalTimeout))
      ensures roomsGuestsModal.visible ==
        if !roomsGuestsModal.hasTrigger then old(roomsGuestsModal.visible)
        else appears && !(hides && (childCount <= 0 || childAgeSelects.Length > 0))
      ensures r.Ok? <==>
        roomsGuestsModal.hasTrigger && appears && hides && (childCount <= 0 || childAgeSelects.Length > 0)
      ensures !(roomsGuestsModal.hasTrigger && appears) ==>
        adults == old(adults) && children == old(children) && childAgeSelects[..] == old(childAgeSelects[..])
    {
      var openResult := roomsGuestsModal.Open(appears);
      if openResult.Err? {
        return Err(openResult.message);
      }
      adults := adultCount;
      children := childCount;
      var selectedAge := 0;
      if childCount > 0 {
        if childAgeSelects.Length == 0 {
          return Err(TimeoutError(DefaultTimeout));
        }
        for i := 0 to childCount
          invariant forall j :: 0 <= j < childAgeSelects.Length ==>
            childAgeSelects[j] == if j < i then ChildAge(childAge, rands[j]) else old(childAgeSelects[j])
          invariant selectedAge == if i > 0 then childAgeSelects[0] else 0
          invariant adults == adultCount && children == childCount
          invariant roomsGuestsModal.visible
        {
          if i < childAgeSelects.Length {
            var age := ChildAge(childAge, rands[i]);
            childAgeSelects[i] := age;
            if i == 0 {
              selectedAge := age;
            }
          }
        }
      }
      var saved := roomsGuestsModal.Save(hides);
      if saved.Err? {
        return Err(saved.message);
      }
      r := Ok(selectedAge);
    }
  }
}
