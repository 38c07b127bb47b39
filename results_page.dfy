/**
 * The search-results list (pages/ResultsPage.ts): reading a hotel tile by index, the text
 * clean-up of its name, price, board type and rating, and the click on its first visible
 * "ONTDEK" (discover) button.
 */
module ResultsPage {
  import opened Wrappers
  import opened Text
  import opened Domain

  /**
   * What one hotel tile shows: whether the tile itself is visible, the text contents of its name, price currency, price value,
   * board type and rating elements (`None` where the tile has no such element, so that reading
   * it times out), and the visibility of each of its continue buttons, in document order.
   */
  datatype HotelItem = HotelItem(
    visible: bool,
    name: Option<string>,
    currency: Option<string>,
    priceValue: Option<string>,
    boardType: Option<string>,
    rating: Option<string>,
    continueButtons: seq<bool>)

  const NoVisibleDiscoverButtonError := "No visible ONTDEK button found"

  /** `textContent()` of the first matching element: its text, or a timeout when there is none. */
  function ReadText(element: Option<string>): (r: Result<string>)
    ensures r.Ok? <==> element.Some?
    ensures r.Ok? ==> r.value == element.value
    ensures r.Err? ==> r == Err(TimeoutError(ActionTimeout))
  {
    match element
    case Some(t) => Ok(t)
    case None => Err(TimeoutError(ActionTimeout))
  }

  /** The hotel name: the trimmed text. */
  function NameText(name: string): (r: string)
    ensures IsTrimmed(r)
    ensures r == "" <==> IsBlank(name)
    ensures r == Trim(name)
  {
    Trim(name)
  }

  /** Reading a name a second time changes nothing. */
  lemma NameTextIdempotent(name: string)
    ensures NameText(NameText(name)) == NameText(name)
  {
    TrimOfTrimmed(NameText(name));
  }

  /** The price per person: currency text directly followed by value text. */
  function PriceText(currency: string, value: string): (r: string)
    ensures |r| == |currency| + |value|
    ensures r[..|currency|] == currency
    ensures r[|currency|..] == value
  {
    currency + value
  }

  predicate IsParen(c: char) {
    c == '(' || c == ')'
  }

  predicate ParenFree(s: string) {
    forall i :: 0 <= i < |s| ==> !IsParen(s[i])
  }

  /** `s.replace(/[()]/g, '')`: every parenthesis removed, every other character kept in order. */
  function RemoveParens(s: string): (r: string)
    ensures ParenFree(r)
    ensures |r| <= |s|
    ensures |r| == |s| <==> ParenFree(s)
  {
    if s == [] then []
    else if IsParen(s[|s| - 1]) then RemoveParens(s[..|s| - 1])
    else RemoveParens(s[..|s| - 1]) + [s[|s| - 1]]
  }

  /** Removing parentheses keeps a parenthesis-free text as it is. */
  lemma {:induction false} RemoveParensOfParenFree(s: string)
    requires ParenFree(s)
    ensures RemoveParens(s) == s
  {
    if s != [] {
      RemoveParensOfParenFree(s[..|s| - 1]);
      assert s == s[..|s| - 1] + [s[|s| - 1]];
    }
  }

  /** Removing parentheses works piece by piece. */
  lemma {:induction false} RemoveParensAppend(s: string, t: string)
    ensures RemoveParens(s + t) == RemoveParens(s) + RemoveParens(t)
    decreases |t|
  {
    if t == [] {
      assert s + t == s;
    } else {
      assert (s + t)[..|s + t| - 1] == s + t[..|t| - 1];
      RemoveParensAppend(s, t[..|t| - 1]);
    }
  }

  /** The board type: parentheses removed, then trimmed. */
  function BoardTypeText(boardType: string): (r: string)
    ensures IsTrimmed(r) && ParenFree(r)
    ensures r == Trim(RemoveParens(boardType))
  {
    var p := RemoveParens(boardType);
    var r := Trim(p);
    var a := FirstNonSpace(p, 0);
    assert forall i :: 0 <= i < |r| ==> r[i] == p[a + i];
    r
  }

  /** Reading a board type a second time changes nothing. */
  lemma BoardTypeIdempotent(boardType: string)
    ensures BoardTypeText(BoardTypeText(boardType)) == BoardTypeText(boardType)
  {
    var r := BoardTypeText(boardType);
    RemoveParensOfParenFree(r);
    TrimOfTrimmed(r);
  }

  function OutOfRangeError(index: int, count: nat): (r: string)
    ensures OccursAt(r, IntToString(index), 12)
  {
    "Hotel index " + IntToString(index) + " out of range. Only " + NatToString(count) + " hotels available."
  }

  function UndefinedHotelError(index: int): (r: string)
    ensures OccursAt(r, IntToString(index), 15)
  {
    "Hotel at index " + IntToString(index) + " is undefined"
  }

  /** The first tile is there and visible, which is what `getHotelByIndex` waits for. */
  predicate FirstTileShows(hotels: seq<HotelItem>) {
    hotels != [] && hotels[0].visible
  }

  /**
   * The hotel tile at `index`. The wait for the first tile times out when the list is empty
   * or its first tile stays hidden; after that every tile counts, and an index past the end
   * and an index with no entry (a negative one) raise distinct errors.
   */
  function GetHotelByIndex(hotels: seq<HotelItem>, index: int): (r: Result<HotelItem>)
    ensures r.Ok? <==> FirstTileShows(hotels) && 0 <= index < |hotels|
    ensures r.Ok? ==> r.value == hotels[index]
    ensures !FirstTileShows(hotels) ==> r == Err(TimeoutError(DefaultTimeout))
    ensures FirstTileShows(hotels) && index >= |hotels| ==> r == Err(OutOfRangeError(index, |hotels|))
    ensures FirstTileShows(hotels) && index < 0 ==> r == Err(UndefinedHotelError(index))
  {
    if !FirstTileShows(hotels) then Err(TimeoutError(DefaultTimeout))
    else if index >= |hotels| then Err(OutOfRangeError(index, |hotels|))
    else if index < 0 then Err(UndefinedHotelError(index))
    else Ok(hotels[index])
  }

  /** The out-of-range message names the requested index and the number of hotels. */
  lemma OutOfRangeNamesBoth(index: int, count: nat)
    ensures Contains(OutOfRangeError(index, count), IntToString(index))
    ensures Contains(OutOfRangeError(index, count), NatToString(count))
  {
    var m := OutOfRangeError(index, count);
    var a := "Hotel index ";
    var b := a + IntToString(index) + " out of range. Only ";
    assert m[|a|..|a| + |IntToString(index)|] == IntToString(index);
    assert OccursAt(m, IntToString(index), |a|);
    assert m[|b|..|b| + |NatToString(count)|] == NatToString(count);
    assert OccursAt(m, NatToString(count), |b|);
    ContainsIff(m, IntToString(index));
    ContainsIff(m, NatToString(count));
  }

  /** The out-of-range and undefined-entry errors can never be confused. */
  lemma IndexErrorsDistinct(i: int, j: int, count: nat)
    ensures OutOfRangeError(i, count) != UndefinedHotelError(j)
  {
    assert OutOfRangeError(i, count)[6] == 'i';
    assert UndefinedHotelError(j)[6] == 'a';
  }

  /** The tile has every element the details are read from. */
  predicate HasAllDetails(h: HotelItem) {
    h.name.Some? && h.currency.Some? && h.priceValue.Some? && h.boardType.Some? && h.rating.Some?
  }

  /** The details of the hotel at `index`, read through the text clean-ups; a missing element
      makes its read time out. */
  function GetHotelDetailsByIndex(hotels: seq<HotelItem>, index: int): (r: Result<HotelDetails>)
    ensures r.Ok? <==> GetHotelByIndex(hotels, index).Ok? && HasAllDetails(hotels[index])
    ensures GetHotelByIndex(hotels, index).Err? ==> r == Err(GetHotelByIndex(hotels, index).message)
    ensures GetHotelByIndex(hotels, index).Ok? && !HasAllDetails(hotels[index]) ==>
      r == Err(TimeoutError(ActionTimeout))
    ensures r.Ok? ==>
      && r.value.index == index
      && r.value.name == NameText(hotels[index].name.value)
      && r.value.price == PriceText(hotels[index].currency.value, hotels[index].priceValue.value)
      && r.value.boardType == BoardTypeText(hotels[index].boardType.value)
      && r.value.rating == hotels[index].rating.value
  {
    var hotel :- GetHotelByIndex(hotels, index);
    var name :- ReadText(hotel.name);
    var currency :- ReadText(hotel.currency);
    var value :- ReadText(hotel.priceValue);
    var boardType :- ReadText(hotel.boardType);
    var rating :- ReadText(hotel.rating);
    Ok(HotelDetails(NameText(name), PriceText(currency, value), BoardTypeText(boardType), rating, index))
  }

  /** The board type and name of the details are trimmed and the board type has no parentheses. */
  lemma DetailsAreClean(hotels: seq<HotelItem>, index: int)
    requires GetHotelDetailsByIndex(hotels, index).Ok?
    ensures var d := GetHotelDetailsByIndex(hotels, index).value;
      IsTrimmed(d.name) && IsTrimmed(d.boardType) && ParenFree(d.boardType) && d.index == index
  {
  }

  /** Some continue button of a tile is visible. */
  predicate HasVisibleButton(buttons: seq<bool>) {
    exists j :: 0 <= j < |buttons| && buttons[j]
  }

  /**
   * Click the first visible continue button of a tile; `buttons` holds their visibility in
   * document order. The result is the position of the button clicked.
   */
  method ClickDiscoverButton(buttons: seq<bool>) returns (r: Result<nat>)
    ensures r.Ok? ==> r.value < |buttons| && buttons[r.value]
    ensures r.Ok? ==> forall j :: 0 <= j < r.value ==> !buttons[j]
    ensures r.Err? <==> forall j :: 0 <= j < |buttons| ==> !buttons[j]
    ensures r.Err? ==> r.message == NoVisibleDiscoverButtonError
  {
    for i := 0 to |buttons|
      invariant forall j :: 0 <= j < i ==> !buttons[j]
    {
      if buttons[i] {
        return Ok(i);
      }
    }
    r := Err(NoVisibleDiscoverButtonError);
  }

  /**
   * `selectHotelByIndex`: wait for the list (`loaded` says whether it appeared in time), take
   * the tile at `index`, read its name and click its first visible continue button.
   * The result is the name and the position of the button clicked.
   */
  method SelectHotelByIndex(hotels: seq<HotelItem>, index: int, loaded: bool)
    returns (r: Result<(string, nat)>)
    ensures !loaded ==> r == Err(TimeoutError(ActionTimeout))
    ensures loaded && GetHotelByIndex(hotels, index).Err? ==> r == Err(GetHotelByIndex(hotels, index).message)
    ensures r.Ok? <==>
      && loaded && GetHotelByIndex(hotels, index).Ok?
      && hotels[index].name.Some? && HasVisibleButton(hotels[index].continueButtons)
    ensures loaded && GetHotelByIndex(hotels, index).Ok? && hotels[index].name.None? ==>
      r == Err(TimeoutError(ActionTimeout))
    ensures (loaded && GetHotelByIndex(hotels, index).Ok? && hotels[index].name.Some?
             && !HasVisibleButton(hotels[index].continueButtons)) ==>
      r == Err(NoVisibleDiscoverButtonError)
    ensures r.Ok? ==>
      && r.value.0 == NameText(hotels[index].name.value)
      && (GetHotelDetailsByIndex(hotels, index).Ok? ==> r.value.0 == GetHotelDetailsByIndex(hotels, index).value.name)
      && r.value.1 < |hotels[index].continueButtons| && hotels[index].continueButtons[r.value.1]
  {
    if !loaded {
      return Err(TimeoutError(ActionTimeout));
    }
    var hotel :- GetHotelByIndex(hotels, index);
    var name :- ReadText(hotel.name);
    var hotelName := NameText(name);
    var clicked := ClickDiscoverButton(hotel.continueButtons);
    if clicked.Err? {
      return Err(clicked.message);
    }
    r := Ok((hotelName, clicked.value));
  }
}
