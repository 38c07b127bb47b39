/** The records exchanged between the page objects and the journey test (types/domain.ts). */
module Domain {
  import opened Wrappers
  import opened Text

  datatype BookingScenario = BookingScenario(
    name: string,
    description: string,
    adults: int,
    children: int,
    duration: int,
    childAges: Option<seq<int>>,
    tags: Option<seq<string>>)

  /** The scenario the fixtures hand to the journey: 2 adults, 1 child, 7 nights. */
  const DefaultScenario := BookingScenario(
    "Family with 1 child",
    "Standard family vacation - 2 adults + 1 child",
    2, 1, 7, None, Some(["family", "standard"]))

  datatype SearchCriteria = SearchCriteria(
    departureAirport: string,
    destination: string,
    departureDate: string,
    duration: int,
    adults: int,
    children: int,
    childAge: int)

  datatype HotelDetails = HotelDetails(
    name: string,
    price: string,
    boardType: string,
    rating: string,
    index: int)

  datatype FieldValidationError = FieldValidationError(fieldId: string, message: string)

  datatype PassengerValidationResult = PassengerValidationResult(
    alertVisible: bool,
    alertMessage: string,
    fieldErrors: seq<FieldValidationError>)

  /** The default wait of the page objects (config/environment.config.ts), in ms. */
  const DefaultTimeout: nat := 15000
  /** The driver's limit for navigations and load-state waits (`navigationTimeout` of
      playwright.config.ts), in ms. */
  const NavigationTimeout: nat := 30000
  /** The driver's own limit for an action or a read without an explicit timeout
      (`actionTimeout` of playwright.config.ts), in ms. */
  const ActionTimeout: nat := 15000

  /** The error a browser wait throws when its element does not reach the awaited state in time. */
  function TimeoutError(ms: nat): string {
    "Timeout " + NatToString(ms) + "ms exceeded."
  }
}
