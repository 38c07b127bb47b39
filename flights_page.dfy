/**
 * The flights step (pages/FlightsSelectionPage.ts `waitForLoaded`): the wait for the document to
 * load, a race between the flights list and the error banner, then either the banner or the
 * "Boek nu" button.
 */
module FlightsSelection {
  import opened Wrappers
  import opened Domain

  /** Both racers wait at most this long, in ms. */
  const RaceTimeout: nat := 10000
  /** The wait for the "Boek nu" button, in ms. */
  const BoekNuTimeout: nat := 5000

  const NeitherVisibleError: string := "FlightsSelectionPage: neither flights nor error banner became visible within timeout"

  /**
   * What the browser shows while the page loads: whether the document reaches the
   * `domcontentloaded` state within the navigation timeout; the moment (ms after the race starts) the
   * flights list and the error banner become visible, if ever; whether the banner is visible
   * when it is checked after the race; and whether the "Boek nu" button appears in time.
   */
  datatype FlightsObservation = FlightsObservation(
    loadStateReached: bool,
    containerVisibleAt: Option<nat>,
    bannerVisibleAt: Option<nat>,
    bannerVisibleAfterRace: bool,
    boekNuVisible: bool)

  datatype Signal = FlightsList | ErrorBanner

  /** How the page was left when the wait returned normally. */
  datatype FlightsState = Ready | ShowsBanner

  /** A racer that becomes visible strictly before its timeout resolves. */
  predicate AppearsInTime(at: Option<nat>) {
    at.Some? && at.value < RaceTimeout
  }

  /** The racer that settles the race first; on a tie the flights list, registered first, wins. */
  function RaceWinner(obs: FlightsObservation): (w: Option<Signal>)
    ensures w == Some(FlightsList) ==>
      AppearsInTime(obs.containerVisibleAt)
      && (AppearsInTime(obs.bannerVisibleAt) ==> obs.containerVisibleAt.value <= obs.bannerVisibleAt.value)
    ensures w == Some(ErrorBanner) ==>
      AppearsInTime(obs.bannerVisibleAt)
      && (AppearsInTime(obs.containerVisibleAt) ==> obs.bannerVisibleAt.value < obs.containerVisibleAt.value)
    ensures w.None? <==> !AppearsInTime(obs.containerVisibleAt) && !AppearsInTime(obs.bannerVisibleAt)
  {
    var c := AppearsInTime(obs.containerVisibleAt);
    var b := AppearsInTime(obs.bannerVisibleAt);
    if c && (!b || obs.containerVisibleAt.value <= obs.bannerVisibleAt.value) then Some(FlightsList)
    else if b then Some(ErrorBanner)
    else None
  }

  /**
   * `waitForLoaded`: fails when the document does not load in time, or when the race ends by
   * timeout; returns with the banner showing
   * when it is visible after the race, without waiting for the button; otherwise the button
   * must appear.
   */
  function WaitForLoaded(obs: FlightsObservation): (r: Result<FlightsState>)
    ensures !obs.loadStateReached ==> r == Err(TimeoutError(NavigationTimeout))
    ensures obs.loadStateReached && RaceWinner(obs).None? ==> r == Err(NeitherVisibleError)
    ensures obs.loadStateReached && RaceWinner(obs).Some? && obs.bannerVisibleAfterRace ==> r == Ok(ShowsBanner)
    ensures r == Ok(Ready) <==>
      obs.loadStateReached && RaceWinner(obs).Some? && !obs.bannerVisibleAfterRace && obs.boekNuVisible
    ensures obs.loadStateReached && RaceWinner(obs).Some? && !obs.bannerVisibleAfterRace && !obs.boekNuVisible ==>
      r == Err(TimeoutError(BoekNuTimeout))
  {
    if !obs.loadStateReached then Err(TimeoutError(NavigationTimeout))
    else if RaceWinner(obs).None? then Err(NeitherVisibleError)
    else if obs.bannerVisibleAfterRace then Ok(ShowsBanner)
    else if obs.boekNuVisible then Ok(Ready)
    else Err(TimeoutError(BoekNuTimeout))
  }

  /** Which racer wins does not matter: only whether one of them appeared in time. */
  lemma OutcomeIgnoresWinner(obs1: FlightsObservation, obs2: FlightsObservation)
    requires obs1.loadStateReached == obs2.loadStateReached
    requires RaceWinner(obs1).Some? && RaceWinner(obs2).Some?
    requires obs1.bannerVisibleAfterRace == obs2.bannerVisibleAfterRace
    requires obs1.boekNuVisible == obs2.boekNuVisible
    ensures WaitForLoaded(obs1) == WaitForLoaded(obs2)
  {
  }

  /** A signal at exactly the timeout is too late, whichever racer it is. */
  lemma SignalAtTimeoutIsTooLate(bannerAfter: bool, boekNu: bool)
    ensures WaitForLoaded(FlightsObservation(true, Some(RaceTimeout), Some(RaceTimeout), bannerAfter, boekNu))
      == Err(NeitherVisibleError)
  {
  }
}
