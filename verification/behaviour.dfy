/**
 * What a user can do to FlightsApp over time. Each screen renders only some
 * controls: the form, its swap button, the destination tiles and the search
 * button appear only on the search tab; the return-date input only for a
 * round trip; the search button is disabled while loading; the passenger
 * select offers 1 to 6; the header buttons are always there and, like the
 * "Edit search" and "Search for flights" buttons, lead to search, explore or
 * trips, never to results. The completion callback is pending exactly while
 * `loading` is set, because only a successful search sets it and only the
 * callback clears it.
 */
module Behaviour {
  import opened SearchForm
  import opened Catalog
  import opened App

  datatype Event =
    | Input(edit: Edit)
    | SwapClick
    | SearchClick
    | SearchDone
    | TabClick(tab: Tab)
    | DestinationClick(index: nat)

  /** Whether `e` can happen in state `s`. */
  predicate Enabled(s: AppState, e: Event)
    // the form, the swap button, the tiles and the search button exist only on the search tab
    ensures Enabled(s, e) && !e.SearchDone? && !e.TabClick? ==> s.activeTab == Search
    // the return-date input is shown only for a round trip
    ensures Enabled(s, e) && e.Input? && e.edit.SetReturnDate? ==> s.searchData.tripType == RoundTrip
    // the passenger select offers 1 to 6
    ensures Enabled(s, e) && e.Input? && e.edit.SetPassengers? ==> 1 <= e.edit.count <= 6
    // the search button is disabled while loading; the callback is pending exactly while loading
    ensures e.SearchClick? ==> (Enabled(s, e) <==> s.activeTab == Search && !s.loading)
    ensures e.SearchDone? ==> (Enabled(s, e) <==> s.loading)
    // the tab buttons are always on screen and none of them leads to results
    ensures e.TabClick? ==> (Enabled(s, e) <==> e.tab != Results)
  {
    match e
    case Input(edit) =>
      s.activeTab == Search
      && (edit.SetReturnDate? ==> s.searchData.tripType == RoundTrip)
      && (edit.SetPassengers? ==> 1 <= edit.count <= 6)
    case SwapClick => s.activeTab == Search
    case SearchClick => s.activeTab == Search && !s.loading
    case SearchDone => s.loading
    case TabClick(t) => t != Results
    case DestinationClick(i) => s.activeTab == Search && i < |PopularDestinations|
  }

  /** The handler that an enabled event runs. */
  function Step(s: AppState, e: Event): (r: AppState)
    requires Enabled(s, e)
    ensures e.SearchDone? ==> r.flights == MockFlights && !r.loading
    ensures !e.Input? && !e.SwapClick? && !e.DestinationClick? ==> r.searchData == s.searchData
  {
    match e
    case Input(edit) => InputChanged(s, edit)
    case SwapClick => LocationsSwapped(s)
    case SearchClick => Submitted(s)
    case SearchDone => Completed(s)
    case TabClick(t) => TabSelected(s, t)
    case DestinationClick(i) => DestinationPicked(s, i)
  }

  /** Runs a sequence of user actions; one whose control is absent or disabled has no effect. */
  function Run(s: AppState, es: seq<Event>): AppState
    decreases |es|
  {
    if es == [] then s
    else Run(if Enabled(s, es[0]) then Step(s, es[0]) else s, es[1..])
  }

  /**
   * What holds in every state a user can reach: results are either absent or
   * the whole catalog; the only message is the validation one; loading and an
   * error never coexist; the passenger count is one the select offers; and
   * the results tab is showing only for a query that passed validation.
   */
  predicate Inv(s: AppState) {
    && (s.flights == [] || s.flights == MockFlights)
    && (s.error == "" || s.error == MissingFieldsMessage)
    && (s.loading ==> s.error == "")
    && 1 <= s.searchData.passengers <= 6
    && (s.activeTab == Results ==> RequiredFilled(s.searchData) && s.error == "")
  }

  lemma InitialSatisfiesInv()
    ensures Inv(Initial())
  {
  }

  lemma StepKeepsInv(s: AppState, e: Event)
    requires Inv(s) && Enabled(s, e)
    ensures Inv(Step(s, e))
  {
  }

  lemma {:induction false} RunKeepsInv(s: AppState, es: seq<Event>)
    requires Inv(s)
    ensures Inv(Run(s, es))
    decreases |es|
  {
    if es != [] {
      var next := if Enabled(s, es[0]) then Step(s, es[0]) else s;
      if Enabled(s, es[0]) {
        StepKeepsInv(s, es[0]);
      }
      RunKeepsInv(next, es[1..]);
    }
  }

  /** Every reachable state satisfies Inv. */
  lemma ReachableSatisfiesInv(es: seq<Event>)
    ensures Inv(Run(Initial(), es))
  {
    InitialSatisfiesInv();
    RunKeepsInv(Initial(), es);
  }

  /**
   * Whatever the user did, the results screen is showing only for a query
   * with origin, destination and departure date filled in, and with no error.
   */
  lemma ResultsOnlyAfterValidQuery(es: seq<Event>)
    ensures var s := Run(Initial(), es);
      s.activeTab == Results ==> RequiredFilled(s.searchData) && s.error == ""
  {
    ReachableSatisfiesInv(es);
  }

  /**
   * From the search tab, a complete query followed by the callback ends on
   * the results tab with the catalog shown, the query kept and no error.
   */
  lemma SearchThenCompletion(s: AppState)
    requires s.activeTab == Search && !s.loading && RequiredFilled(s.searchData)
    ensures var r := Run(s, [SearchClick, SearchDone]);
      r.flights == MockFlights && !r.loading && r.error == ""
      && r.activeTab == Results && r.searchData == s.searchData
  {
  }

  /** From the search tab, an incomplete query only shows the message. */
  lemma IncompleteSearchStaysOnForm(s: AppState)
    requires s.activeTab == Search && !s.loading && !RequiredFilled(s.searchData)
    ensures Run(s, [SearchClick]) == s.(error := MissingFieldsMessage)
  {
  }

  /**
   * Two clicks on the swap button restore the state: on the search tab each
   * click swaps, and elsewhere the button is not on screen.
   */
  lemma DoubleSwapClick(s: AppState)
    ensures Run(s, [SwapClick, SwapClick]) == s
  {
  }

  /**
   * A concrete session: one-way JFK to LAX on 2025-06-01 for one passenger,
   * searched and completed, shows the three catalog offers.
   */
  lemma ExampleSession()
    ensures var r := Run(Initial(), [
        Input(SetFrom("JFK")), Input(SetTo("LAX")), Input(SetDepartDate("2025-06-01")),
        Input(SetTripType(OneWay)), SearchClick, SearchDone]);
      r.flights == MockFlights && |r.flights| == 3 && r.activeTab == Results
      && r.searchData == SearchData("JFK", "LAX", "2025-06-01", "", 1, OneWay)
  {
  }
}
