/**
 * The FlightsApp view model: its five pieces of state, one pure transition
 * per event handler, and the component itself as a class whose methods
 * perform the handlers' state-setter calls and are proved to agree with
 * those transitions.
 */
module App {
  import opened SearchForm
  import opened Catalog

  /** The four mutually exclusive screens. */
  datatype Tab = Search | Results | Explore | Trips

  /** A snapshot of the component's state. */
  datatype AppState = AppState(
    searchData: SearchData,
    flights: seq<FlightOffer>,
    loading: bool,
    error: string,
    activeTab: Tab)

  /** The only message validation ever shows. */
  const MissingFieldsMessage := "Please fill in all required fields"

  /** The state a freshly mounted component starts in. */
  function Initial(): (s: AppState)
    ensures s.searchData.from == "" && s.searchData.to == ""
    ensures s.searchData.departDate == "" && s.searchData.returnDate == ""
    ensures s.searchData.passengers == 1 && s.searchData.tripType == RoundTrip
    ensures s.flights == [] && !s.loading && s.error == "" && s.activeTab == Search
  {
    AppState(EmptyQuery, [], false, "", Search)
  }

  /** `handleInputChange`: only the search record changes. */
  function InputChanged(s: AppState, e: Edit): (r: AppState)
    ensures r.searchData == ApplyEdit(s.searchData, e)
    ensures r.flights == s.flights && r.loading == s.loading
    ensures r.error == s.error && r.activeTab == s.activeTab
  {
    s.(searchData := ApplyEdit(s.searchData, e))
  }

  /** `swapLocations`: origin and destination trade places, nothing else moves. */
  function LocationsSwapped(s: AppState): (r: AppState)
    ensures r.searchData.from == s.searchData.to && r.searchData.to == s.searchData.from
    ensures forall f :: f != From && f != To ==> Read(r.searchData, f) == Read(s.searchData, f)
    ensures r.flights == s.flights && r.loading == s.loading
    ensures r.error == s.error && r.activeTab == s.activeTab
  {
    s.(searchData := Swapped(s.searchData))
  }

  /**
   * `handleSearch`, which the disabled button keeps from running while a
   * search is loading. A missing required field only sets the message;
   * otherwise the component starts loading on the results tab. The query
   * and the shown flights are untouched either way.
   */
  function Submitted(s: AppState): (r: AppState)
    requires !s.loading
    ensures r.searchData == s.searchData && r.flights == s.flights
    ensures !RequiredFilled(s.searchData) ==>
      r.error == MissingFieldsMessage && !r.loading && r.activeTab == s.activeTab
    ensures RequiredFilled(s.searchData) ==>
      r.loading && r.error == "" && r.activeTab == Results
    ensures r.loading <==> RequiredFilled(s.searchData)
  {
    if !RequiredFilled(s.searchData) then
      s.(error := MissingFieldsMessage)
    else
      s.(loading := true, error := "", activeTab := Results)
  }

  /**
   * The deferred callback of `handleSearch`: the fixed catalog replaces the
   * flights whatever the query was, and loading ends.
   */
  function Completed(s: AppState): (r: AppState)
    requires s.loading
    ensures r.flights == MockFlights && |r.flights| == 3 && !r.loading
    ensures r.searchData == s.searchData && r.error == s.error && r.activeTab == s.activeTab
  {
    s.(flights := MockFlights, loading := false)
  }

  /** A tab button: the chosen tab becomes the active one. */
  function TabSelected(s: AppState, t: Tab): (r: AppState)
    ensures r.activeTab == t
    ensures r.searchData == s.searchData && r.flights == s.flights
    ensures r.loading == s.loading && r.error == s.error
  {
    s.(activeTab := t)
  }

  /** A popular-destination tile: its code becomes the destination. */
  function DestinationPicked(s: AppState, i: nat): (r: AppState)
    requires i < |PopularDestinations|
    ensures r.searchData.to in DestinationCodes
    ensures r.searchData.to == PopularDestinations[i].code
    ensures forall f :: f != To ==> Read(r.searchData, f) == Read(s.searchData, f)
    ensures r.flights == s.flights && r.loading == s.loading
    ensures r.error == s.error && r.activeTab == s.activeTab
  {
    InputChanged(s, SetTo(TileCode(i)))
  }

  /** The results of two completed searches are the same, whatever was asked. */
  lemma CompletionIgnoresQuery(s1: AppState, s2: AppState)
    requires s1.loading && s2.loading
    ensures Completed(s1).flights == Completed(s2).flights
  {
  }

  /** A failed submission changes only the message. */
  lemma RejectedSearchChangesOnlyError(s: AppState)
    requires !s.loading && !RequiredFilled(s.searchData)
    ensures Submitted(s) == s.(error := MissingFieldsMessage)
  {
  }

  /** Swapping twice restores the whole component state. */
  lemma SwapTwiceRestoresState(s: AppState)
    ensures LocationsSwapped(LocationsSwapped(s)) == s
  {
  }

  /** The component, with the state each `useState` hook holds as a field. */
  class FlightsApp {
    var searchData: SearchData
    var flights: seq<FlightOffer>
    var loading: bool
    var error: string
    var activeTab: Tab

    /** The current state as a value. */
    function State(): AppState
      reads this
    {
      AppState(searchData, flights, loading, error, activeTab)
    }

    /** Mounting: every hook takes its initial value. */
    constructor ()
      ensures State() == Initial()
    {
      searchData := EmptyQuery;
      flights := [];
      loading := false;
      error := "";
      activeTab := Search;
    }

    method HandleInputChange(e: Edit)
      modifies this
      ensures searchData == ApplyEdit(old(searchData), e)
      ensures flights == old(flights) && loading == old(loading)
      ensures error == old(error) && activeTab == old(activeTab)
      ensures State() == InputChanged(old(State()), e)
    {
      searchData := ApplyEdit(searchData, e);
    }

    method SwapLocations()
      modifies this
      ensures searchData == Swapped(old(searchData))
      ensures flights == old(flights) && loading == old(loading)
      ensures error == old(error) && activeTab == old(activeTab)
      ensures State() == LocationsSwapped(old(State()))
    {
      searchData := Swapped(searchData);
    }

    /**
     * `handleSearch`. `scheduled` tells whether the completion callback was
     * set up; when it is, CompleteSearch is the one step still due.
     */
    method HandleSearch() returns (scheduled: bool)
      requires !loading
      modifies this
      ensures scheduled <==> RequiredFilled(old(searchData))
      ensures scheduled <==> loading
      ensures !scheduled ==> error == MissingFieldsMessage && activeTab == old(activeTab)
      ensures scheduled ==> error == "" && activeTab == Results
      ensures searchData == old(searchData) && flights == old(flights)
      ensures State() == Submitted(old(State()))
    {
      if !RequiredFilled(searchData) {
        error := MissingFieldsMessage;
        scheduled := false;
        return;
      }
      loading := true;
      error := "";
      activeTab := Results;
      scheduled := true;
    }

    /** The callback scheduled by a successful HandleSearch, when it fires. */
    method CompleteSearch()
      requires loading
      modifies this
      ensures flights == MockFlights && !loading
      ensures searchData == old(searchData) && error == old(error) && activeTab == old(activeTab)
      ensures State() == Completed(old(State()))
    {
      flights := MockFlights;
      loading := false;
    }

    method SetActiveTab(t: Tab)
      modifies this
      ensures activeTab == t
      ensures searchData == old(searchData) && flights == old(flights)
      ensures loading == old(loading) && error == old(error)
      ensures State() == TabSelected(old(State()), t)
    {
      activeTab := t;
    }

    /** A click on destination tile `i`. */
    method SelectDestination(i: nat)
      requires i < |PopularDestinations|
      modifies this
      ensures searchData == ApplyEdit(old(searchData), SetTo(PopularDestinations[i].code))
      ensures searchData.to in DestinationCodes
      ensures flights == old(flights) && loading == old(loading)
      ensures error == old(error) && activeTab == old(activeTab)
      ensures State() == DestinationPicked(old(State()), i)
    {
      HandleInputChange(SetTo(PopularDestinations[i].code));
    }
  }
}
