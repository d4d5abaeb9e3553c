# FlightsApp view model in Dafny

A model of the state machine behind the single `FlightsApp` React component
of a mock flight-search page. The component keeps five pieces of state:
the search query (`searchData`), the shown `flights`, a `loading` flag, an
`error` message and the `activeTab`, which is one of search, results,
explore or trips. Its handlers act on that state:

- `handleInputChange` edits one field of the query.
- `swapLocations` exchanges origin and destination.
- `handleSearch` validates the query. It then either shows a fixed message,
  or starts loading on the results tab and schedules a callback.
- The callback installs a fixed three-offer catalog and ends loading.
- Tab buttons and destination tiles set the tab or the destination.

Files:

- `search_form.dfy` (module `SearchForm`): the query record, the typed
  argument of `handleInputChange`, the single-field update and the swap. It
  also has a by-key reader `Read`, which states "this field changed and no
  other did". The required-field check is here too.
- `catalog.dfy` (module `Catalog`): the popular-destination tiles and the
  mock flight offers.
- `app.dfy` (module `App`): the state as a value, its initial value, and one
  pure transition per handler. The class `FlightsApp` holds the five fields
  and has one method per handler. Each method states its new fields and
  proves that `State()` equals the matching transition applied to the old
  state.
- `behaviour.dfy` (module `Behaviour`): user events, and which of them the
  rendered screen allows in a given state (`Enabled`). `Run` plays a
  sequence of events; an event whose control is absent or disabled does
  nothing. `Inv` is an invariant proved for every reachable state by
  induction over the event sequence.

Modelling choices:

- Strings are `seq<char>`. The JavaScript falsy test on a string becomes
  "has length 0".
- The trip type is a two-valued datatype (`RoundTrip`, `OneWay`) instead of
  the strings "roundtrip" and "oneway".
- The two-second `setTimeout` is the separate step `CompleteSearch`
  (`Completed`, `SearchDone`). It may run only while `loading` is set.
  This matches the code: only a successful search sets `loading` and
  schedules the callback, and the search button is disabled while `loading`
  is set. So a callback is pending exactly while `loading` holds.
- The callback may fire on any tab. The source does not cancel it when the
  user navigates away.
- Flight ratings are one-digit decimals in the source. They are kept
  exactly, as tenths (4.2 becomes 42).

The return-date input is shown only for a round trip
(src/components/FlightApp.jsx:283). The validation at line 83 never reads it
(`ValidationIgnoresOptionalFields`, `ReturnDateNotRequired`).

## Model

| member | source | states |
|---|---|---|
| `SearchForm.ApplyEdit` | src/components/FlightApp.jsx:75-80 | after an edit, the edited key reads back the new value and every other key reads back its old value |
| `SearchForm.EditIsDeterminedByFrame` | src/components/FlightApp.jsx:75-80 | any record with that frame property is exactly the edited record, so the property describes the update completely |
| `SearchForm.EditOfCurrentValueIsIdentity` | src/components/FlightApp.jsx:75-80 | writing a key with the value it already holds leaves the record equal to the old one |
| `SearchForm.LastEditWins` | src/components/FlightApp.jsx:75-80 | of two edits to the same key, the later one decides the result |
| `SearchForm.EditsOfDistinctFieldsCommute` | src/components/FlightApp.jsx:75-80 | edits to different keys give the same record in either order |
| `SearchForm.Swapped` | src/components/FlightApp.jsx:130-136 | the new origin is the old destination and the reverse; every other key is unchanged |
| `SearchForm.SwapIsInvolution` | src/components/FlightApp.jsx:130-136 | swapping twice gives back the original query |
| `SearchForm.SwapKeepsValidation` | src/components/FlightApp.jsx:130-136 | a swapped query passes validation exactly when the original does |
| `SearchForm.RequiredFilled` | src/components/FlightApp.jsx:83 | a query passes exactly when none of origin, destination and departure date holds the empty string |
| `SearchForm.ValidationIgnoresOptionalFields` | src/components/FlightApp.jsx:83 | two queries with the same origin, destination and departure date get the same verdict, whatever their return date, passengers and trip type |
| `SearchForm.ReturnDateNotRequired` | src/components/FlightApp.jsx:83 | a round trip with an empty return date passes when the three required fields are filled |
| `Catalog.TileCode` | src/components/FlightApp.jsx:29-36 | every tile's code is one of NYC, LON, PAR, NRT, DXB, SYD and is three characters long |
| `Catalog.EveryCodeHasATile` | src/components/FlightApp.jsx:29-36 | each of those six codes belongs to some tile |
| `Catalog.MockFlightsShape` | src/components/FlightApp.jsx:39-73 | the catalog has three offers with ids 1, 2, 3 in order; the ids are distinct; all are nonstop JFK to LAX; ratings are at most 5.0 |
| `App.Initial` | src/components/FlightApp.jsx:14-26 | empty origin, destination and dates; one passenger; round trip; no flights; not loading; no error; search tab |
| `App.InputChanged` | src/components/FlightApp.jsx:75-80 | only the query changes, by the single-field edit; flights, loading, error and tab stay |
| `App.LocationsSwapped` | src/components/FlightApp.jsx:130-136 | origin and destination trade places; the other query keys and all other state stay |
| `App.Submitted` | src/components/FlightApp.jsx:82-89 | a missing required field sets the fixed message and keeps loading off and the tab unchanged; otherwise loading is on, the error is cleared and the tab is results; the query and flights stay either way; loading ends up on exactly when validation passes |
| `App.Completed` | src/components/FlightApp.jsx:120-123 | flights become the three-offer catalog and loading is off; query, error and tab stay |
| `App.TabSelected` | src/components/FlightApp.jsx:157-185 | the chosen tab becomes active; nothing else changes |
| `App.DestinationPicked` | src/components/FlightApp.jsx:352-358 | the destination becomes the tile's code, one of the six codes; every other key and all other state stay |
| `App.CompletionIgnoresQuery` | src/components/FlightApp.jsx:120-123 | two completed searches show the same flights, whatever their queries |
| `App.RejectedSearchChangesOnlyError` | src/components/FlightApp.jsx:83-86 | a rejected search equals the old state with only the message set |
| `App.SwapTwiceRestoresState` | src/components/FlightApp.jsx:130-136 | swapping twice restores the whole component state |
| `App.FlightsApp.constructor` | src/components/FlightApp.jsx:14-26 | a new component is in the initial state |
| `App.FlightsApp.HandleInputChange` | src/components/FlightApp.jsx:75-80 | the query field changes by the single-field edit and the other four fields keep their values |
| `App.FlightsApp.SwapLocations` | src/components/FlightApp.jsx:130-136 | the query becomes its swap and the other four fields keep their values |
| `App.FlightsApp.HandleSearch` | src/components/FlightApp.jsx:82-90 | needs loading off (the button is disabled otherwise); schedules the callback exactly when validation passes, and then loading is on, the error is cleared and the tab is results; otherwise only the message is set; query and flights stay |
| `App.FlightsApp.CompleteSearch` | src/components/FlightApp.jsx:120-123 | runs only while loading; installs the catalog and ends loading; the other fields stay |
| `App.FlightsApp.SetActiveTab` | src/components/FlightApp.jsx:157-185 | the tab becomes the given one and the other fields stay |
| `App.FlightsApp.SelectDestination` | src/components/FlightApp.jsx:352-358 | the destination becomes the tile's code, one of the six codes, through the single-field edit; the other fields stay |
| `Behaviour.Enabled` | src/components/FlightApp.jsx:157-371 | which controls are on screen: the form, swap button, tiles and search button only on the search tab (191-371); the return-date input only for a round trip (283); passengers 1..6 from the select (320); search disabled while loading (332); the callback only while loading (120-123); tab buttons always present and never leading to results (157-185, 389, 537) |
| `Behaviour.Step` | src/components/FlightApp.jsx:75-136 | the callback step installs the catalog and ends loading; submit and tab events leave the query untouched |
| `Behaviour.StepKeepsInv` | src/components/FlightApp.jsx:75-136 | every event the screen allows keeps the invariant: flights are none or the catalog; the only message is the validation one; loading implies no error; passengers are 1..6; the results tab implies a validated query and no error |
| `Behaviour.RunKeepsInv` | src/components/FlightApp.jsx:75-136 | any sequence of user events keeps the invariant |
| `Behaviour.ReachableSatisfiesInv` | src/components/FlightApp.jsx:14-136 | every state reachable from the initial one satisfies the invariant |
| `Behaviour.ResultsOnlyAfterValidQuery` | src/components/FlightApp.jsx:82-89 | in any reachable state, the results tab shows only a query with origin, destination and departure date filled in, and no error |
| `Behaviour.SearchThenCompletion` | src/components/FlightApp.jsx:82-123 | a filled query submitted from the search tab, then the callback, gives the results tab with the catalog, the query kept and no error |
| `Behaviour.IncompleteSearchStaysOnForm` | src/components/FlightApp.jsx:83-86 | an incomplete query submitted from the search tab only sets the message and keeps the search tab |
| `Behaviour.DoubleSwapClick` | src/components/FlightApp.jsx:239-244 | in every state, two clicks on the swap button restore the state |
| `Behaviour.ExampleSession` | src/components/FlightApp.jsx:14-123 | a one-way JFK to LAX search on 2025-06-01 for one passenger ends on the results tab with exactly the three catalog offers, the query as entered |

## Left out

- JSX markup and CSS classes (src/components/FlightApp.jsx:147-546): presentation, with no state change beyond the handlers above. This includes the inert "Best / Cheapest / Fastest" select and the "Select" buttons, which have no handlers.
- `formatDate` (src/components/FlightApp.jsx:138-145): it relies on JavaScript `Date` parsing and locale formatting, which are outside this model.
- The real 2000 ms delay and asynchronous scheduling: completion is an explicit step. Timing and interleaving are not modelled.
- The commented-out flight API request (src/components/FlightApp.jsx:92-117): inactive network I/O.
- The `catch` branch and its message "Failed to search flights. Please try again." (src/components/FlightApp.jsx:124-127): nothing in the `try` block can throw, so the branch is unreachable.
- `SearchForm.ApplyEdit`: the edit takes a value of the field's own type. JavaScript accepts a value of any type for any key; no call site passes an ill-typed one.
- The `parseInt` of the passenger select: the model takes the parsed number. `Behaviour.Enabled` limits it to the select's options 1..6.
- The display prices of the destination tiles are kept as plain strings and are not interpreted.
