# spotter_flights: a Dafny model of the search cache and the results view

This project models the logic of the spotter_flights web client, a React front
end to a flight-search service.

- **Search form.** The user picks an origin and a destination from
  autocomplete suggestions, picks dates, a trip type, a cabin class and a
  passenger count, and searches.
- **Search cache.** Results are kept in an in-memory cache for one hour,
  keyed by route, trip type and dates.
- **Results page.** It shows the itineraries five per page, with filters
  for all, cheapest, direct, one stop, two stops and airline.

The files:

- `js_values.dfy` (`JsValues`) gives missing properties and JavaScript
  truthiness, `x || ''`, default parameters, how a template literal
  renders `undefined`, and JavaScript's truncating `%`.
- `itineraries.dfy` (`Itineraries`) is the part of the response body the
  results page reads.
- `sequences.dfy` (`Sequences`) is `Array.prototype.filter` with a key
  test. It comes with an independent description of what it keeps: the
  strictly increasing positions whose element matches.
- `pagination.dfy` (`Pagination`) covers `Pagination.js`: the page count
  and the change callback.
- `apis.dfy` (`Apis`) covers `APIs.js`: the required-field guard and the
  query-parameter record of `fetchFlights`, and how `searchAirports` turns
  errors into `undefined`. The HTTP request is a `transport` parameter.
- `flight_results.dfy` (`FlightResults`) covers `flightResultPage.js`:
  - the duration and layover arithmetic;
  - the page slice and how pages cover the working set;
  - the stop filters, the stable cheapest sort and the airline list;
  - the empty-result guard;
  - the class `ResultView`, holding the page state that the handlers
    update.
- `flight_search.dfy` (`FlightSearch`) covers `flightSearch.js`:
  - the suggestion-to-option mapping;
  - the cache key and the cache with its time-to-live;
  - `Search`, a pure description of `handleSearch`;
  - the class `FlightCache`, holding the shared cache;
  - the class `FlightSearchBar`, holding the form state. Its
    `HandleSearch` is proved equal to `Search`.

Clocks and remote calls are parameters:

- `now` is the `Date.now()` read at the cache lookup.
- `storedAt` is the `Date.now()` read when a result is stored.
- `transport` is the request to the remote service. It either answers or
  fails.

## Model

| member | source | states |
|---|---|---|
| FlightResults.FormatDuration | spotter_flights/src/components/flightResultPage.js:13-17 | the hours are the floor of minutes/60; for a non-negative duration, 0 <= mins < 60 and hours*60 + mins recomposes it; a negative duration gives mins in (-60, 0] as JavaScript's `%` does, namely minus the remainder of its absolute value |
| FlightResults.Layover | spotter_flights/src/components/flightResultPage.js:278-282 | the layover shows hours in [0,24) and minutes in [0,60) of the absolute gap: hours are the hour count mod 24, minutes the minute count mod 60, and the gap within its day is exactly these plus the leftover seconds |
| FlightResults.LayoverDropsWholeDays | spotter_flights/src/components/flightResultPage.js:280-282 | adding whole days to a gap does not change the layover shown |
| FlightResults.SegmentLayovers | spotter_flights/src/components/flightResultPage.js:234-282 | a leg of n segments shows n-1 layovers, the i-th being the layover between the arrival of segment i and the departure of segment i+1, each with hours in [0,24) and minutes in [0,60) |
| FlightResults.PageSlice | spotter_flights/src/components/flightResultPage.js:27-41 | the page has at most 5 itineraries and exactly min(5, remaining) of them, namely the working set's items from (page-1)*5 on, in order |
| FlightResults.PagesArePrefix | spotter_flights/src/components/flightResultPage.js:38-41 | pages 1..n read one after the other are the first min(5n, total) itineraries |
| FlightResults.PagesCoverWorkingSet | spotter_flights/src/components/flightResultPage.js:36-41 | the pages 1..count the pager offers, read in order, are exactly the working set, so each itinerary is shown once |
| FlightResults.ItemShownOnItsPage | spotter_flights/src/components/flightResultPage.js:38-41 | itinerary i is item i%5 of page i/5+1, and that page is one the pager offers |
| FlightResults.PastLastPageIsEmpty | spotter_flights/src/components/flightResultPage.js:38-41 | a current page past the page count shows nothing, which is what a filter that shrinks the working set leaves on screen |
| Sequences.FilterBy | spotter_flights/src/components/flightResultPage.js:67-80 | a filter keeps an element exactly when it is in the set and its key matches, and the result is no longer than the set |
| Sequences.FilterCount | spotter_flights/src/components/flightResultPage.js:67-80 | a filter keeps every occurrence of a matching itinerary and none of the others |
| Sequences.KeptPositions | spotter_flights/src/components/flightResultPage.js:67-80 | the filtered list is the original read at the strictly increasing positions whose key matches, and only those, so the original order is kept |
| FlightResults.StopFiltersDisjoint | spotter_flights/src/components/flightResultPage.js:67-80 | no itinerary is kept by two different stop-count filters |
| FlightResults.StopFiltersPartition | spotter_flights/src/components/flightResultPage.js:67-80 | when every stop count is 0, 1 or 2, the Direct, 1 Stop and 2 Stops results together are a permutation of the set |
| FlightResults.InsertByPrice | spotter_flights/src/components/flightResultPage.js:58-65 | inserting one itinerary adds it to the multiset and keeps a price-sorted list sorted |
| FlightResults.SortByPrice | spotter_flights/src/components/flightResultPage.js:58-65 | Cheapest is a permutation of the set, sorted by non-decreasing price |
| FlightResults.InsertKeepsTies | spotter_flights/src/components/flightResultPage.js:58-65 | an inserted itinerary goes after every earlier one of the same price |
| FlightResults.CheapestKeepsTies | spotter_flights/src/components/flightResultPage.js:58-65 | Cheapest is stable: for every price, the itineraries at that price keep their original relative order |
| FlightResults.FirstOccurrence | spotter_flights/src/components/flightResultPage.js:96-102 | gives the first position whose lead carrier has the name, or the length when there is none |
| FlightResults.Extend | spotter_flights/src/components/flightResultPage.js:96-102 | one reduce step keeps every airline seen so far, adds at most one, and afterwards the carrier's name is listed |
| FlightResults.AirlinesOf | spotter_flights/src/components/flightResultPage.js:96-102 | the airline list is no longer than the set, and empty exactly when the set is |
| FlightResults.AirlinesAreFirstSeen | spotter_flights/src/components/flightResultPage.js:96-102 | the airline list names every lead carrier; each entry is the carrier, logo included, of the first itinerary with that name; entries are in order of first appearance |
| FlightResults.AirlineNamesDistinct | spotter_flights/src/components/flightResultPage.js:96-102 | no airline name is listed twice |
| FlightResults.UniqueAirlines | spotter_flights/src/components/flightResultPage.js:96-102 | the reduce with its seen-name map builds exactly the first-seen airline list |
| FlightResults.ListedItineraries | spotter_flights/src/components/flightResultPage.js:31-34 | the itineraries are listed exactly when the state carries flightsData, its data, and a non-empty itinerary list; otherwise "No flights found" |
| FlightResults.ResultViewDrawnFromOriginal | spotter_flights/src/components/flightResultPage.js:51-93 | every working set a handler can produce is a sub-multiset of the original set |
| FlightResults.ResultView.constructor | spotter_flights/src/components/flightResultPage.js:24-34 | past the guard, the page starts on page 1 with the whole set, no airline and the 'all' button |
| FlightResults.ResultView.PaginatedFlights | spotter_flights/src/components/flightResultPage.js:38-41 | the page shown has at most 5 itineraries, all from the working set |
| FlightResults.ResultView.PageCount | spotter_flights/src/components/flightResultPage.js:311-316 | the pager offers no pages exactly when the working set is empty, and enough pages to hold it |
| FlightResults.ResultView.Airlines | spotter_flights/src/components/flightResultPage.js:96-102 | the dropdown's airlines are the first-seen lead carriers of the original set, not of the working set |
| FlightResults.ResultView.HandlePageChange | spotter_flights/src/components/flightResultPage.js:43-45 | sets the current page and nothing else |
| FlightResults.ResultView.OnPagerChange | spotter_flights/src/components/flightResultPage.js:311-316 | a page chosen in the pager becomes the current page |
| FlightResults.ResultView.HandleFilterClick | spotter_flights/src/components/flightResultPage.js:47-49 | sets the highlighted button and nothing else |
| FlightResults.ResultView.ResetFilters | spotter_flights/src/components/flightResultPage.js:51-56 | restores the whole original set, clears the airline, goes to page 1 and highlights 'all' |
| FlightResults.ResultView.FilterByCheapest | spotter_flights/src/components/flightResultPage.js:58-65 | the working set becomes the stable price sort of the original set, not of the current working set; nothing else changes |
| FlightResults.ResultView.FilterByDirect | spotter_flights/src/components/flightResultPage.js:67-70 | the working set becomes the original itineraries with 0 stops; nothing else changes |
| FlightResults.ResultView.FilterByOneStop | spotter_flights/src/components/flightResultPage.js:72-75 | the working set becomes the original itineraries with 1 stop; nothing else changes |
| FlightResults.ResultView.FilterByTwoStops | spotter_flights/src/components/flightResultPage.js:77-80 | the working set becomes the original itineraries with 2 stops; nothing else changes |
| FlightResults.ResultView.HandleAirlineChange | spotter_flights/src/components/flightResultPage.js:83-93 | the selected airline is set to the value; the empty value restores the original set, any other keeps the original itineraries whose lead carrier has that name; page and button are untouched |
| FlightResults.ResultView.ClickFilterButton | spotter_flights/src/components/flightResultPage.js:117-156 | 'All Flights' resets; every other button applies its filter and highlights itself, leaving the page and the airline alone |
| FlightResults.ResultView.WorkingSetDrawnFromOriginal | spotter_flights/src/components/flightResultPage.js:51-93 | in every reachable state the working set holds only original itineraries, none more often than the original |
| Pagination.PageCount | spotter_flights/src/components/Pagination.js:6 | the ceiling of totalItems/itemsPerPage: 0 exactly for no items, and otherwise (count-1)*itemsPerPage < totalItems <= count*itemsPerPage |
| Pagination.ItemOnOfferedPage | spotter_flights/src/components/Pagination.js:6 | item i < totalItems falls on page i/itemsPerPage+1, which lies between 1 and the count |
| Pagination.HandleChange | spotter_flights/src/components/Pagination.js:8-10 | the chosen value is forwarded unchanged, whatever the event |
| Apis.SearchAirports | spotter_flights/src/services/APIs.js:5-23 | queries with locale en-US; a failed request yields undefined instead of an error, and a successful one its response |
| Apis.BuildParams | spotter_flights/src/services/APIs.js:27-60 | refused exactly when origin or destination skyId or entityId, or startDate, is falsy; otherwise startDate becomes date, endDate becomes returnDate, sortBy is 'best', currency, market and country default to USD, en-US and US when undefined, and the rest pass through |
| Apis.GuardIgnoresOptionalFields | spotter_flights/src/services/APIs.js:40-42 | the return date, cabin class and passenger count have no influence on whether the guard refuses |
| Apis.FetchFlights | spotter_flights/src/services/APIs.js:27-74 | a refused call fails with the missing-fields error; an accepted one answers what the transport answers for the built parameters |
| Apis.RefusedBeforeRequest | spotter_flights/src/services/APIs.js:40-42 | a refused call gives the same error whatever the transport would do, so no request is made |
| FlightSearch.ToPlace | spotter_flights/src/components/flightSearch.js:33-39 | an option copies skyId and entityId and takes title, subtitle and entity type when truthy, '' otherwise |
| FlightSearch.MapSuggestions | spotter_flights/src/components/flightSearch.js:33-39 | the map succeeds exactly when every suggestion has presentation and navigation, and then gives one option per suggestion in order |
| FlightSearch.AirportOptions | spotter_flights/src/components/flightSearch.js:30-47 | a failed request, a non-array payload or an unreadable suggestion leaves [], and otherwise one option per suggestion in order |
| FlightSearch.PickedOptionSearchable | spotter_flights/src/components/flightSearch.js:77 | a picked option passes the airport guard exactly when its suggestion carried a truthy skyId and entityId |
| FlightSearch.HasAirport | spotter_flights/src/components/flightSearch.js:77 | typed text never passes the guard; a field that passes holds a picked option with both identifiers present |
| FlightSearch.AirportsChosen | spotter_flights/src/components/flightSearch.js:77 | the search goes on only when both fields hold picked options with truthy skyId and entityId; typed text in either field stops it |
| FlightSearch.TripType.Value | spotter_flights/src/components/flightSearch.js:145-146 | the trip type is 'roundtrip' or 'oneway', neither containing '_' |
| FlightSearch.DateOrEmpty | spotter_flights/src/components/flightSearch.js:82-83 | a picker's date, or '' when it is empty |
| FlightSearch.StartDate | spotter_flights/src/components/flightSearch.js:82 | the departure date, or '' without one |
| FlightSearch.EndDate | spotter_flights/src/components/flightSearch.js:83 | '' for one-way trips; for round trips the return date, or '' without one |
| FlightSearch.CreateCacheKey | spotter_flights/src/components/flightSearch.js:72-74 | the key is the five parts joined by four '_', beginning with the origin sky id and '_' and ending with the end date |
| FlightSearch.CacheKeyInjective | spotter_flights/src/components/flightSearch.js:72-74 | keys are equal if and only if both sky ids, the trip type, the start date and the end date are, provided the sky ids and start date hold no '_' |
| FlightSearch.CacheKeyIgnoresOtherFields | spotter_flights/src/components/flightSearch.js:72-74 | only the places' sky ids enter the key; their names, subtitles, types and entity ids do not |
| FlightSearch.SeparatorInIdentifierCollides | spotter_flights/src/components/flightSearch.js:72-74 | with '_' in a sky id, two different routes get the same key |
| FlightSearch.SearchKey | spotter_flights/src/components/flightSearch.js:85 | the search key is the cache key of the two places, the trip type, the start date and, for a round trip, the return date or ''; a one-way search ends in '' |
| FlightSearch.SearchArgs | spotter_flights/src/components/flightSearch.js:97-106 | the fetch gets both places' ids, the class and passenger count, and no currency, market or country; it passes the fetch guard exactly when there is a non-empty departure date |
| FlightSearch.SearchDates | spotter_flights/src/components/flightSearch.js:82-105 | key and request agree on the start date ('' without one); one-way has '' in the key and no return date in the request; a round trip has the return date or '' in both |
| FlightSearch.CachedData | spotter_flights/src/components/flightSearch.js:88-89 | an entry is served exactly while now - timestamp < 3600000, and an entry exactly one hour old is stale |
| FlightSearch.StoredEntryLifetime | spotter_flights/src/components/flightSearch.js:109-112 | an entry stored at t is served exactly at the times before t + 3600000 |
| FlightSearch.StoreKeepsOtherKeys | spotter_flights/src/components/flightSearch.js:109-112 | storing under one key changes nothing any other key serves |
| FlightSearch.FlightCache.constructor | spotter_flights/src/components/flightSearch.js:12 | the cache starts empty |
| FlightSearch.FlightCache.Store | spotter_flights/src/components/flightSearch.js:109-112 | the entry overwrites any earlier one under its key; all other keys keep their entries |
| FlightSearch.Search | spotter_flights/src/components/flightSearch.js:76-121 | a missing airport ends the search with the cache untouched; a fresh entry is shown without a fetch; on a miss a successful fetch is stored under the key with the second clock reading and shown, and a failed one leaves the cache as it was |
| FlightSearch.TransportOnlyOnMiss | spotter_flights/src/components/flightSearch.js:77-92 | when the guard refuses or the entry is fresh, the transport has no influence on the outcome or the cache |
| FlightSearch.RepeatedSearchHitsCache | spotter_flights/src/components/flightSearch.js:88-112 | the same search repeated less than an hour after a fetched one is answered from the cache with the fetched data, and the cache is unchanged |
| FlightSearch.NoDepartureNeverStores | spotter_flights/src/components/flightSearch.js:82-115 | without a departure date a search never stores anything, and on a miss it fails with the missing-fields error |
| FlightSearch.FlightSearchBar.constructor | spotter_flights/src/components/flightSearch.js:17-25 | the form starts as a round trip for 1 passenger in economy, with empty From and To, today to a week later, no options and no spinner |
| FlightSearch.FlightSearchBar.HandleFromInputChange | spotter_flights/src/components/flightSearch.js:28-48 | empty input leaves the From options as they were; otherwise they become the options of the lookup for that input |
| FlightSearch.FlightSearchBar.HandleToInputChange | spotter_flights/src/components/flightSearch.js:50-70 | empty input leaves the To options as they were; otherwise they become the options of the lookup for that input |
| FlightSearch.FlightSearchBar.SelectFrom | spotter_flights/src/components/flightSearch.js:190 | the From field takes the chosen option or typed text |
| FlightSearch.FlightSearchBar.SelectTo | spotter_flights/src/components/flightSearch.js:228 | the To field takes the chosen option or typed text |
| FlightSearch.FlightSearchBar.SelectPassengers | spotter_flights/src/components/flightSearch.js:151 | the passenger count takes the chosen value |
| FlightSearch.FlightSearchBar.SelectClassType | spotter_flights/src/components/flightSearch.js:163 | the cabin class takes the chosen value |
| FlightSearch.FlightSearchBar.HandleTripTypeChange | spotter_flights/src/components/flightSearch.js:136-141 | sets the trip type; one way keeps the departure date and clears the return date; round trip keeps both |
| FlightSearch.FlightSearchBar.PickDeparture | spotter_flights/src/components/flightSearch.js:245-257 | the departure date takes the picked value in both calendar wirings, and the return date is kept (it is already empty on a one-way form) |
| FlightSearch.FlightSearchBar.PickReturn | spotter_flights/src/components/flightSearch.js:245-257 | a round trip takes the picked return date; a one-way form keeps none |
| FlightSearch.FlightSearchBar.HandleSearch | spotter_flights/src/components/flightSearch.js:76-121 | the outcome and the new cache are exactly those of `Search` on the form and the old cache; afterwards the spinner is off and a one-way form still has no return date |

## Left out

- Rendering is not modelled: the JSX and MUI widgets, the header text, the itinerary cards, the "Nonstop" / "n stop(s)" labels, the logos. There is no logic in them beyond what is modelled.
- `FormatDuration` returns the pair (hours, minutes) rather than the string `` `${hours}h ${mins}m` ``.
- `Layover` is modelled on two instants in milliseconds, the `Date` values of the segment times. `SegmentLayovers` gives the layovers the page shows for the first leg's adjacent segments; the rest of that JSX iteration (times, places, flight numbers) is rendering.
- Itinerary ids, leg durations and segment durations are not modelled: the page uses them only as React keys or passes them to `formatDuration` for display.
- `null` is not told apart from `undefined`. The only `null` the core produces is the return date cleared by a one-way trip, and it is read only for truthiness, where both are falsy.
- Routing is not modelled. `navigate('/flight-results', { state })` is the `ShowCached` / `ShowFetched` outcome that carries the data. `useLocation().state` is the argument of `ResultView`'s constructor.
- `alert` and `console` calls are left out. An alert is the `MissingAirports` / `SearchFailed` outcome.
- The HTTP requests, headers and API key are left out. The request is the `transport` parameter, which answers or fails.
- `AirportOptions`: a successful response without a `data` object, whose `response.data.data` read throws and is caught (flightSearch.js:44 and :66), counts the same as a payload that is not an array (`suggestions == None`).
- `lodash.debounce` timing and the race between overlapping suggestion requests are left out. They are concurrency; each input change is modelled as one atomic lookup.
- `async`/`await` and `useState`'s deferred re-render are left out. Each handler is modelled as one atomic update of the state fields.
- `parseFloat(price.raw)`: prices are whole numbers in the model, because floating point is not modelled.
- Dates are opaque: the picker's value is modelled as its `YYYY-MM-DD` string, and the dayjs and `Date` parsing and formatting are not modelled. `dayjs()` and `dayjs().add(1, 'week')` are constructor parameters.
- `ResultView.constructor`: requires the itinerary list to be present and non-empty. The source reads `flightsData.data.itineraries` (flightResultPage.js:25) before its guard (line 32), so missing data crashes the page; the modelled guard `ListedItineraries` covers only the absent-or-empty list.
- `ValidItinerary`: every itinerary is assumed to have `legs[0].carriers.marketing[0]`. The filters, the airline list and the cards read these, and the source throws without them.
- `UniqueAirlines`: the JavaScript `Map` is modelled as the list of entries in insertion order plus the set of its keys.
- The swap button between From and To has no handler in the source, so it has nothing to model.
- `loading` is true only while the fetch is pending. With atomic handlers, the model states only that it is false again after every path.
- The cache is a module-level object shared by every `FlightSearchBar`. It is modelled as a `FlightCache` object that the bar is given.
