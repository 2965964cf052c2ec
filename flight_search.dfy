/** The search form: the airport suggestions, the form state, and the
    in-memory cache of search results in front of `fetchFlights`. */
module FlightSearch {
  import opened JsValues
  import opened Itineraries
  import opened Apis

  // ------------------------------------------------------ airport options

  /** An option of the From/To autocomplete, built from one suggestion. */
  datatype Place = Place(name: string, subtitle: string, entityType: string, skyId: Field, entityId: Field)

  /** A suggestion the mapping can read: `item.presentation.suggestionTitle`
      and `item.navigation.entityType` throw when either object is missing. */
  predicate WellShaped(item: Suggestion)
  {
    item.presentation.Some? && item.navigation.Some?
  }

  /** One option: the display strings fall back to `''`, the identifiers are
      copied as they are. */
  function ToPlace(item: Suggestion): (place: Place)
    requires WellShaped(item)
    ensures place.skyId == item.skyId && place.entityId == item.entityId
    ensures Truthy(item.presentation.value.suggestionTitle) ==> place.name == item.presentation.value.suggestionTitle.value
    ensures !Truthy(item.presentation.value.suggestionTitle) ==> place.name == ""
    ensures Truthy(item.presentation.value.subtitle) ==> place.subtitle == item.presentation.value.subtitle.value
    ensures !Truthy(item.presentation.value.subtitle) ==> place.subtitle == ""
    ensures Truthy(item.navigation.value.entityType) ==> place.entityType == item.navigation.value.entityType.value
    ensures !Truthy(item.navigation.value.entityType) ==> place.entityType == ""
  {
    Place(OrEmpty(item.presentation.value.suggestionTitle),
          OrEmpty(item.presentation.value.subtitle),
          OrEmpty(item.navigation.value.entityType),
          item.skyId, item.entityId)
  }

  /** `response.data.data.map(...)`: one option per suggestion, in order, or
      `None` when some suggestion cannot be read (the map throws). */
  function MapSuggestions(items: seq<Suggestion>): (places: Option<seq<Place>>)
    ensures places.Some? <==> forall k :: 0 <= k < |items| ==> WellShaped(items[k])
    ensures places.Some? ==> |places.value| == |items|
    ensures places.Some? ==> forall k :: 0 <= k < |items| ==> places.value[k] == ToPlace(items[k])
  {
    if items == [] then Some([])
    else if !WellShaped(items[0]) then None
    else
      match MapSuggestions(items[1..])
      case None => None
      case Some(rest) => Some([ToPlace(items[0])] + rest)
  }

  /** The options list a suggestion lookup leaves behind: `[]` for a missing
      response, a non-array payload or a thrown mapping. */
  function AirportOptions(response: Option<AirportResponse>): (options: seq<Place>)
    ensures response.None? ==> options == []
    ensures response.Some? && response.value.suggestions.None? ==> options == []
    ensures response.Some? && response.value.suggestions.Some?
            && (exists k :: 0 <= k < |response.value.suggestions.value|
                            && !WellShaped(response.value.suggestions.value[k]))
            ==> options == []
    ensures response.Some? && response.value.suggestions.Some?
            && (forall k :: 0 <= k < |response.value.suggestions.value|
                            ==> WellShaped(response.value.suggestions.value[k]))
            ==> && |options| == |response.value.suggestions.value|
                && forall k :: 0 <= k < |options| ==> options[k] == ToPlace(response.value.suggestions.value[k])
  {
    match response
    case None => []
    case Some(r) =>
      match r.suggestions
      case None => []
      case Some(items) =>
        match MapSuggestions(items)
        case None => []
        case Some(places) => places
  }

  // ------------------------------------------------------------ the form

  /** What the From or To field holds: typed text (`''` at first, or free
      text entered without picking) or a picked option. */
  datatype Selection = Typed(text: string) | Picked(place: Place)

  /** The part of the search guard about one field: a picked option with a
      truthy `skyId` and a truthy `entityId`. */
  predicate HasAirport(sel: Selection)
    ensures sel.Typed? ==> !HasAirport(sel)
    ensures HasAirport(sel) ==> sel.place.skyId.Some? && sel.place.entityId.Some?
  {
    sel.Picked? && Truthy(sel.place.skyId) && Truthy(sel.place.entityId)
  }

  /** Picking option `k` of a lookup's options satisfies the guard exactly
      when the suggestion it came from carried both identifiers. */
  lemma PickedOptionSearchable(response: AirportResponse, k: nat)
    requires response.suggestions.Some?
    requires forall j :: 0 <= j < |response.suggestions.value| ==> WellShaped(response.suggestions.value[j])
    requires k < |response.suggestions.value|
    ensures k < |AirportOptions(Some(response))|
    ensures HasAirport(Picked(AirportOptions(Some(response))[k]))
        <==> Truthy(response.suggestions.value[k].skyId) && Truthy(response.suggestions.value[k].entityId)
  {
    assert AirportOptions(Some(response))[k] == ToPlace(response.suggestions.value[k]);
  }

  datatype TripType = RoundTrip | OneWay
  {
    /** The select's value: `'roundtrip'` or `'oneway'`. */
    function Value(): (s: string)
      ensures '_' !in s
      ensures s == "roundtrip" || s == "oneway"
    {
      match this
      case RoundTrip => "roundtrip"
      case OneWay => "oneway"
    }
  }

  /** The form state `handleSearch` reads. Dates are already formatted as
      `YYYY-MM-DD`; `None` is an empty date picker. */
  datatype SearchForm = SearchForm(
    tripType: TripType, passengers: int, classType: string,
    from: Selection, to: Selection,
    departure: Option<string>, returnDate: Option<string>)

  /** The guard at the top of `handleSearch`. */
  predicate AirportsChosen(form: SearchForm)
    ensures AirportsChosen(form) ==>
              && form.from.Picked? && form.to.Picked?
              && Truthy(form.from.place.skyId) && Truthy(form.to.place.skyId)
              && Truthy(form.from.place.entityId) && Truthy(form.to.place.entityId)
    ensures form.from.Typed? || form.to.Typed? ==> !AirportsChosen(form)
  {
    HasAirport(form.from) && HasAirport(form.to)
  }

  /** A picked date, or `''` for an empty picker. */
  function DateOrEmpty(picked: Option<string>): (date: string)
    ensures picked.None? ==> date == ""
    ensures picked.Some? ==> date == picked.value
  {
    match picked
    case None => ""
    case Some(d) => d
  }

  /** `startDate`: the departure date, or `''` without one. */
  function StartDate(departure: Option<string>): (date: string)
    ensures departure.None? ==> date == ""
    ensures departure.Some? ==> date == departure.value
  {
    DateOrEmpty(departure)
  }

  /** `endDate`: the return date of a round trip, or `''`. */
  function EndDate(tripType: TripType, returnDate: Option<string>): (date: string)
    ensures tripType == OneWay ==> date == ""
    ensures tripType == RoundTrip && returnDate.None? ==> date == ""
    ensures tripType == RoundTrip && returnDate.Some? ==> date == returnDate.value
  {
    match tripType
    case OneWay => ""
    case RoundTrip => DateOrEmpty(returnDate)
  }

  // ------------------------------------------------------------ cache key

  /** `createCacheKey`: the five components joined by `_`; a missing `skyId`
      is rendered as `undefined`. */
  function CreateCacheKey(from: Place, to: Place, tripType: TripType, startDate: string, endDate: string): (key: string)
    ensures |key| == |Render(from.skyId)| + |Render(to.skyId)| + |tripType.Value()| + |startDate| + |endDate| + 4
    ensures key[..|Render(from.skyId)| + 1] == Render(from.skyId) + "_"
    ensures key[|key| - |endDate|..] == endDate
  {
    Render(from.skyId) + "_" + Render(to.skyId) + "_" + tripType.Value() + "_" + startDate + "_" + endDate
  }

  /** The text before the first `_`. */
  function BeforeSeparator(s: string): (head: string)
    ensures '_' !in head
  {
    if |s| == 0 || s[0] == '_' then "" else [s[0]] + BeforeSeparator(s[1..])
  }

  lemma {:induction false} BeforeSeparatorOf(a: string, b: string)
    requires '_' !in a
    ensures BeforeSeparator(a + "_" + b) == a
  {
    if |a| == 0 {
      assert a + "_" + b == "_" + b;
    } else {
      assert (a + "_" + b)[0] == a[0];
      assert (a + "_" + b)[1..] == a[1..] + "_" + b;
      BeforeSeparatorOf(a[1..], b);
    }
  }

  /** Joining with `_` can be undone when the head holds no `_`. */
  lemma SplitAtSeparator(a: string, b: string, c: string, d: string)
    requires '_' !in a && '_' !in c
    requires a + "_" + b == c + "_" + d
    ensures a == c && b == d
  {
    BeforeSeparatorOf(a, b);
    BeforeSeparatorOf(c, d);
    assert (a + "_" + b)[|a| + 1..] == b;
    assert (c + "_" + d)[|c| + 1..] == d;
  }

  /** The key read from the left as one component, `_`, and the rest. */
  lemma KeyNesting(a: string, b: string, c: string, d: string, e: string)
    ensures a + "_" + b + "_" + c + "_" + d + "_" + e == a + "_" + (b + "_" + (c + "_" + (d + "_" + e)))
  {
  }

  /** Identical components give identical keys and, as long as the sky
      identifiers and the start date hold no `_`, different components give
      different keys. */
  lemma CacheKeyInjective(from1: Place, to1: Place, tripType1: TripType, startDate1: string, endDate1: string,
                          from2: Place, to2: Place, tripType2: TripType, startDate2: string, endDate2: string)
    requires '_' !in Render(from1.skyId) && '_' !in Render(to1.skyId) && '_' !in startDate1
    requires '_' !in Render(from2.skyId) && '_' !in Render(to2.skyId) && '_' !in startDate2
    ensures CreateCacheKey(from1, to1, tripType1, startDate1, endDate1)
         == CreateCacheKey(from2, to2, tripType2, startDate2, endDate2)
        <==> && Render(from1.skyId) == Render(from2.skyId) && Render(to1.skyId) == Render(to2.skyId)
             && tripType1 == tripType2 && startDate1 == startDate2 && endDate1 == endDate2
  {
    var f1, t1, y1 := Render(from1.skyId), Render(to1.skyId), tripType1.Value();
    var f2, t2, y2 := Render(from2.skyId), Render(to2.skyId), tripType2.Value();
    KeyNesting(f1, t1, y1, startDate1, endDate1);
    KeyNesting(f2, t2, y2, startDate2, endDate2);
    if CreateCacheKey(from1, to1, tripType1, startDate1, endDate1)
       == CreateCacheKey(from2, to2, tripType2, startDate2, endDate2) {
      var d1, d2 := startDate1 + "_" + endDate1, startDate2 + "_" + endDate2;
      var y1r, y2r := y1 + "_" + d1, y2 + "_" + d2;
      SplitAtSeparator(f1, t1 + "_" + y1r, f2, t2 + "_" + y2r);
      SplitAtSeparator(t1, y1r, t2, y2r);
      SplitAtSeparator(y1, d1, y2, d2);
      SplitAtSeparator(startDate1, endDate1, startDate2, endDate2);
    }
  }

  /** Only the sky identifiers of the two places go into the key. */
  lemma CacheKeyIgnoresOtherFields(from1: Place, to1: Place, from2: Place, to2: Place,
                                   tripType: TripType, startDate: string, endDate: string)
    requires from1.skyId == from2.skyId && to1.skyId == to2.skyId
    ensures CreateCacheKey(from1, to1, tripType, startDate, endDate)
         == CreateCacheKey(from2, to2, tripType, startDate, endDate)
  {
  }

  /** With a `_` inside a sky identifier two different routes share a key. */
  lemma SeparatorInIdentifierCollides()
    ensures var a := Place("", "", "", Some("A_B"), Some("1"));
            var b := Place("", "", "", Some("C"), Some("2"));
            var c := Place("", "", "", Some("A"), Some("1"));
            var d := Place("", "", "", Some("B_C"), Some("2"));
            a.skyId != c.skyId
            && CreateCacheKey(a, b, OneWay, "", "") == CreateCacheKey(c, d, OneWay, "", "")
  {
    var a := Place("", "", "", Some("A_B"), Some("1"));
    var b := Place("", "", "", Some("C"), Some("2"));
    var c := Place("", "", "", Some("A"), Some("1"));
    var d := Place("", "", "", Some("B_C"), Some("2"));
    assert |a.skyId.value| != |c.skyId.value|;
    var tail := "_" + OneWay.Value() + "_" + "" + "_" + "";
    assert CreateCacheKey(a, b, OneWay, "", "") == "A_B" + "_" + "C" + tail;
    assert CreateCacheKey(c, d, OneWay, "", "") == "A" + "_" + "B_C" + tail;
    assert "A_B" + "_" + "C" == "A" + "_" + "B_C";
  }

  /** The key of a form that passed the guard. */
  function SearchKey(form: SearchForm): (key: string)
    requires AirportsChosen(form)
    ensures form.tripType == OneWay ==>
              key == CreateCacheKey(form.from.place, form.to.place, OneWay, StartDate(form.departure), "")
    ensures form.tripType == RoundTrip ==>
              key == CreateCacheKey(form.from.place, form.to.place, RoundTrip,
                                    StartDate(form.departure), DateOrEmpty(form.returnDate))
    ensures key[..|form.from.place.skyId.value| + 1] == form.from.place.skyId.value + "_"
  {
    CreateCacheKey(form.from.place, form.to.place, form.tripType,
                   StartDate(form.departure), EndDate(form.tripType, form.returnDate))
  }

  /** The argument object given to `fetchFlights`; currency, market and
      country code are not supplied. */
  function SearchArgs(form: SearchForm): (args: FetchArgs)
    requires AirportsChosen(form)
    ensures args.originSkyId == form.from.place.skyId && args.destinationSkyId == form.to.place.skyId
    ensures args.originEntityId == form.from.place.entityId && args.destinationEntityId == form.to.place.entityId
    ensures args.cabinClass == form.classType && args.adults == form.passengers
    ensures args.currency.None? && args.market.None? && args.countryCode.None?
    ensures BuildParams(args).Success? <==> form.departure.Some? && form.departure.value != ""
  {
    FetchArgs(form.from.place.skyId, form.to.place.skyId,
              form.from.place.entityId, form.to.place.entityId,
              form.classType, form.passengers,
              Some(StartDate(form.departure)),
              if form.tripType == RoundTrip then Some(EndDate(form.tripType, form.returnDate)) else None,
              None, None, None)
  }

  /** The dates of a search: the key and the request agree on the start
      date; a one-way search has `''` as end date in the key and no return
      date in the request, a round trip the formatted return date or `''` in
      both. */
  lemma SearchDates(form: SearchForm)
    requires AirportsChosen(form)
    ensures SearchKey(form) == CreateCacheKey(form.from.place, form.to.place, form.tripType,
                                              SearchArgs(form).startDate.value,
                                              if form.tripType == OneWay then "" else SearchArgs(form).endDate.value)
    ensures form.departure.None? ==> SearchArgs(form).startDate == Some("")
    ensures form.tripType == OneWay ==> SearchArgs(form).endDate.None?
    ensures form.tripType == RoundTrip ==>
              SearchArgs(form).endDate == Some(if form.returnDate.Some? then form.returnDate.value else "")
  {
  }

  // ---------------------------------------------------------------- cache

  /** One hour, in milliseconds. */
  const CacheExpirationTime := 60 * 60 * 1000

  datatype CacheEntry = CacheEntry(data: FlightsData, timestamp: int)

  /** The cached data for `key` at time `now`: present only while the entry
      is younger than one hour; at exactly one hour it is stale. */
  function CachedData(entries: map<string, CacheEntry>, key: string, now: int): (hit: Option<FlightsData>)
    ensures hit.Some? <==> key in entries && now - entries[key].timestamp < 3600000
    ensures hit.Some? ==> hit.value == entries[key].data
    ensures key in entries && now - entries[key].timestamp == 3600000 ==> hit.None?
  {
    if key in entries && now - entries[key].timestamp < CacheExpirationTime
    then Some(entries[key].data) else None
  }

  /** An entry written at `storedAt` is served from then until, but not
      including, one hour later. */
  lemma StoredEntryLifetime(entries: map<string, CacheEntry>, key: string, data: FlightsData, storedAt: int, now: int)
    ensures CachedData(entries[key := CacheEntry(data, storedAt)], key, now)
         == (if now < storedAt + CacheExpirationTime then Some(data) else None)
  {
  }

  /** Writing one key leaves what every other key serves as it was. */
  lemma StoreKeepsOtherKeys(entries: map<string, CacheEntry>, key: string, entry: CacheEntry, other: string, now: int)
    requires other != key
    ensures CachedData(entries[key := entry], other, now) == CachedData(entries, other, now)
  {
  }

  /** The shared `flightCache` object. */
  class FlightCache {
    var entries: map<string, CacheEntry>

    constructor ()
      ensures entries == map[]
    {
      entries := map[];
    }

    /** `flightCache[cacheKey] = entry`, overwriting any earlier entry. */
    method Store(key: string, entry: CacheEntry)
      modifies this
      ensures entries == old(entries)[key := entry]
      ensures key in entries && entries[key] == entry
      ensures forall k :: k != key ==> (k in entries <==> k in old(entries))
      ensures forall k :: k != key && k in entries ==> entries[k] == old(entries)[k]
    {
      entries := entries[key := entry];
    }
  }

  // --------------------------------------------------------------- search

  /** How a search ends: the alert about missing airports, navigation with
      cached or with fetched data, or the alert after a failed fetch. */
  datatype SearchOutcome =
    | MissingAirports
    | ShowCached(data: FlightsData)
    | ShowFetched(data: FlightsData)
    | SearchFailed(error: ApiError)

  /** `handleSearch` on values: the outcome and the cache afterwards. The
      clock is read twice, at the lookup (`now`) and when the result is
      stored (`storedAt`). */
  function Search(form: SearchForm, entries: map<string, CacheEntry>, now: int, storedAt: int,
                  transport: QueryParams -> Result<FlightsData, ApiError>)
    : (step: (SearchOutcome, map<string, CacheEntry>))
    ensures step.0.MissingAirports? <==> !AirportsChosen(form)
    ensures !step.0.ShowFetched? ==> step.1 == entries
    ensures AirportsChosen(form) ==> (step.0.ShowCached? <==> CachedData(entries, SearchKey(form), now).Some?)
    ensures step.0.ShowCached? ==> CachedData(entries, SearchKey(form), now) == Some(step.0.data)
    ensures step.0.ShowFetched? ==>
              && AirportsChosen(form)
              && FetchFlights(SearchArgs(form), transport) == Success(step.0.data)
              && step.1 == entries[SearchKey(form) := CacheEntry(step.0.data, storedAt)]
    ensures step.0.SearchFailed? ==>
              && AirportsChosen(form)
              && CachedData(entries, SearchKey(form), now).None?
              && FetchFlights(SearchArgs(form), transport) == Failure(step.0.error)
  {
    if !AirportsChosen(form) then (MissingAirports, entries)
    else
      var key := SearchKey(form);
      match CachedData(entries, key, now)
      case Some(data) => (ShowCached(data), entries)
      case None =>
        match FetchFlights(SearchArgs(form), transport)
        case Success(data) => (ShowFetched(data), entries[key := CacheEntry(data, storedAt)])
        case Failure(e) => (SearchFailed(e), entries)
  }

  /** The transport is consulted only on a miss: a refused form or a fresh
      entry gives the same answer whatever the transport would do. */
  lemma TransportOnlyOnMiss(form: SearchForm, entries: map<string, CacheEntry>, now: int, storedAt: int,
                            t1: QueryParams -> Result<FlightsData, ApiError>,
                            t2: QueryParams -> Result<FlightsData, ApiError>)
    requires !AirportsChosen(form) || CachedData(entries, SearchKey(form), now).Some?
    ensures Search(form, entries, now, storedAt, t1) == Search(form, entries, now, storedAt, t2)
  {
  }

  /** A second identical search less than an hour after a fetched one is
      answered from the cache, with the data fetched the first time. */
  lemma {:induction false} RepeatedSearchHitsCache(form: SearchForm, entries: map<string, CacheEntry>,
                                now1: int, storedAt: int, now2: int, storedAt2: int,
                                t1: QueryParams -> Result<FlightsData, ApiError>,
                                t2: QueryParams -> Result<FlightsData, ApiError>)
    requires Search(form, entries, now1, storedAt, t1).0.ShowFetched?
    requires now2 < storedAt + CacheExpirationTime
    ensures var first := Search(form, entries, now1, storedAt, t1);
            Search(form, first.1, now2, storedAt2, t2) == (ShowCached(first.0.data), first.1)
  {
    var first := Search(form, entries, now1, storedAt, t1);
    StoredEntryLifetime(entries, SearchKey(form), first.0.data, storedAt, now2);
  }

  /** Without a departure date the request is refused by `fetchFlights`, so
      a search never stores anything. */
  lemma NoDepartureNeverStores(form: SearchForm, entries: map<string, CacheEntry>, now: int, storedAt: int,
                               transport: QueryParams -> Result<FlightsData, ApiError>)
    requires form.departure.None? || form.departure.value == ""
    ensures Search(form, entries, now, storedAt, transport).1 == entries
    ensures AirportsChosen(form) && CachedData(entries, SearchKey(form), now).None?
            ==> Search(form, entries, now, storedAt, transport).0 == SearchFailed(MissingRequiredFields)
  {
    if AirportsChosen(form) {
      assert BuildParams(SearchArgs(form)).Failure?;
    }
  }

  // ------------------------------------------------------ the search bar

  /** The `FlightSearchBar` component: its pieces of state and the shared
      cache. `departure` and `returnDate` are the two halves of `dateRange`. */
  class FlightSearchBar {
    const cache: FlightCache
    var tripType: TripType
    var passengers: int
    var classType: string
    var from: Selection
    var to: Selection
    var departure: Option<string>
    var returnDate: Option<string>
    var fromOptions: seq<Place>
    var toOptions: seq<Place>
    var loading: bool

    /** Between handlers the spinner is off, and a one-way form has no
        return date. */
    ghost predicate Valid()
      reads this
    {
      !loading && (tripType == OneWay ==> returnDate.None?)
    }

    function Form(): (form: SearchForm)
      reads this
    {
      SearchForm(tripType, passengers, classType, from, to, departure, returnDate)
    }

    /** The initial state; `today` and `nextWeek` are `dayjs()` and
        `dayjs().add(1, 'week')`. */
    constructor (cache: FlightCache, today: string, nextWeek: string)
      ensures Valid()
      ensures this.cache == cache
      ensures tripType == RoundTrip && passengers == 1 && classType == "economy"
      ensures from == Typed("") && to == Typed("")
      ensures departure == Some(today) && returnDate == Some(nextWeek)
      ensures fromOptions == [] && toOptions == []
    {
      this.cache := cache;
      tripType := RoundTrip;
      passengers := 1;
      classType := "economy";
      from := Typed("");
      to := Typed("");
      departure := Some(today);
      returnDate := Some(nextWeek);
      fromOptions := [];
      toOptions := [];
      loading := false;
    }

    /** `handleFromInputChange`, after its debounce delay. */
    method HandleFromInputChange(inputValue: string, transport: AirportQuery -> Result<AirportResponse, ApiError>)
      requires Valid()
      modifies this`fromOptions
      ensures Valid()
      ensures inputValue == "" ==> fromOptions == old(fromOptions)
      ensures inputValue != "" ==> fromOptions == AirportOptions(SearchAirports(inputValue, transport))
    {
      if inputValue != "" {
        fromOptions := AirportOptions(SearchAirports(inputValue, transport));
      }
    }

    /** `handleToInputChange`, after its debounce delay. */
    method HandleToInputChange(inputValue: string, transport: AirportQuery -> Result<AirportResponse, ApiError>)
      requires Valid()
      modifies this`toOptions
      ensures Valid()
      ensures inputValue == "" ==> toOptions == old(toOptions)
      ensures inputValue != "" ==> toOptions == AirportOptions(SearchAirports(inputValue, transport))
    {
      if inputValue != "" {
        toOptions := AirportOptions(SearchAirports(inputValue, transport));
      }
    }

    method SelectFrom(value: Selection)
      requires Valid()
      modifies this`from
      ensures Valid() && from == value
    {
      from := value;
    }

    method SelectTo(value: Selection)
      requires Valid()
      modifies this`to
      ensures Valid() && to == value
    {
      to := value;
    }

    method SelectPassengers(value: int)
      requires Valid()
      modifies this`passengers
      ensures Valid() && passengers == value
    {
      passengers := value;
    }

    method SelectClassType(value: string)
      requires Valid()
      modifies this`classType
      ensures Valid() && classType == value
    {
      classType := value;
    }

    /** The trip-type select: one way keeps the departure date and clears
        the return date. */
    method HandleTripTypeChange(value: TripType)
      requires Valid()
      modifies this`tripType, this`returnDate
      ensures Valid()
      ensures tripType == value
      ensures value == OneWay ==> returnDate.None?
      ensures value == RoundTrip ==> returnDate == old(returnDate)
    {
      tripType := value;
      if value == OneWay {
        returnDate := None;
      }
    }

    /** The departure picker, in either calendar wiring. */
    method PickDeparture(value: Option<string>)
      requires Valid()
      modifies this`departure, this`returnDate
      ensures Valid()
      ensures departure == value && returnDate == old(returnDate)
    {
      departure := value;
      if tripType == OneWay {
        returnDate := None;
      }
    }

    /** The return picker: a round trip takes the date, a one-way form
        drops it again. */
    method PickReturn(value: Option<string>)
      requires Valid()
      modifies this`returnDate
      ensures Valid()
      ensures tripType == RoundTrip ==> returnDate == value
      ensures tripType == OneWay ==> returnDate.None?
    {
      if tripType == RoundTrip {
        returnDate := value;
      } else {
        returnDate := None;
      }
    }

    /** `handleSearch`: the outcome and the new cache are those of `Search`
        on the form; the spinner is off again on every path. */
    method HandleSearch(now: int, storedAt: int, transport: QueryParams -> Result<FlightsData, ApiError>)
      returns (outcome: SearchOutcome)
      requires Valid()
      modifies this`loading, cache
      ensures Valid()
      ensures (outcome, cache.entries) == Search(Form(), old(cache.entries), now, storedAt, transport)
    {
      if !HasAirport(from) || !HasAirport(to) {
        return MissingAirports;
      }
      var startDate := StartDate(departure);
      var endDate := EndDate(tripType, returnDate);
      var key := CreateCacheKey(from.place, to.place, tripType, startDate, endDate);
      var cached := CachedData(cache.entries, key, now);
      if cached.Some? {
        return ShowCached(cached.value);
      }
      loading := true;
      var fetched := FetchFlights(SearchArgs(Form()), transport);
      match fetched {
        case Success(data) =>
          cache.Store(key, CacheEntry(data, storedAt));
          outcome := ShowFetched(data);
        case Failure(e) =>
          outcome := SearchFailed(e);
      }
      loading := false;
    }
  }
}
