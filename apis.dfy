/** The two calls to the remote flight-search service. Only what happens
    around the HTTP request is modelled: the request itself is the `transport`
    parameter, which either answers or fails. */
module Apis {
  import opened JsValues
  import opened Itineraries

  datatype ApiError =
    | MissingRequiredFields        // thrown by `fetchFlights` before any request
    | TransportFailure(reason: string)

  // ---------------------------------------------------------------- airports

  const Locale := "en-US"

  /** The query parameters of the airport search request. */
  datatype AirportQuery = AirportQuery(query: string, locale: string)

  datatype Presentation = Presentation(suggestionTitle: Field, subtitle: Field)
  datatype Navigation = Navigation(entityType: Field)

  /** One element of `response.data.data`; `presentation` or `navigation`
      may be missing. */
  datatype Suggestion = Suggestion(
    skyId: Field, entityId: Field,
    presentation: Option<Presentation>, navigation: Option<Navigation>)

  /** A response; `suggestions` is `None` when `response.data.data` is not an
      array. */
  datatype AirportResponse = AirportResponse(suggestions: Option<seq<Suggestion>>)

  /** `searchAirports`: never throws; a failed request yields `undefined`. */
  function SearchAirports(query: string, transport: AirportQuery -> Result<AirportResponse, ApiError>)
    : (response: Option<AirportResponse>)
    ensures transport(AirportQuery(query, "en-US")).Failure? <==> response.None?
    ensures response.Some? ==> response.value == transport(AirportQuery(query, "en-US")).value
  {
    match transport(AirportQuery(query, Locale))
    case Success(r) => Some(r)
    case Failure(_) => None
  }

  // ----------------------------------------------------------------- flights

  const DefaultCurrency := "USD"
  const DefaultMarket := "en-US"
  const DefaultCountryCode := "US"
  const SortBy := "best"

  /** The argument object of `fetchFlights`. */
  datatype FetchArgs = FetchArgs(
    originSkyId: Field, destinationSkyId: Field,
    originEntityId: Field, destinationEntityId: Field,
    cabinClass: string, adults: int,
    startDate: Field, endDate: Field,
    currency: Field, market: Field, countryCode: Field)

  /** The query parameters of the flight search request. */
  datatype QueryParams = QueryParams(
    originSkyId: string, destinationSkyId: string,
    originEntityId: string, destinationEntityId: string,
    date: string, returnDate: Field,
    cabinClass: string, adults: int, sortBy: string,
    currency: string, market: string, countryCode: string)

  /** The guard of `fetchFlights` followed by the construction of `params`. */
  function BuildParams(args: FetchArgs): (r: Result<QueryParams, ApiError>)
    ensures !Truthy(args.originSkyId) ==> r == Failure(MissingRequiredFields)
    ensures !Truthy(args.destinationSkyId) ==> r == Failure(MissingRequiredFields)
    ensures !Truthy(args.originEntityId) ==> r == Failure(MissingRequiredFields)
    ensures !Truthy(args.destinationEntityId) ==> r == Failure(MissingRequiredFields)
    ensures !Truthy(args.startDate) ==> r == Failure(MissingRequiredFields)
    ensures r.Success? <==>
      && Truthy(args.originSkyId) && Truthy(args.destinationSkyId)
      && Truthy(args.originEntityId) && Truthy(args.destinationEntityId)
      && Truthy(args.startDate)
    ensures r.Success? ==>
      && r.value.originSkyId == args.originSkyId.value
      && r.value.destinationSkyId == args.destinationSkyId.value
      && r.value.originEntityId == args.originEntityId.value
      && r.value.destinationEntityId == args.destinationEntityId.value
      && r.value.date == args.startDate.value
      && r.value.returnDate == args.endDate
      && r.value.cabinClass == args.cabinClass
      && r.value.adults == args.adults
      && r.value.sortBy == "best"
      && r.value.currency == (if args.currency.None? then "USD" else args.currency.value)
      && r.value.market == (if args.market.None? then "en-US" else args.market.value)
      && r.value.countryCode == (if args.countryCode.None? then "US" else args.countryCode.value)
  {
    if !Truthy(args.originSkyId) || !Truthy(args.destinationSkyId)
       || !Truthy(args.originEntityId) || !Truthy(args.destinationEntityId)
       || !Truthy(args.startDate)
    then Failure(MissingRequiredFields)
    else Success(QueryParams(
      args.originSkyId.value, args.destinationSkyId.value,
      args.originEntityId.value, args.destinationEntityId.value,
      args.startDate.value, args.endDate,
      args.cabinClass, args.adults, SortBy,
      OrDefault(args.currency, DefaultCurrency),
      OrDefault(args.market, DefaultMarket),
      OrDefault(args.countryCode, DefaultCountryCode)))
  }

  /** The return date, the cabin class and the passenger count play no part
      in the guard: a search without a return date is let through. */
  lemma GuardIgnoresOptionalFields(args: FetchArgs, endDate: Field, cabinClass: string, adults: int)
    ensures BuildParams(args).Success?
        <==> BuildParams(args.(endDate := endDate, cabinClass := cabinClass, adults := adults)).Success?
  {
  }

  /** `fetchFlights`: the body of the response, or the error. */
  function FetchFlights(args: FetchArgs, transport: QueryParams -> Result<FlightsData, ApiError>)
    : (r: Result<FlightsData, ApiError>)
    ensures BuildParams(args).Failure? ==> r == Failure(MissingRequiredFields)
    ensures BuildParams(args).Success? ==> r == transport(BuildParams(args).value)
  {
    match BuildParams(args)
    case Failure(e) => Failure(e)
    case Success(params) => transport(params)
  }

  /** A call the guard refuses never reaches the transport: its result is the
      same whatever the transport would have answered. */
  lemma RefusedBeforeRequest(args: FetchArgs,
                             t1: QueryParams -> Result<FlightsData, ApiError>,
                             t2: QueryParams -> Result<FlightsData, ApiError>)
    requires !Truthy(args.originSkyId) || !Truthy(args.destinationSkyId)
          || !Truthy(args.originEntityId) || !Truthy(args.destinationEntityId)
          || !Truthy(args.startDate)
    ensures FetchFlights(args, t1) == FetchFlights(args, t2) == Failure(MissingRequiredFields)
  {
  }
}
