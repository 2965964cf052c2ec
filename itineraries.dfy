/** The part of the flight-search response that the results page reads.
    The remote service always sends a first leg with at least one marketing
    carrier; `ValidItinerary` records that, since every filter and the airline
    list read `legs[0]` and `legs[0].carriers.marketing[0]`. */
module Itineraries {
  import opened JsValues

  datatype Carrier = Carrier(name: string, logoUrl: string)

  /** One flight; departure and arrival are instants in milliseconds. */
  datatype Segment = Segment(departure: int, arrival: int)

  /** One direction of travel. `marketing` is `carriers.marketing`. */
  datatype Leg = Leg(stopCount: int, marketing: seq<Carrier>, segments: seq<Segment>)

  /** A priced option; `price` is `price.raw` read as a whole number. */
  datatype Itinerary = Itinerary(price: int, legs: seq<Leg>)

  predicate HasLeadCarrier(it: Itinerary)
  {
    |it.legs| > 0 && |it.legs[0].marketing| > 0
  }

  type ValidItinerary = it: Itinerary | HasLeadCarrier(it)
    witness Itinerary(0, [Leg(0, [Carrier("", "")], [])])

  /** `legs[0].stopCount`. */
  function StopCount(it: ValidItinerary): (stops: int)
  {
    it.legs[0].stopCount
  }

  /** `legs[0].carriers.marketing[0]`. */
  function LeadCarrier(it: ValidItinerary): (carrier: Carrier)
  {
    it.legs[0].marketing[0]
  }

  /** `data.itineraries` of the response body; either level may be missing. */
  datatype ResultData = ResultData(itineraries: Option<seq<ValidItinerary>>)
  datatype FlightsData = FlightsData(data: Option<ResultData>)
}
