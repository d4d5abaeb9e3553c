/**
 * The two fixed tables of FlightsApp: the popular-destination tiles and the
 * three mock flight offers that every completed search shows.
 */
module Catalog {

  /** One end of a flight leg. */
  datatype Endpoint = Endpoint(time: string, airport: string, city: string)

  /**
   * A flight offer. `price` is in whole dollars; the star rating, a one-digit
   * decimal in the source, is kept exactly as tenths (4.2 is 42).
   */
  datatype FlightOffer = FlightOffer(
    id: nat,
    airline: string,
    flightNumber: string,
    departure: Endpoint,
    arrival: Endpoint,
    duration: string,
    stops: string,
    price: nat,
    ratingTenths: nat)

  /** A destination tile; `price` is the display string shown on the tile. */
  datatype Destination = Destination(city: string, country: string, code: string, price: string)

  const PopularDestinations: seq<Destination> := [
    Destination("New York", "USA", "NYC", "$299"),
    Destination("London", "UK", "LON", "$599"),
    Destination("Paris", "France", "PAR", "$649"),
    Destination("Tokyo", "Japan", "NRT", "$899"),
    Destination("Dubai", "UAE", "DXB", "$799"),
    Destination("Sydney", "Australia", "SYD", "$1199")
  ]

  /** The airport codes a destination tile can put into the "to" field. */
  const DestinationCodes: set<string> := {"NYC", "LON", "PAR", "NRT", "DXB", "SYD"}

  const MockFlights: seq<FlightOffer> := [
    FlightOffer(1, "American Airlines", "AA1234",
      Endpoint("08:30", "JFK", "New York"), Endpoint("11:45", "LAX", "Los Angeles"),
      "5h 15m", "Nonstop", 299, 42),
    FlightOffer(2, "Delta Air Lines", "DL5678",
      Endpoint("14:20", "JFK", "New York"), Endpoint("17:55", "LAX", "Los Angeles"),
      "5h 35m", "Nonstop", 329, 45),
    FlightOffer(3, "United Airlines", "UA9012",
      Endpoint("19:10", "JFK", "New York"), Endpoint("22:30", "LAX", "Los Angeles"),
      "5h 20m", "Nonstop", 279, 40)
  ]

  /** The code of destination tile `i`. */
  function TileCode(i: nat): (code: string)
    requires i < |PopularDestinations|
    ensures code in DestinationCodes
    ensures |code| == 3
  {
    PopularDestinations[i].code
  }

  /** Every code in DestinationCodes belongs to some tile. */
  lemma EveryCodeHasATile(code: string)
    requires code in DestinationCodes
    ensures exists i :: 0 <= i < |PopularDestinations| && TileCode(i) == code
  {
    if code == "NYC" { assert TileCode(0) == code; }
    else if code == "LON" { assert TileCode(1) == code; }
    else if code == "PAR" { assert TileCode(2) == code; }
    else if code == "NRT" { assert TileCode(3) == code; }
    else if code == "DXB" { assert TileCode(4) == code; }
    else { assert TileCode(5) == code; }
  }

  /**
   * The catalog holds three offers with ids 1, 2 and 3 in that order, all
   * nonstop from JFK to LAX, with distinct ids (React's list key).
   */
  lemma MockFlightsShape()
    ensures |MockFlights| == 3
    ensures forall k :: 0 <= k < |MockFlights| ==> MockFlights[k].id == k + 1
    ensures forall k :: 0 <= k < |MockFlights| ==>
      MockFlights[k].departure.airport == "JFK" && MockFlights[k].arrival.airport == "LAX"
      && MockFlights[k].stops == "Nonstop" && MockFlights[k].ratingTenths <= 50
    ensures forall j, k :: 0 <= j < k < |MockFlights| ==> MockFlights[j].id != MockFlights[k].id
  {
  }
}
