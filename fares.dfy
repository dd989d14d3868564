/**
 * The fare listings of src/amadeus_client.py: the `FlightOption` record, the
 * carrier-name table, the offer normaliser, the clock-time filter and the
 * parse/filter/sort pass of `search_flights`. The SDK request itself is a
 * function parameter that either answers with the offers or fails.
 */
module Fares {
  import opened Wrappers
  import opened Text
  import opened Calendar
  import opened Sorting
  import opened Sequences

  /** A price in euro cents. */
  type Cents = nat

  /** One non-stop, one-way listing (`FlightOption`). */
  datatype FlightOption = FlightOption(
    origin: string,
    destination: string,
    departure: DateTime,
    arrival: DateTime,
    price: Cents,
    carrierCode: string,
    carrierName: string,
    flightNumber: string,
    transportType: string)

  /** The sort key of `options.sort(key=lambda x: x.price)`. */
  function Price(f: FlightOption): int
  {
    f.price
  }

  /** `departure_time_str`: the departure clock time as `HH:MM`. */
  function DepartureTimeText(f: FlightOption): (s: string)
    ensures |s| == 5 && s[2] == ':' && IsDigits(s[0..2]) && IsDigits(s[3..5])
    ensures ParseClock(s) == f.departure.minute
  {
    ClockTextRoundTrip(f.departure.minute);
    ClockText(f.departure.minute)
  }

  /** `arrival_time_str`: the arrival clock time as `HH:MM`. */
  function ArrivalTimeText(f: FlightOption): (s: string)
    ensures |s| == 5 && s[2] == ':' && IsDigits(s[0..2]) && IsDigits(s[3..5])
    ensures ParseClock(s) == f.arrival.minute
  {
    ClockTextRoundTrip(f.arrival.minute);
    ClockText(f.arrival.minute)
  }

  /** `flight_date`: the date of departure. */
  function FlightDate(f: FlightOption): (d: Day)
    ensures d == f.departure.day
  {
    f.departure.day
  }

  /** `CARRIER_NAMES`. */
  const CarrierNames: map<string, string> := map[
    "IB" := "Iberia",
    "VY" := "Vueling",
    "UX" := "Air Europa",
    "I2" := "Iberia Express",
    "FR" := "Ryanair",
    "6Y" := "SmartLynx"]

  /** `CARRIER_NAMES.get(code, code)`: the display name, or the code itself when unmapped. */
  function CarrierName(code: string): (name: string)
    ensures code in CarrierNames ==> name == CarrierNames[code]
    ensures code !in CarrierNames ==> name == code
  {
    if code in CarrierNames then CarrierNames[code] else code
  }

  /** The table holds airlines only: no rail operator is mapped. */
  lemma CarrierTableHasNoTrains()
    ensures "RENFE" !in CarrierNames && "2C" !in CarrierNames
    ensures CarrierName("IB") == "Iberia" && CarrierName("VY") == "Vueling" && CarrierName("UX") == "Air Europa"
    ensures CarrierName("2C") == "2C"
  {
  }

  /**
   * The first segment of an offer as the provider sends it. Each field is
   * `None` when its key is missing or its value does not parse.
   */
  datatype RawSegment = RawSegment(
    carrierCode: Option<string>,
    number: Option<string>,
    departureAt: Option<DateTime>,
    arrivalAt: Option<DateTime>,
    departureIata: Option<string>,
    arrivalIata: Option<string>)

  datatype RawItinerary = RawItinerary(segments: Option<seq<RawSegment>>)

  /** An offer record: `price.total` and the `itineraries` list. */
  datatype RawOffer = RawOffer(price: Option<Cents>, itineraries: Option<seq<RawItinerary>>)

  /** `offer["itineraries"][0]["segments"][0]`, when every step of the lookup exists. */
  function FirstSegment(o: RawOffer): Option<RawSegment>
  {
    if o.itineraries.None? || |o.itineraries.value| == 0 then None
    else
      var segments := o.itineraries.value[0].segments;
      if segments.None? || |segments.value| == 0 then None
      else Some(segments.value[0])
  }

  /** The offer with the segments of its first itinerary replaced by `segments`. */
  function WithFirstLegs(o: RawOffer, segments: seq<RawSegment>): RawOffer
    requires o.itineraries.Some? && |o.itineraries.value| > 0
  {
    o.(itineraries := Some([RawItinerary(Some(segments))] + o.itineraries.value[1..]))
  }

  /**
   * Only the first segment of the first itinerary is read: for an offer with
   * connections, the listing carries the first leg's airports and times, so
   * the legs after it change nothing.
   */
  lemma ParseOfferIgnoresLaterLegs(o: RawOffer, later: seq<RawSegment>)
    requires FirstSegment(o).Some?
    ensures ParseOffer(WithFirstLegs(o, [FirstSegment(o).value] + later)) == ParseOffer(o)
  {
  }

  /** Every field `_parse_offer` reads without a default is present. */
  predicate WellFormed(o: RawOffer)
  {
    && o.price.Some?
    && FirstSegment(o).Some?
    && var seg := FirstSegment(o).value;
    && seg.carrierCode.Some? && seg.departureAt.Some? && seg.arrivalAt.Some?
    && seg.departureIata.Some? && seg.arrivalIata.Some?
  }

  /**
   * `_parse_offer`: a lookup error (`KeyError`, `IndexError`, `ValueError`)
   * yields `None`; otherwise the listing, with `number` defaulting to "" and
   * the carrier name resolved through `CARRIER_NAMES`.
   */
  function ParseOffer(o: RawOffer): (r: Option<FlightOption>)
    ensures r.Some? <==> WellFormed(o)
    ensures r.Some? ==> r.value.price == o.price.value
    ensures r.Some? ==> var seg := FirstSegment(o).value;
      && r.value.carrierCode == seg.carrierCode.value
      && r.value.carrierName == CarrierName(seg.carrierCode.value)
      && r.value.flightNumber == (if seg.number.Some? then seg.number.value else "")
    ensures r.Some? ==> var seg := FirstSegment(o).value;
      && r.value.origin == seg.departureIata.value
      && r.value.destination == seg.arrivalIata.value
      && r.value.departure == seg.departureAt.value
      && r.value.arrival == seg.arrivalAt.value
  {
    if !WellFormed(o) then None
    else
      var seg := FirstSegment(o).value;
      var code := seg.carrierCode.value;
      Some(FlightOption(
        origin := seg.departureIata.value,
        destination := seg.arrivalIata.value,
        departure := seg.departureAt.value,
        arrival := seg.arrivalAt.value,
        price := o.price.value,
        carrierCode := code,
        carrierName := CarrierName(code),
        flightNumber := if seg.number.Some? then seg.number.value else "",
        transportType := ""))
  }

  /** The offer record a listing came from: one itinerary of one segment. */
  function OfferOf(f: FlightOption): RawOffer
  {
    RawOffer(
      Some(f.price),
      Some([RawItinerary(Some([RawSegment(
        Some(f.carrierCode), Some(f.flightNumber), Some(f.departure), Some(f.arrival),
        Some(f.origin), Some(f.destination))]))]))
  }

  /** Normalising loses nothing a listing holds: parsing its record gives it back. */
  lemma ParseOfferRoundTrip(f: FlightOption)
    requires f.carrierName == CarrierName(f.carrierCode) && f.transportType == ""
    ensures ParseOffer(OfferOf(f)) == Some(f)
  {
  }

  /**
   * `_matches_time_filter`: the listing is rejected when it arrives after
   * `maxArrival` or departs before `minDeparture`; only clock times count.
   */
  function MatchesTimeFilter(f: FlightOption, maxArrival: Option<Minute>, minDeparture: Option<Minute>): (ok: bool)
    ensures ok <==>
      && (maxArrival.None? || f.arrival.minute <= maxArrival.value)
      && (minDeparture.None? || f.departure.minute >= minDeparture.value)
  {
    if maxArrival.Some? && f.arrival.minute > maxArrival.value then false
    else if minDeparture.Some? && f.departure.minute < minDeparture.value then false
    else true
  }

  /** The filter reads clock times only: moving either leg to another date changes nothing. */
  lemma TimeFilterIgnoresDates(f: FlightOption, depDay: Day, arrDay: Day,
                               maxArrival: Option<Minute>, minDeparture: Option<Minute>)
    ensures
      var g := f.(departure := DateTime(depDay, f.departure.minute), arrival := DateTime(arrDay, f.arrival.minute));
      MatchesTimeFilter(g, maxArrival, minDeparture) == MatchesTimeFilter(f, maxArrival, minDeparture)
  {
  }

  /** The provider request `search_flights` sends: route and `departureDate`. */
  datatype Request = Request(origin: string, destination: string, departureDate: string)

  /** The SDK: the offers of a request, or the error it raised. */
  type Api = Request -> Result<seq<RawOffer>>

  /** What one offer contributes to the list: its listing if it parses and passes the filter. */
  function Accept(o: RawOffer, maxArrival: Option<Minute>, minDeparture: Option<Minute>): seq<FlightOption>
  {
    match ParseOffer(o)
    case Some(f) => if MatchesTimeFilter(f, maxArrival, minDeparture) then [f] else []
    case None => []
  }

  /** `Accept` with the filter bounds fixed. */
  function Acceptor(maxArrival: Option<Minute>, minDeparture: Option<Minute>): RawOffer -> seq<FlightOption>
  {
    o => Accept(o, maxArrival, minDeparture)
  }

  /** The listings the loop of `search_flights` collects, in response order. */
  function Accepted(offers: seq<RawOffer>, maxArrival: Option<Minute>, minDeparture: Option<Minute>): seq<FlightOption>
  {
    FlatMap(offers, Acceptor(maxArrival, minDeparture))
  }

  /** Every collected listing passes the clock-time filter. */
  lemma AcceptedMatch(offers: seq<RawOffer>, maxArrival: Option<Minute>, minDeparture: Option<Minute>)
    ensures forall f :: f in Accepted(offers, maxArrival, minDeparture) ==> MatchesTimeFilter(f, maxArrival, minDeparture)
  {
    forall f | f in Accepted(offers, maxArrival, minDeparture)
      ensures MatchesTimeFilter(f, maxArrival, minDeparture)
    {
      FlatMapMember(offers, Acceptor(maxArrival, minDeparture), f);
    }
  }

  /** A malformed offer is skipped on its own: the other offers are collected as if it were absent. */
  lemma MalformedOfferSkipped(a: seq<RawOffer>, bad: RawOffer, b: seq<RawOffer>, maxArrival: Option<Minute>, minDeparture: Option<Minute>)
    requires !WellFormed(bad)
    ensures Accepted(a + [bad] + b, maxArrival, minDeparture) == Accepted(a + b, maxArrival, minDeparture)
  {
    var f := Acceptor(maxArrival, minDeparture);
    FlatMapAppend(a + [bad], b, f);
    FlatMapSnoc(a, bad, f);
    FlatMapAppend(a, b, f);
    assert f(bad) == [];
  }

  /** Every well-formed offer that passes the filter is kept. */
  lemma AcceptedKeeps(offers: seq<RawOffer>, k: nat, maxArrival: Option<Minute>, minDeparture: Option<Minute>)
    requires k < |offers| && ParseOffer(offers[k]).Some?
    requires MatchesTimeFilter(ParseOffer(offers[k]).value, maxArrival, minDeparture)
    ensures ParseOffer(offers[k]).value in Accepted(offers, maxArrival, minDeparture)
  {
    FlatMapContains(offers, Acceptor(maxArrival, minDeparture), k, ParseOffer(offers[k]).value);
  }

  /** What `search_flights` returns for a request, as a value. */
  function FareSearch(api: Api, origin: string, destination: string, searchDate: string,
                      maxArrival: Option<Minute>, minDeparture: Option<Minute>): (r: seq<FlightOption>)
  {
    match api(Request(origin, destination, searchDate))
    case Failure(_) => []
    case Ok(offers) => SortBy(Accepted(offers, maxArrival, minDeparture), Price)
  }

  /** Every listing `search_flights` returns passes the clock-time filter, and they come cheapest first. */
  lemma FareSearchFiltered(api: Api, origin: string, destination: string, searchDate: string,
                           maxArrival: Option<Minute>, minDeparture: Option<Minute>)
    ensures var r := FareSearch(api, origin, destination, searchDate, maxArrival, minDeparture);
      SortedBy(r, Price) && forall f :: f in r ==> MatchesTimeFilter(f, maxArrival, minDeparture)
  {
    var response := api(Request(origin, destination, searchDate));
    if response.Ok? {
      var collected := Accepted(response.value, maxArrival, minDeparture);
      AcceptedMatch(response.value, maxArrival, minDeparture);
      forall f | f in SortBy(collected, Price)
        ensures MatchesTimeFilter(f, maxArrival, minDeparture)
      {
        assert f in multiset(collected);
      }
    }
  }

  /**
   * `search_flights`: query the provider, parse every offer, keep those that
   * pass the clock-time filter, sort by price. Any provider error gives [].
   */
  method SearchFlights(api: Api, origin: string, destination: string, searchDate: string,
                       maxArrival: Option<Minute>, minDeparture: Option<Minute>)
    returns (options: seq<FlightOption>)
    ensures options == FareSearch(api, origin, destination, searchDate, maxArrival, minDeparture)
    ensures api(Request(origin, destination, searchDate)).Failure? ==> options == []
    ensures api(Request(origin, destination, searchDate)).Ok? ==>
      multiset(options) == multiset(Accepted(api(Request(origin, destination, searchDate)).value, maxArrival, minDeparture))
    ensures SortedBy(options, Price)
    ensures forall f :: f in options ==> MatchesTimeFilter(f, maxArrival, minDeparture)
  {
    var response := api(Request(origin, destination, searchDate));
    if response.Failure? {
      return [];
    }
    var offers := response.value;
    options := [];
    for i := 0 to |offers|
      invariant options == Accepted(offers[..i], maxArrival, minDeparture)
    {
      assert offers[..i + 1] == offers[..i] + [offers[i]];
      FlatMapSnoc(offers[..i], offers[i], Acceptor(maxArrival, minDeparture));
      var option := ParseOffer(offers[i]);
      if option.Some? && MatchesTimeFilter(option.value, maxArrival, minDeparture) {
        options := options + [option.value];
      }
    }
    assert offers[..|offers|] == offers;
    AcceptedMatch(offers, maxArrival, minDeparture);
    var collected := options;
    options := SortBy(options, Price);
    forall f | f in options
      ensures MatchesTimeFilter(f, maxArrival, minDeparture)
    {
      assert f in multiset(collected);
    }
  }
}
