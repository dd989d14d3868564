/**
 * How the search engine reaches the fare client. `_search_trip` calls
 * `search_flights(origin=…, destination=…, date=…, …)`, but the client's
 * parameter is named `search_date`: as written, every call raises a
 * TypeError before any lookup, and the week's search catches it per cell.
 * `KeywordMismatchFares` is that provider; `AmadeusFares` passes the date as
 * `search_date`, so each leg lookup is `search_flights` itself.
 */
module Wiring {
  import opened Wrappers
  import opened Calendar
  import opened Sorting
  import opened Sequences
  import opened Settings
  import opened Fares
  import opened Search

  /** The message Python gives for the unknown keyword. */
  const KeywordError: string := "AmadeusClient.search_flights() got an unexpected keyword argument 'date'"

  /** As written: the call itself raises, whatever the lookup. */
  function KeywordMismatchFares(): Provider
  {
    (q: Query) => Failure(KeywordError)
  }

  /** As written, every lookup raises: the week has no option, falls back to the relaxed window, and records one error per cell. */
  lemma AsWrittenWeekIsEmpty(config: SearchConfig, target: Day)
    ensures var r := WeekResult(KeywordMismatchFares(), config, target);
      && r.options == []
      && r.relaxedFilters
      && |r.errors| == |DayPairs| * |config.routeCombinations|
  {
    var fares := KeywordMismatchFares();
    var ws := WeekStart(target);
    var cells := Cells(DayPairs, config.routeCombinations);
    forall w: TimeWindow, k | 0 <= k < |cells|
      ensures CellTrips(fares, ws, w)(cells[k]) == []
    {
    }
    FlatMapEmpty(cells, CellTrips(fares, ws, StrictWindow));
    FlatMapEmpty(cells, CellTrips(fares, ws, config.relaxed));
    forall k | 0 <= k < |cells| ensures |CellErrors(fares, ws, StrictWindow)(cells[k])| == 1 { }
    FlatMapUniform(cells, CellErrors(fares, ws, StrictWindow), 1);
    CellCount(DayPairs, config.routeCombinations);
    assert InBand([], config.minPrice, config.maxPrice) == [];
  }

  /** Corrected: the leg lookup is `search_flights(origin, destination, search_date=date.isoformat(), …)`. */
  function AmadeusFares(api: Api): Provider
  {
    (q: Query) => Ok(FareSearch(api, q.origin, q.destination, IsoDate(q.date), q.maxArrival, q.minDeparture))
  }

  /** `search_flights` catches every error of the provider, so the corrected week never records one. */
  lemma CorrectedWeekHasNoErrors(api: Api, config: SearchConfig, target: Day)
    ensures WeekResult(AmadeusFares(api), config, target).errors == []
  {
    var fares := AmadeusFares(api);
    var ws := WeekStart(target);
    var cells := Cells(DayPairs, config.routeCombinations);
    forall k | 0 <= k < |cells| ensures CellErrors(fares, ws, StrictWindow)(cells[k]) == [] { }
    FlatMapEmpty(cells, CellErrors(fares, ws, StrictWindow));
  }

  /** A provider that never raises and lists only flights inside each query's bounds. */
  ghost predicate Filtering(fares: Provider)
  {
    forall q: Query :: fares(q).Ok? && forall f :: f in fares(q).value ==> MatchesTimeFilter(f, q.maxArrival, q.minDeparture)
  }

  /** The corrected provider is filtering: `search_flights` returns `[]` on any error and filters every listing. */
  lemma CorrectedFaresFilter(api: Api)
    ensures Filtering(AmadeusFares(api))
  {
    forall q: Query
      ensures AmadeusFares(api)(q).Ok?
      ensures forall f :: f in AmadeusFares(api)(q).value ==> MatchesTimeFilter(f, q.maxArrival, q.minDeparture)
    {
      FareSearchFiltered(api, q.origin, q.destination, IsoDate(q.date), q.maxArrival, q.minDeparture);
    }
  }

  /** Over a filtering provider, both legs of every trip of a cell meet the window of the lookup. */
  lemma FilteringCellInWindow(fares: Provider, ws: Day, w: TimeWindow, c: Cell, t: TripOption)
    requires Filtering(fares)
    requires CellSearch(fares, ws, w, c).Ok? && t in CellSearch(fares, ws, w, c).value
    ensures t.outbound.arrival.minute <= w.maxArrival && t.returnFlight.departure.minute >= w.minDeparture
  {
    CellTripLegs(fares, ws, w, c, t);
    var oq := OutboundQuery(c.combo.outbound.origin, c.combo.outbound.destination, ws + c.pair.0, w);
    var rq := ReturnQuery(c.combo.outbound.destination, c.combo.inbound.destination, ws + c.pair.1, w);
    assert MatchesTimeFilter(t.outbound, oq.maxArrival, oq.minDeparture);
    assert MatchesTimeFilter(t.returnFlight, rq.maxArrival, rq.minDeparture);
  }

  /** Over a filtering provider, every option of the week meets the window of the pass that found it. */
  lemma FilteringWeekInWindow(fares: Provider, config: SearchConfig, target: Day, t: TripOption)
    requires Filtering(fares)
    requires t in WeekResult(fares, config, target).options
    ensures var w := if WeekResult(fares, config, target).relaxedFilters then config.relaxed else StrictWindow;
      t.outbound.arrival.minute <= w.maxArrival && t.returnFlight.departure.minute >= w.minDeparture
  {
    var ws := WeekStart(target);
    WeekOptions(fares, config, target);
    var w := if WeekResult(fares, config, target).relaxedFilters then config.relaxed else StrictWindow;
    PassTripSource(fares, config.routeCombinations, ws, w, t);
    var c :| c in Cells(DayPairs, config.routeCombinations) && CellSearch(fares, ws, w, c).Ok? && t in CellSearch(fares, ws, w, c).value;
    FilteringCellInWindow(fares, ws, w, c, t);
  }

  /**
   * With the call corrected, every option of the week arrives at the
   * destination by `MAX_ARRIVAL_TIME` and leaves for home no earlier than
   * `MIN_DEPARTURE_TIME`, unless the result says the window was relaxed, in
   * which case the relaxed bounds hold.
   */
  lemma CorrectedTripsInWindow(api: Api, config: SearchConfig, target: Day, t: TripOption)
    requires t in WeekResult(AmadeusFares(api), config, target).options
    ensures var w := if WeekResult(AmadeusFares(api), config, target).relaxedFilters then config.relaxed else StrictWindow;
      t.outbound.arrival.minute <= w.maxArrival && t.returnFlight.departure.minute >= w.minDeparture
    ensures !WeekResult(AmadeusFares(api), config, target).relaxedFilters ==>
      t.outbound.arrival.minute <= MaxArrivalTime && t.returnFlight.departure.minute >= MinDepartureTime
  {
    CorrectedFaresFilter(api);
    FilteringWeekInWindow(AmadeusFares(api), config, target, t);
  }
}
