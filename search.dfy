/**
 * The weekly search of src/search.py: for every day pair and route
 * combination, look up the outbound and return legs, combine the three
 * cheapest of each side into trips, fall back once to a relaxed time window
 * when the strict pass finds nothing, drop trips priced outside the sanity
 * band and sort the rest by total price.
 */
module Search {
  import opened Wrappers
  import opened Calendar
  import opened Sorting
  import opened Sequences
  import opened Settings
  import opened Fares

  /** A round trip (`TripOption`): an outbound and a return listing with their travel dates. */
  datatype TripOption = TripOption(
    outbound: FlightOption,
    returnFlight: FlightOption,
    outboundDate: Day,
    returnDate: Day)

  /** `total_price`: outbound price plus return price. */
  function TotalPrice(t: TripOption): int
  {
    t.outbound.price + t.returnFlight.price
  }

  /** The weekdays of a trip's two travel dates. */
  function TripWeekdays(t: TripOption): (int, int)
  {
    (Weekday(t.outboundDate), Weekday(t.returnDate))
  }

  /** `SearchResult`. */
  datatype SearchResult = SearchResult(
    weekStart: Day,
    options: seq<TripOption>,
    relaxedFilters: bool,
    errors: seq<string>)

  /** `best_option`: the head of `options`, or `None` when there is none. */
  function BestOption(r: SearchResult): (best: Option<TripOption>)
    ensures best.None? <==> r.options == []
    ensures best.Some? ==> best.value == r.options[0]
  {
    if r.options == [] then None else Some(r.options[0])
  }

  /** When the options are sorted by total price, the best option is a cheapest one. */
  lemma BestOptionIsCheapest(r: SearchResult, t: TripOption)
    requires SortedBy(r.options, TotalPrice) && t in r.options
    ensures BestOption(r).Some? && TotalPrice(BestOption(r).value) <= TotalPrice(t)
  {
    SortedHeadIsMin(r.options, TotalPrice, t);
  }

  /** `matching[0] if matching else None` for the trips flying on `pair`'s weekdays. */
  function FirstMatching(options: seq<TripOption>, pair: DayPair): (r: Option<TripOption>)
    ensures r.None? <==> forall t :: t in options ==> TripWeekdays(t) != pair
    ensures r.Some? ==> exists k :: (0 <= k < |options| && options[k] == r.value
      && TripWeekdays(r.value) == pair
      && forall j :: 0 <= j < k ==> TripWeekdays(options[j]) != pair)
  {
    if options == [] then None
    else if TripWeekdays(options[0]) == pair then Some(options[0])
    else
      var r := FirstMatching(options[1..], pair);
      assert forall t :: t in options[1..] ==> t in options;
      assert r.Some? ==> exists k :: (1 <= k < |options| && options[k] == r.value
        && TripWeekdays(r.value) == pair
        && forall j :: 0 <= j < k ==> TripWeekdays(options[j]) != pair) by {
        if r.Some? {
          var k :| 0 <= k < |options[1..]| && options[1..][k] == r.value
            && TripWeekdays(r.value) == pair
            && forall j :: 0 <= j < k ==> TripWeekdays(options[1..][j]) != pair;
          assert options[k + 1] == r.value;
          forall j | 0 <= j < k + 1 ensures TripWeekdays(options[j]) != pair {
            if j > 0 { assert options[j] == options[1..][j - 1]; }
          }
        }
      }
      r
  }

  /** Over options sorted by total price, the first trip on a day pair is a cheapest trip on it. */
  lemma FirstMatchingIsCheapest(options: seq<TripOption>, pair: DayPair, t: TripOption)
    requires SortedBy(options, TotalPrice)
    requires t in options && TripWeekdays(t) == pair
    ensures FirstMatching(options, pair).Some?
    ensures TotalPrice(FirstMatching(options, pair).value) <= TotalPrice(t)
  {
    var best := FirstMatching(options, pair).value;
    var k :| 0 <= k < |options| && options[k] == best && TripWeekdays(best) == pair
      && forall j :: 0 <= j < k ==> TripWeekdays(options[j]) != pair;
    var i :| 0 <= i < |options| && options[i] == t;
    assert k <= i;
    if k < i {
      assert TotalPrice(options[k]) <= TotalPrice(options[i]);
    }
  }

  /**
   * `get_best_by_day_pair`: a map with one key per entry of `DAY_PAIRS`, each
   * holding the first option flying on that pair's weekdays, or `None`.
   */
  method BestByDayPair(result: SearchResult) returns (best: map<DayPair, Option<TripOption>>)
    ensures best.Keys == set p | p in DayPairs
    ensures forall p :: p in DayPairs ==> best[p] == FirstMatching(result.options, p)
  {
    best := map[];
    for i := 0 to |DayPairs|
      invariant best.Keys == set k | 0 <= k < i :: DayPairs[k]
      invariant forall k :: 0 <= k < i ==> best[DayPairs[k]] == FirstMatching(result.options, DayPairs[k])
    {
      var dayPair := DayPairs[i];
      best := best[dayPair := FirstMatching(result.options, dayPair)];
    }
    assert forall p :: p in DayPairs <==> exists k :: 0 <= k < |DayPairs| && DayPairs[k] == p;
  }

  /** A leg lookup: `search_flights(origin, destination, date, max_arrival_time, min_departure_time)`. */
  datatype Query = Query(
    origin: string,
    destination: string,
    date: Day,
    maxArrival: Option<Minute>,
    minDeparture: Option<Minute>)

  /** The fare source: the listings for a lookup, or the exception the lookup raised. */
  type Provider = Query -> Result<seq<FlightOption>>

  /** A route (`outbound_route` / `return_route`): a name and its two airports. */
  datatype Route = Route(name: string, origin: string, destination: string)

  /** An entry of `ROUTE_COMBINATIONS`: the outbound route and the return route. */
  datatype RouteCombination = RouteCombination(outbound: Route, inbound: Route)

  /** The arrival bound for outbound legs and the departure bound for return legs. */
  datatype TimeWindow = TimeWindow(maxArrival: Minute, minDeparture: Minute)

  /** `MAX_ARRIVAL_TIME` and `MIN_DEPARTURE_TIME`. */
  const StrictWindow: TimeWindow := TimeWindow(MaxArrivalTime, MinDepartureTime)

  /**
   * The settings search.py imports but config/settings.py does not define:
   * `ROUTE_COMBINATIONS`, the relaxed window and the price band.
   */
  datatype SearchConfig = SearchConfig(
    routeCombinations: seq<RouteCombination>,
    relaxed: TimeWindow,
    minPrice: int,
    maxPrice: int)

  /** The outbound lookup of `_search_trip`: arrival bounded. */
  function OutboundQuery(origin: string, via: string, date: Day, w: TimeWindow): Query
  {
    Query(origin, via, date, Some(w.maxArrival), None)
  }

  /** The return lookup of `_search_trip`: departure bounded. */
  function ReturnQuery(via: string, destination: string, date: Day, w: TimeWindow): Query
  {
    Query(via, destination, date, None, Some(w.minDeparture))
  }

  /** Python's `s[:3]`. */
  function Take3<T>(s: seq<T>): (r: seq<T>)
    ensures |r| == if |s| < 3 then |s| else 3
    ensures r == s[..|r|]
  {
    if |s| <= 3 then s else s[..3]
  }

  /** The trips pairing one outbound listing with each return listing, in order. */
  function Pairings(o: FlightOption, rets: seq<FlightOption>, od: Day, rd: Day): (r: seq<TripOption>)
    ensures |r| == |rets|
  {
    seq(|rets|, j requires 0 <= j < |rets| => TripOption(o, rets[j], od, rd))
  }

  function PairingsWith(rets: seq<FlightOption>, od: Day, rd: Day): FlightOption -> seq<TripOption>
  {
    o => Pairings(o, rets, od, rd)
  }

  /** The nested loop of `_search_trip`: every outbound listing with every return listing, outbound-major. */
  function CrossProduct(outs: seq<FlightOption>, rets: seq<FlightOption>, od: Day, rd: Day): seq<TripOption>
  {
    FlatMap(outs, PairingsWith(rets, od, rd))
  }

  lemma MulStep(i: int, n: int, m: int, j: int)
    requires 0 <= i < n && 0 <= j < m
    ensures 0 <= i * m + j < n * m
  {
    assert i * m + j < (i + 1) * m;
    assert (i + 1) * m <= n * m;
  }

  /** The cross product has `|outs|·|rets|` trips, `|rets|` per outbound listing. */
  lemma CrossProductLength(outs: seq<FlightOption>, rets: seq<FlightOption>, od: Day, rd: Day)
    ensures |CrossProduct(outs, rets, od, rd)| == |outs| * |rets|
  {
    FlatMapUniform(outs, PairingsWith(rets, od, rd), |rets|);
  }

  /** Trip `k` of the cross product, `k < |rets|·(|outs|-1)`, is trip `k` of the cross product without the last outbound listing. */
  lemma CrossProductFront(outs: seq<FlightOption>, rets: seq<FlightOption>, od: Day, rd: Day, k: nat)
    requires outs != [] && k < |CrossProduct(outs[..|outs| - 1], rets, od, rd)|
    ensures k < |CrossProduct(outs, rets, od, rd)|
    ensures CrossProduct(outs, rets, od, rd)[k] == CrossProduct(outs[..|outs| - 1], rets, od, rd)[k]
  {
  }

  /** The trips of the last outbound listing come last, one per return listing, in order. */
  lemma CrossProductBack(outs: seq<FlightOption>, rets: seq<FlightOption>, od: Day, rd: Day, j: nat)
    requires outs != [] && j < |rets|
    ensures var k := |CrossProduct(outs[..|outs| - 1], rets, od, rd)| + j;
      k < |CrossProduct(outs, rets, od, rd)| && CrossProduct(outs, rets, od, rd)[k] == TripOption(outs[|outs| - 1], rets[j], od, rd)
  {
  }

  /** Trip `i·|rets| + j` of the cross product pairs `outs[i]` with `rets[j]`. */
  lemma {:induction false} CrossProductCell(outs: seq<FlightOption>, rets: seq<FlightOption>, od: Day, rd: Day, i: nat, j: nat)
    requires i < |outs| && j < |rets|
    ensures 0 <= i * |rets| + j < |CrossProduct(outs, rets, od, rd)|
    ensures CrossProduct(outs, rets, od, rd)[i * |rets| + j] == TripOption(outs[i], rets[j], od, rd)
    decreases |outs|
  {
    var m := |rets|;
    var front := outs[..|outs| - 1];
    CrossProductLength(outs, rets, od, rd);
    CrossProductLength(front, rets, od, rd);
    MulStep(i, |outs|, m, j);
    if i < |front| {
      CrossProductCell(front, rets, od, rd, i, j);
      CrossProductFront(outs, rets, od, rd, i * m + j);
      assert front[i] == outs[i];
    } else {
      assert i == |front|;
      CrossProductBack(outs, rets, od, rd, j);
    }
  }

  /** The cross product has `|outs|·|rets|` trips in outbound-major order: trip `i·|rets| + j` pairs `outs[i]` with `rets[j]`. */
  lemma CrossProductAt(outs: seq<FlightOption>, rets: seq<FlightOption>, od: Day, rd: Day)
    ensures |CrossProduct(outs, rets, od, rd)| == |outs| * |rets|
    ensures forall i, j :: 0 <= i < |outs| && 0 <= j < |rets| ==>
      0 <= i * |rets| + j < |CrossProduct(outs, rets, od, rd)| &&
      CrossProduct(outs, rets, od, rd)[i * |rets| + j] == TripOption(outs[i], rets[j], od, rd)
  {
    CrossProductLength(outs, rets, od, rd);
    forall i, j | 0 <= i < |outs| && 0 <= j < |rets|
      ensures 0 <= i * |rets| + j < |CrossProduct(outs, rets, od, rd)|
      ensures CrossProduct(outs, rets, od, rd)[i * |rets| + j] == TripOption(outs[i], rets[j], od, rd)
    {
      CrossProductCell(outs, rets, od, rd, i, j);
    }
  }

  /** Every trip of the cross product carries the given dates and legs taken from the two lists. */
  lemma {:induction false} CrossProductMember(outs: seq<FlightOption>, rets: seq<FlightOption>, od: Day, rd: Day, t: TripOption)
    requires t in CrossProduct(outs, rets, od, rd)
    ensures t.outbound in outs && t.returnFlight in rets
    ensures t.outboundDate == od && t.returnDate == rd
    decreases |outs|
  {
    var front := outs[..|outs| - 1];
    assert CrossProduct(outs, rets, od, rd) == CrossProduct(front, rets, od, rd) + Pairings(outs[|outs| - 1], rets, od, rd);
    if t in CrossProduct(front, rets, od, rd) {
      CrossProductMember(front, rets, od, rd, t);
    }
  }

  /** `_search_trip` as a value: an exception of either lookup propagates; an empty side gives no trips. */
  function TripSearch(fares: Provider, origin: string, via: string, destination: string,
                      od: Day, rd: Day, w: TimeWindow): Result<seq<TripOption>>
  {
    match fares(OutboundQuery(origin, via, od, w))
    case Failure(e) => Failure(e)
    case Ok(outs) =>
      if outs == [] then Ok([])
      else
        match fares(ReturnQuery(via, destination, rd, w))
        case Failure(e) => Failure(e)
        case Ok(rets) =>
          if rets == [] then Ok([])
          else Ok(CrossProduct(Take3(outs), Take3(rets), od, rd))
  }

  /**
   * `_search_trip`: look up the outbound leg; with no listing, stop without
   * looking up the return leg; otherwise look up the return leg and pair the
   * first three listings of each side, outbound-major.
   */
  method SearchTrip(fares: Provider, origin: string, via: string, destination: string,
                    od: Day, rd: Day, w: TimeWindow)
    returns (r: Result<seq<TripOption>>)
    ensures r == TripSearch(fares, origin, via, destination, od, rd, w)
  {
    var outboundOptions := fares(OutboundQuery(origin, via, od, w));
    if outboundOptions.Failure? {
      return Failure(outboundOptions.error);
    }
    if outboundOptions.value == [] {
      return Ok([]);
    }
    var returnOptions := fares(ReturnQuery(via, destination, rd, w));
    if returnOptions.Failure? {
      return Failure(returnOptions.error);
    }
    if returnOptions.value == [] {
      return Ok([]);
    }
    var outs := Take3(outboundOptions.value);
    var rets := Take3(returnOptions.value);
    var trips := [];
    for i := 0 to |outs|
      invariant trips == CrossProduct(outs[..i], rets, od, rd)
    {
      for j := 0 to |rets|
        invariant trips == CrossProduct(outs[..i], rets, od, rd) + Pairings(outs[i], rets[..j], od, rd)
      {
        assert Pairings(outs[i], rets[..j + 1], od, rd) == Pairings(outs[i], rets[..j], od, rd) + [TripOption(outs[i], rets[j], od, rd)];
        trips := trips + [TripOption(outs[i], rets[j], od, rd)];
      }
      assert outs[..i + 1] == outs[..i] + [outs[i]];
      assert rets[..|rets|] == rets;
      FlatMapSnoc(outs[..i], outs[i], PairingsWith(rets, od, rd));
    }
    assert outs[..|outs|] == outs;
    r := Ok(trips);
  }

  /**
   * A failed lookup propagates its exception; an outbound lookup with no
   * listing gives no trip whatever the return lookup would have answered, so
   * the return leg is never looked up; a return lookup with no listing gives
   * no trip either.
   */
  lemma TripSearchShortCircuits(fares: Provider, origin: string, via: string, destination: string,
                                od: Day, rd: Day, w: TimeWindow)
    ensures var outs := fares(OutboundQuery(origin, via, od, w));
      var rets := fares(ReturnQuery(via, destination, rd, w));
      var r := TripSearch(fares, origin, via, destination, od, rd, w);
      && (outs.Failure? ==> r == Failure(outs.error))
      && (outs == Ok([]) ==> r == Ok([]))
      && (outs.Ok? && outs.value != [] && rets.Failure? ==> r == Failure(rets.error))
      && (outs.Ok? && rets == Ok([]) ==> r == Ok([]))
  {
  }

  /** The outbound lookup alone decides an empty result: the return lookup's answer does not matter. */
  lemma NoOutboundNoReturnLookup(f1: Provider, f2: Provider, origin: string, via: string, destination: string,
                                 od: Day, rd: Day, w: TimeWindow)
    requires f1(OutboundQuery(origin, via, od, w)) == f2(OutboundQuery(origin, via, od, w)) == Ok([])
    ensures TripSearch(f1, origin, via, destination, od, rd, w) == TripSearch(f2, origin, via, destination, od, rd, w) == Ok([])
  {
  }

  /**
   * When both lookups answer with listings, the trips are the first three
   * outbound listings crossed with the first three return listings,
   * outbound-major, each dated with the cell's travel dates.
   */
  lemma TripSearchPairs(fares: Provider, origin: string, via: string, destination: string,
                        od: Day, rd: Day, w: TimeWindow)
    requires fares(OutboundQuery(origin, via, od, w)).Ok? && fares(OutboundQuery(origin, via, od, w)).value != []
    requires fares(ReturnQuery(via, destination, rd, w)).Ok? && fares(ReturnQuery(via, destination, rd, w)).value != []
    ensures var outs := Take3(fares(OutboundQuery(origin, via, od, w)).value);
      var rets := Take3(fares(ReturnQuery(via, destination, rd, w)).value);
      var r := TripSearch(fares, origin, via, destination, od, rd, w);
      && r.Ok?
      && |r.value| == |outs| * |rets|
      && (forall i, j :: 0 <= i < |outs| && 0 <= j < |rets| ==>
            0 <= i * |rets| + j < |r.value| &&
            r.value[i * |rets| + j] == TripOption(outs[i], rets[j], od, rd))
  {
    var outs := Take3(fares(OutboundQuery(origin, via, od, w)).value);
    var rets := Take3(fares(ReturnQuery(via, destination, rd, w)).value);
    CrossProductAt(outs, rets, od, rd);
  }

  /** Every trip of a lookup carries the cell's travel dates and legs from the two answers. */
  lemma TripSearchMember(fares: Provider, origin: string, via: string, destination: string,
                         od: Day, rd: Day, w: TimeWindow, t: TripOption)
    requires TripSearch(fares, origin, via, destination, od, rd, w).Ok?
    requires t in TripSearch(fares, origin, via, destination, od, rd, w).value
    ensures t.outboundDate == od && t.returnDate == rd
    ensures fares(OutboundQuery(origin, via, od, w)).Ok? && t.outbound in Take3(fares(OutboundQuery(origin, via, od, w)).value)
    ensures fares(ReturnQuery(via, destination, rd, w)).Ok? && t.returnFlight in Take3(fares(ReturnQuery(via, destination, rd, w)).value)
  {
    var outs := fares(OutboundQuery(origin, via, od, w));
    var rets := fares(ReturnQuery(via, destination, rd, w));
    CrossProductMember(Take3(outs.value), Take3(rets.value), od, rd, t);
  }

  /** One step of the nested loop of `search_week`: a day pair with a route combination. */
  datatype Cell = Cell(pair: DayPair, combo: RouteCombination)

  /** The cells of one day pair, in `ROUTE_COMBINATIONS` order. */
  function Row(pair: DayPair, combos: seq<RouteCombination>): (r: seq<Cell>)
    ensures |r| == |combos|
  {
    seq(|combos|, k requires 0 <= k < |combos| => Cell(pair, combos[k]))
  }

  function RowOf(combos: seq<RouteCombination>): DayPair -> seq<Cell>
  {
    p => Row(p, combos)
  }

  /** Every cell the loop visits, in visiting order. */
  function Cells(pairs: seq<DayPair>, combos: seq<RouteCombination>): seq<Cell>
  {
    FlatMap(pairs, RowOf(combos))
  }

  /** The loop visits `|pairs|·|combos|` cells. */
  lemma CellCount(pairs: seq<DayPair>, combos: seq<RouteCombination>)
    ensures |Cells(pairs, combos)| == |pairs| * |combos|
  {
    FlatMapUniform(pairs, RowOf(combos), |combos|);
  }

  /** The lookup of one cell within the week starting `ws`. */
  function CellSearch(fares: Provider, ws: Day, w: TimeWindow, c: Cell): Result<seq<TripOption>>
  {
    TripSearch(fares, c.combo.outbound.origin, c.combo.outbound.destination, c.combo.inbound.destination,
               ws + c.pair.0, ws + c.pair.1, w)
  }

  /** `f"Error buscando {outbound_route.name} {outbound_date}: {e}"`. */
  function ErrorMessage(c: Cell, ws: Day, e: string): string
  {
    "Error buscando " + c.combo.outbound.name + " " + IsoDate(ws + c.pair.0) + ": " + e
  }

  /** The trips a cell adds to `all_options` (none when its lookup raised). */
  function CellTripsOf(fares: Provider, ws: Day, w: TimeWindow, c: Cell): seq<TripOption>
  {
    match CellSearch(fares, ws, w, c)
    case Ok(ts) => ts
    case Failure(_) => []
  }

  function CellTrips(fares: Provider, ws: Day, w: TimeWindow): Cell -> seq<TripOption>
  {
    c => CellTripsOf(fares, ws, w, c)
  }

  /** The message a cell's failed lookup produces (one exactly when it raised). */
  function CellErrorsOf(fares: Provider, ws: Day, w: TimeWindow, c: Cell): seq<string>
  {
    match CellSearch(fares, ws, w, c)
    case Ok(_) => []
    case Failure(e) => [ErrorMessage(c, ws, e)]
  }

  function CellErrors(fares: Provider, ws: Day, w: TimeWindow): Cell -> seq<string>
  {
    c => CellErrorsOf(fares, ws, w, c)
  }

  /** The trips one pass over all cells accumulates with window `w`. */
  function PassTrips(fares: Provider, combos: seq<RouteCombination>, ws: Day, w: TimeWindow): seq<TripOption>
  {
    FlatMap(Cells(DayPairs, combos), CellTrips(fares, ws, w))
  }

  /** The errors one pass over all cells meets with window `w`. */
  function PassErrors(fares: Provider, combos: seq<RouteCombination>, ws: Day, w: TimeWindow): seq<string>
  {
    FlatMap(Cells(DayPairs, combos), CellErrors(fares, ws, w))
  }

  /** The trips `search_week` holds before the price filter: the strict ones, else the relaxed ones. */
  function Collected(fares: Provider, config: SearchConfig, ws: Day): seq<TripOption>
  {
    var strict := PassTrips(fares, config.routeCombinations, ws, StrictWindow);
    if strict != [] then strict else PassTrips(fares, config.routeCombinations, ws, config.relaxed)
  }

  function BandFilter(lo: int, hi: int): TripOption -> seq<TripOption>
  {
    t => if lo <= TotalPrice(t) <= hi then [t] else []
  }

  /** `[opt for opt in all_options if MIN_PRICE <= opt.total_price <= MAX_PRICE]`. */
  function InBand(s: seq<TripOption>, lo: int, hi: int): seq<TripOption>
  {
    FlatMap(s, BandFilter(lo, hi))
  }

  /** The price filter keeps exactly the trips inside the band. */
  lemma InBandMembers(s: seq<TripOption>, lo: int, hi: int)
    ensures forall t :: t in InBand(s, lo, hi) <==> t in s && lo <= TotalPrice(t) <= hi
  {
    forall t | t in InBand(s, lo, hi) ensures t in s && lo <= TotalPrice(t) <= hi {
      FlatMapMember(s, BandFilter(lo, hi), t);
    }
    forall t | t in s && lo <= TotalPrice(t) <= hi ensures t in InBand(s, lo, hi) {
      var k :| 0 <= k < |s| && s[k] == t;
      FlatMapContains(s, BandFilter(lo, hi), k, t);
    }
  }

  /** `search_week` as a value. */
  function WeekResult(fares: Provider, config: SearchConfig, target: Day): SearchResult
  {
    var ws := WeekStart(target);
    SearchResult(
      ws,
      SortBy(InBand(Collected(fares, config, ws), config.minPrice, config.maxPrice), TotalPrice),
      PassTrips(fares, config.routeCombinations, ws, StrictWindow) == [],
      PassErrors(fares, config.routeCombinations, ws, StrictWindow))
  }

  /** The trips a lookup outcome contributes. */
  function TripsOf(r: Result<seq<TripOption>>): seq<TripOption>
  {
    if r.Ok? then r.value else []
  }

  /** A cell's contributions, given the outcome of its lookup. */
  lemma CellOutcome(fares: Provider, ws: Day, w: TimeWindow, c: Cell, od: Day, rd: Day, r: Result<seq<TripOption>>)
    requires od == ws + c.pair.0 && rd == ws + c.pair.1
    requires r == TripSearch(fares, c.combo.outbound.origin, c.combo.outbound.destination, c.combo.inbound.destination, od, rd, w)
    ensures CellTrips(fares, ws, w)(c) == TripsOf(r)
    ensures CellErrors(fares, ws, w)(c) == if r.Failure? then [ErrorMessage(c, ws, r.error)] else []
  {
    assert r == CellSearch(fares, ws, w, c);
  }

  /** One more cell appends its own trips, or its own error. */
  lemma CellStep(fares: Provider, ws: Day, w: TimeWindow, cells: seq<Cell>, c: Cell, od: Day, rd: Day,
                 r: Result<seq<TripOption>>)
    requires od == ws + c.pair.0 && rd == ws + c.pair.1
    requires r == TripSearch(fares, c.combo.outbound.origin, c.combo.outbound.destination, c.combo.inbound.destination, od, rd, w)
    ensures FlatMap(cells + [c], CellTrips(fares, ws, w)) == FlatMap(cells, CellTrips(fares, ws, w)) + TripsOf(r)
    ensures FlatMap(cells + [c], CellErrors(fares, ws, w))
         == FlatMap(cells, CellErrors(fares, ws, w)) + (if r.Failure? then [ErrorMessage(c, ws, r.error)] else [])
  {
    CellOutcome(fares, ws, w, c, od, rd, r);
    FlatMapSnoc(cells, c, CellTrips(fares, ws, w));
    FlatMapSnoc(cells, c, CellErrors(fares, ws, w));
  }

  /** The cells of the first `i` day pairs and the first `j` combinations of day pair `i`. */
  lemma CellsStep(combos: seq<RouteCombination>, i: nat, j: nat)
    requires i < |DayPairs| && j < |combos|
    ensures Cells(DayPairs[..i], combos) + Row(DayPairs[i], combos[..j + 1])
         == (Cells(DayPairs[..i], combos) + Row(DayPairs[i], combos[..j])) + [Cell(DayPairs[i], combos[j])]
  {
    assert Row(DayPairs[i], combos[..j + 1]) == Row(DayPairs[i], combos[..j]) + [Cell(DayPairs[i], combos[j])];
  }

  lemma CellsRowDone(combos: seq<RouteCombination>, i: nat)
    requires i < |DayPairs|
    ensures Cells(DayPairs[..i], combos) + Row(DayPairs[i], combos[..|combos|]) == Cells(DayPairs[..i + 1], combos)
  {
    assert combos[..|combos|] == combos;
    assert DayPairs[..i + 1] == DayPairs[..i] + [DayPairs[i]];
    FlatMapSnoc(DayPairs[..i], DayPairs[i], RowOf(combos));
  }

  /**
   * One pass of `search_week` over `DAY_PAIRS × ROUTE_COMBINATIONS` with
   * window `w`: the trips of every cell whose lookup succeeded, in visiting
   * order, and one message per cell whose lookup raised. Both passes of
   * `search_week` have this loop nest; only the strict one keeps the messages.
   */
  method SearchPass(fares: Provider, combos: seq<RouteCombination>, weekStart: Day, w: TimeWindow)
    returns (allOptions: seq<TripOption>, errors: seq<string>)
    ensures allOptions == PassTrips(fares, combos, weekStart, w)
    ensures errors == PassErrors(fares, combos, weekStart, w)
  {
    allOptions := [];
    errors := [];
    for i := 0 to |DayPairs|
      invariant allOptions == FlatMap(Cells(DayPairs[..i], combos), CellTrips(fares, weekStart, w))
      invariant errors == FlatMap(Cells(DayPairs[..i], combos), CellErrors(fares, weekStart, w))
    {
      var dayPair := DayPairs[i];
      var outboundDate := weekStart + dayPair.0;
      var returnDate := weekStart + dayPair.1;
      assert Cells(DayPairs[..i], combos) + Row(dayPair, combos[..0]) == Cells(DayPairs[..i], combos);
      for j := 0 to |combos|
        invariant allOptions == FlatMap(Cells(DayPairs[..i], combos) + Row(dayPair, combos[..j]), CellTrips(fares, weekStart, w))
        invariant errors == FlatMap(Cells(DayPairs[..i], combos) + Row(dayPair, combos[..j]), CellErrors(fares, weekStart, w))
      {
        var combo := combos[j];
        var cell := Cell(dayPair, combo);
        var options := SearchTrip(fares, combo.outbound.origin, combo.outbound.destination, combo.inbound.destination,
                                  outboundDate, returnDate, w);
        CellsStep(combos, i, j);
        CellStep(fares, weekStart, w, Cells(DayPairs[..i], combos) + Row(dayPair, combos[..j]), cell, outboundDate, returnDate, options);
        match options
        case Ok(trips) =>
          allOptions := allOptions + trips;
        case Failure(e) =>
          errors := errors + [ErrorMessage(cell, weekStart, e)];
      }
      CellsRowDone(combos, i);
    }
    assert DayPairs[..|DayPairs|] == DayPairs;
  }

  /**
   * `search_week`: the Monday of the target's week, a strict pass recording
   * one error per failed cell, one relaxed pass (errors dropped) when the
   * strict pass found no trip, then the price band and a stable sort by
   * total price.
   */
  method SearchWeek(fares: Provider, config: SearchConfig, target: Day) returns (result: SearchResult)
    ensures result == WeekResult(fares, config, target)
  {
    var weekStart: Day := target - Weekday(target);
    assert weekStart == WeekStart(target);
    var allOptions, errors := SearchPass(fares, config.routeCombinations, weekStart, StrictWindow);
    var relaxed := false;
    if allOptions == [] {
      relaxed := true;
      var ignored;
      allOptions, ignored := SearchPass(fares, config.routeCombinations, weekStart, config.relaxed);
    }
    assert allOptions == Collected(fares, config, weekStart);
    assert relaxed == (PassTrips(fares, config.routeCombinations, weekStart, StrictWindow) == []);
    allOptions := InBand(allOptions, config.minPrice, config.maxPrice);
    allOptions := SortBy(allOptions, TotalPrice);
    result := SearchResult(weekStart, allOptions, relaxed, errors);
  }

  /** The loop visits every pairing of an entry of `pairs` with an entry of `combos`, and nothing else. */
  lemma CellsMember(pairs: seq<DayPair>, combos: seq<RouteCombination>, c: Cell)
    ensures c in Cells(pairs, combos) <==> c.pair in pairs && c.combo in combos
  {
    if c in Cells(pairs, combos) {
      FlatMapMember(pairs, RowOf(combos), c);
      var k :| 0 <= k < |pairs| && c in RowOf(combos)(pairs[k]);
      var m :| 0 <= m < |combos| && Row(pairs[k], combos)[m] == c;
    }
    if c.pair in pairs && c.combo in combos {
      var k :| 0 <= k < |pairs| && pairs[k] == c.pair;
      var m :| 0 <= m < |combos| && combos[m] == c.combo;
      assert Row(pairs[k], combos)[m] == c;
      FlatMapContains(pairs, RowOf(combos), k, c);
    }
  }

  /** Every trip a pass collects comes from the successful lookup of one of its cells. */
  lemma PassTripSource(fares: Provider, combos: seq<RouteCombination>, ws: Day, w: TimeWindow, t: TripOption)
    requires t in PassTrips(fares, combos, ws, w)
    ensures exists c :: c in Cells(DayPairs, combos) && CellSearch(fares, ws, w, c).Ok? && t in CellSearch(fares, ws, w, c).value
  {
    var cells := Cells(DayPairs, combos);
    FlatMapMember(cells, CellTrips(fares, ws, w), t);
    var k :| 0 <= k < |cells| && t in CellTrips(fares, ws, w)(cells[k]);
    assert cells[k] in cells;
  }

  /** A cell whose lookup raised adds no trip and exactly its own message. */
  lemma FailedCell(fares: Provider, ws: Day, w: TimeWindow, c: Cell)
    requires CellSearch(fares, ws, w, c).Failure?
    ensures CellTrips(fares, ws, w)(c) == []
    ensures CellErrors(fares, ws, w)(c) == [ErrorMessage(c, ws, CellSearch(fares, ws, w, c).error)]
  {
  }

  /**
   * A lookup that raises costs only its own cell: the cells before and after
   * it contribute exactly the trips they would without it.
   */
  lemma FailedCellKeepsTrips(fares: Provider, ws: Day, w: TimeWindow, before: seq<Cell>, c: Cell, after: seq<Cell>)
    requires CellSearch(fares, ws, w, c).Failure?
    ensures FlatMap(before + [c] + after, CellTrips(fares, ws, w)) == FlatMap(before + after, CellTrips(fares, ws, w))
  {
    var trips := CellTrips(fares, ws, w);
    FailedCell(fares, ws, w, c);
    FlatMapSplit(before, c, after, trips);
    FlatMapAppend(before, after, trips);
  }

  /** A lookup that raises adds exactly its own message, between those of the cells around it. */
  lemma FailedCellOneError(fares: Provider, ws: Day, w: TimeWindow, before: seq<Cell>, c: Cell, after: seq<Cell>)
    requires CellSearch(fares, ws, w, c).Failure?
    ensures FlatMap(before + [c] + after, CellErrors(fares, ws, w))
         == FlatMap(before, CellErrors(fares, ws, w)) + [ErrorMessage(c, ws, CellSearch(fares, ws, w, c).error)]
            + FlatMap(after, CellErrors(fares, ws, w))
  {
    FailedCell(fares, ws, w, c);
    FlatMapSplit(before, c, after, CellErrors(fares, ws, w));
  }

  /**
   * The week's options are the collected trips inside the price band, sorted
   * by total price and each kept as often as it was collected: those of the
   * strict pass, or of the relaxed pass when the flag says the strict pass
   * found none.
   */
  lemma WeekOptions(fares: Provider, config: SearchConfig, target: Day)
    ensures var r := WeekResult(fares, config, target);
      var ws := WeekStart(target);
      var strict := PassTrips(fares, config.routeCombinations, ws, StrictWindow);
      var relaxed := PassTrips(fares, config.routeCombinations, ws, config.relaxed);
      && (r.relaxedFilters <==> strict == [])
      && SortedBy(r.options, TotalPrice)
      && multiset(r.options) == multiset(InBand(Collected(fares, config, ws), config.minPrice, config.maxPrice))
      && forall t :: t in r.options <==>
           && config.minPrice <= TotalPrice(t) <= config.maxPrice
           && (if r.relaxedFilters then t in relaxed else t in strict)
  {
    var ws := WeekStart(target);
    var collected := Collected(fares, config, ws);
    var banded := InBand(collected, config.minPrice, config.maxPrice);
    InBandMembers(collected, config.minPrice, config.maxPrice);
    forall t ensures t in SortBy(banded, TotalPrice) <==> t in banded {
      calc {
        t in SortBy(banded, TotalPrice);
        t in multiset(SortBy(banded, TotalPrice));
        t in multiset(banded);
        t in banded;
      }
    }
  }

  /**
   * `list.sort` is stable: among the week's options of one total price, the
   * order is the order in which the passes collected them.
   */
  lemma WeekOptionsStable(fares: Provider, config: SearchConfig, target: Day, price: int)
    ensures var ws := WeekStart(target);
      WithKey(WeekResult(fares, config, target).options, TotalPrice, price)
        == WithKey(InBand(Collected(fares, config, ws), config.minPrice, config.maxPrice), TotalPrice, price)
  {
    var ws := WeekStart(target);
    SortByStable(InBand(Collected(fares, config, ws), config.minPrice, config.maxPrice), TotalPrice, price);
  }

  /** A trip of a cell of the week starting on Monday `ws` flies on the weekdays of the cell's day pair. */
  lemma CellTripDays(fares: Provider, ws: Day, w: TimeWindow, c: Cell, t: TripOption)
    requires Weekday(ws) == 0
    requires CellSearch(fares, ws, w, c).Ok? && t in CellSearch(fares, ws, w, c).value
    ensures TripWeekdays(t) == c.pair && t.outboundDate == ws + c.pair.0 && t.returnDate == ws + c.pair.1
  {
    TripSearchMember(fares, c.combo.outbound.origin, c.combo.outbound.destination, c.combo.inbound.destination,
                     ws + c.pair.0, ws + c.pair.1, w, t);
    WeekdayOfOffset(ws, c.pair.0);
    WeekdayOfOffset(ws, c.pair.1);
  }

  /** The legs of a trip of a cell are listings the provider gave for that cell's two lookups. */
  lemma CellTripLegs(fares: Provider, ws: Day, w: TimeWindow, c: Cell, t: TripOption)
    requires CellSearch(fares, ws, w, c).Ok? && t in CellSearch(fares, ws, w, c).value
    ensures var outs := fares(OutboundQuery(c.combo.outbound.origin, c.combo.outbound.destination, ws + c.pair.0, w));
      outs.Ok? && t.outbound in outs.value
    ensures var rets := fares(ReturnQuery(c.combo.outbound.destination, c.combo.inbound.destination, ws + c.pair.1, w));
      rets.Ok? && t.returnFlight in rets.value
  {
    var origin, via, destination := c.combo.outbound.origin, c.combo.outbound.destination, c.combo.inbound.destination;
    TripSearchMember(fares, origin, via, destination, ws + c.pair.0, ws + c.pair.1, w, t);
    var outs := fares(OutboundQuery(origin, via, ws + c.pair.0, w)).value;
    var rets := fares(ReturnQuery(via, destination, ws + c.pair.1, w)).value;
    assert t.outbound in outs[..|Take3(outs)|];
    assert t.returnFlight in rets[..|Take3(rets)|];
  }

  /** Every trip a pass collects flies on the two weekdays of one entry of `DAY_PAIRS` of the week starting `ws`. */
  lemma PassTripDays(fares: Provider, combos: seq<RouteCombination>, ws: Day, w: TimeWindow, t: TripOption)
    requires Weekday(ws) == 0
    requires t in PassTrips(fares, combos, ws, w)
    ensures exists p :: (p in DayPairs && TripWeekdays(t) == p && t.outboundDate == ws + p.0 && t.returnDate == ws + p.1)
  {
    PassTripSource(fares, combos, ws, w, t);
    var c :| c in Cells(DayPairs, combos) && CellSearch(fares, ws, w, c).Ok? && t in CellSearch(fares, ws, w, c).value;
    CellsMember(DayPairs, combos, c);
    CellTripDays(fares, ws, w, c, t);
  }

  /**
   * Every option of the week flies out and back on the two weekdays of one
   * entry of `DAY_PAIRS`, in the week of the target date.
   */
  lemma WeekTripDays(fares: Provider, config: SearchConfig, target: Day, t: TripOption)
    requires t in WeekResult(fares, config, target).options
    ensures exists p :: (p in DayPairs && TripWeekdays(t) == p
      && t.outboundDate == WeekStart(target) + p.0 && t.returnDate == WeekStart(target) + p.1)
  {
    WeekOptions(fares, config, target);
    var w := if WeekResult(fares, config, target).relaxedFilters then config.relaxed else StrictWindow;
    PassTripDays(fares, config.routeCombinations, WeekStart(target), w, t);
  }

  /**
   * One message per strict lookup that raised: no error exactly when every
   * strict lookup succeeded, and never more errors than cells.
   */
  lemma WeekErrors(fares: Provider, config: SearchConfig, target: Day)
    ensures var r := WeekResult(fares, config, target);
      var ws := WeekStart(target);
      && |r.errors| <= |DayPairs| * |config.routeCombinations|
      && (r.errors == [] <==>
            forall c :: c in Cells(DayPairs, config.routeCombinations) ==> CellSearch(fares, ws, StrictWindow, c).Ok?)
  {
    var ws := WeekStart(target);
    var cells := Cells(DayPairs, config.routeCombinations);
    var errors := CellErrors(fares, ws, StrictWindow);
    forall k | 0 <= k < |cells| ensures |errors(cells[k])| <= 1 { }
    FlatMapAtMostOne(cells, errors);
    CellCount(DayPairs, config.routeCombinations);
    if forall c :: c in cells ==> CellSearch(fares, ws, StrictWindow, c).Ok? {
      forall k | 0 <= k < |cells| ensures errors(cells[k]) == [] {
        assert cells[k] in cells;
      }
      FlatMapEmpty(cells, errors);
    } else {
      var c :| c in cells && CellSearch(fares, ws, StrictWindow, c).Failure?;
      var k :| 0 <= k < |cells| && cells[k] == c;
      FlatMapContains(cells, errors, k, ErrorMessage(c, ws, CellSearch(fares, ws, StrictWindow, c).error));
    }
  }

  /**
   * The best option and the best option of each day pair are cheapest:
   * no option of the week (of that day pair) costs less.
   */
  lemma WeekBestIsCheapest(fares: Provider, config: SearchConfig, target: Day, t: TripOption)
    requires t in WeekResult(fares, config, target).options
    ensures var r := WeekResult(fares, config, target);
      && BestOption(r).Some? && TotalPrice(BestOption(r).value) <= TotalPrice(t)
      && FirstMatching(r.options, TripWeekdays(t)).Some?
      && TotalPrice(FirstMatching(r.options, TripWeekdays(t)).value) <= TotalPrice(t)
  {
    var r := WeekResult(fares, config, target);
    BestOptionIsCheapest(r, t);
    FirstMatchingIsCheapest(r.options, TripWeekdays(t), t);
  }
}
