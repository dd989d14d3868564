/**
 * The booking links of src/url_builder.py: a Skyscanner search URL built from
 * lower-cased airport codes and `YYMMDD` dates, and a Trainline timetable URL
 * for the routes whose airports have a city in `TRAINLINE_CITIES`.
 */
module Urls {
  import opened Wrappers
  import opened Text
  import opened Calendar

  /** `TRAINLINE_CITIES`: the airports with a Trainline city page. */
  const TrainlineCities: map<string, string> := map["MAD" := "madrid", "BCN" := "barcelona"]

  const SkyscannerBase: string := "https://www.skyscanner.es/transporte/vuelos/"
  const TrainlineBase: string := "https://www.thetrainline.com/es/train-times/"

  /**
   * `trainline_url`: `None` when either airport has no city; otherwise the
   * timetable page from the origin city to the destination city. Every city
   * name is non-empty, so the `not origin_city` test is the membership test.
   */
  function TrainlineUrl(origin: string, destination: string): (url: Option<string>)
    ensures url.None? <==> origin !in TrainlineCities || destination !in TrainlineCities
    ensures url.Some? ==> url.value == TrainlineBase + TrainlineCities[origin] + "-to-" + TrainlineCities[destination]
  {
    if origin !in TrainlineCities || destination !in TrainlineCities then None
    else Some(TrainlineBase + TrainlineCities[origin] + "-to-" + TrainlineCities[destination])
  }

  /** Both directions between Madrid and Barcelona have a page; Oviedo and unknown codes have none. */
  lemma TrainlineRoutes()
    ensures TrainlineUrl("MAD", "BCN") == Some("https://www.thetrainline.com/es/train-times/madrid-to-barcelona")
    ensures TrainlineUrl("BCN", "MAD") == Some("https://www.thetrainline.com/es/train-times/barcelona-to-madrid")
    ensures TrainlineUrl("OVD", "BCN") == None && TrainlineUrl("XXX", "BCN") == None
  {
    assert TrainlineBase + "madrid" + "-to-" + "barcelona" == "https://www.thetrainline.com/es/train-times/madrid-to-barcelona";
    assert TrainlineBase + "barcelona" + "-to-" + "madrid" == "https://www.thetrainline.com/es/train-times/barcelona-to-madrid";
  }

  /** The path segments of a Skyscanner search: origin, destination, outbound date. */
  function SkyscannerOneWay(origin: string, destination: string, outbound: Day): string
  {
    SkyscannerBase + Lower(origin) + "/" + Lower(destination) + "/" + YyMmDd(outbound) + "/"
  }

  /**
   * `skyscanner_url`: the one-way search, followed by the return date when
   * there is one. A `date` is always truthy, so `if return_date` tests for
   * `None` only.
   */
  function SkyscannerUrl(origin: string, destination: string, outbound: Day, ret: Option<Day>): (url: string)
    ensures |SkyscannerBase| < |url| && url[..|SkyscannerBase|] == SkyscannerBase
    ensures url[|url| - 1] == '/'
  {
    var oneWay := SkyscannerOneWay(origin, destination, outbound);
    match ret
    case None => oneWay
    case Some(r) => oneWay + YyMmDd(r) + "/"
  }

  /** The round-trip URL is the one-way URL with the return date appended as one more segment. */
  lemma SkyscannerRoundTripExtendsOneWay(origin: string, destination: string, outbound: Day, ret: Day)
    ensures SkyscannerUrl(origin, destination, outbound, Some(ret))
         == SkyscannerUrl(origin, destination, outbound, None) + YyMmDd(ret) + "/"
    ensures |SkyscannerUrl(origin, destination, outbound, Some(ret))| == |SkyscannerUrl(origin, destination, outbound, None)| + 7
  {
  }

  /** The one-way URL read back: base, origin, `/`, destination, `/`, the six date digits, `/`. */
  lemma OneWaySegments(origin: string, destination: string, outbound: Day)
    ensures var w := SkyscannerOneWay(origin, destination, outbound);
      var b := |SkyscannerBase|;
      var k := b + |origin| + 1 + |destination| + 1;
      && |w| == k + 7
      && w[b..b + |origin|] == Lower(origin)
      && w[b + |origin|] == '/'
      && w[b + |origin| + 1..k - 1] == Lower(destination)
      && w[k - 1] == '/'
      && w[k..k + 6] == YyMmDd(outbound)
      && w[k + 6] == '/'
  {
    var b := |SkyscannerBase|;
    var k := b + |origin| + 1 + |destination| + 1;
    var lo, ld, od := Lower(origin), Lower(destination), YyMmDd(outbound);
    var w := SkyscannerOneWay(origin, destination, outbound);
    assert w == SkyscannerBase + lo + "/" + ld + "/" + od + "/";
    assert w[b..b + |origin|] == lo;
    assert w[b + |origin| + 1..k - 1] == ld;
    assert w[k..k + 6] == od;
  }

  /** A slice inside a prefix is the same slice of the whole string. */
  lemma SliceOfPrefix(u: string, w: string, i: nat, j: nat)
    requires |w| <= |u| && u[..|w|] == w && i <= j <= |w|
    ensures u[i..j] == w[i..j]
  {
    forall t | 0 <= t < j - i
      ensures u[i..j][t] == w[i..j][t]
    {
      assert u[i + t] == u[..|w|][i + t];
    }
  }

  /**
   * Reading a Skyscanner URL back: after the base come the lower-cased
   * origin, `/`, the lower-cased destination, `/`, then the outbound date as
   * two-digit year, month and day, `/`, and, only for a round trip, the
   * return date the same way and a final `/`.
   */
  lemma SkyscannerSegments(origin: string, destination: string, outbound: Day, ret: Option<Day>)
    ensures var url := SkyscannerUrl(origin, destination, outbound, ret);
      var b := |SkyscannerBase|;
      var k := b + |origin| + 1 + |destination| + 1;
      var out := FromOrdinal(outbound);
      && |url| == k + 7 + (if ret.Some? then 7 else 0)
      && url[b..b + |origin|] == Lower(origin)
      && url[b + |origin|] == '/'
      && url[b + |origin| + 1..k - 1] == Lower(destination)
      && url[k - 1] == '/'
      && |url[k..k + 6]| == 6 && IsDigits(url[k..k + 6])
      && ParseYyMmDd(url[k..k + 6]) == (out.year % 100, out.month, out.day)
      && url[k + 6] == '/'
      && (ret.Some? ==>
            var back := FromOrdinal(ret.value);
            && |url[k + 7..k + 13]| == 6 && IsDigits(url[k + 7..k + 13])
            && ParseYyMmDd(url[k + 7..k + 13]) == (back.year % 100, back.month, back.day))
  {
    var url := SkyscannerUrl(origin, destination, outbound, ret);
    var b := |SkyscannerBase|;
    var k := b + |origin| + 1 + |destination| + 1;
    var oneWay := SkyscannerOneWay(origin, destination, outbound);
    OneWaySegments(origin, destination, outbound);
    YyMmDdRoundTrip(outbound);
    if ret.Some? {
      var back := YyMmDd(ret.value);
      assert url == oneWay + back + "/";
      assert url[..|oneWay|] == oneWay;
      SliceOfPrefix(url, oneWay, b, b + |origin|);
      SliceOfPrefix(url, oneWay, b + |origin| + 1, k - 1);
      SliceOfPrefix(url, oneWay, k, k + 6);
      assert url[k + 7..k + 13] == back;
      YyMmDdRoundTrip(ret.value);
    }
  }

  /** 28 January 2026, the outbound date of the URL tests, reads `260128`. */
  lemma SkyscannerExampleDate(d: Day)
    requires FromOrdinal(d) == Civil(2026, 1, 28)
    ensures YyMmDd(d) == "260128"
  {
    Pad2Digits(26);
    Pad2Digits(1);
    Pad2Digits(28);
  }
}
