/**
 * The Telegram text of src/formatter.py: one block per top trip option, the
 * per-day-pair summary, the best-days recommendation and the whole weekly
 * message, or the "nothing found" message with the search errors.
 */
module Formatter {
  import opened Wrappers
  import opened Text
  import opened Calendar
  import opened Settings
  import opened Fares
  import opened Search

  /**
   * `f"{x:.0f}"` of an amount held in cents: whole euros, to the nearest,
   * a half euro going to the even neighbour.
   */
  function RoundedEuros(cents: nat): nat
  {
    var q, r := cents / 100, cents % 100;
    if r > 50 || (r == 50 && q % 2 == 1) then q + 1 else q
  }

  /**
   * The rounded amount is within half a euro of the exact one, is exact for
   * whole euros, and breaks a tie towards an even number of euros.
   */
  lemma RoundedEurosNearest(cents: nat)
    ensures -50 <= RoundedEuros(cents) * 100 - cents <= 50
    ensures cents % 100 == 0 ==> RoundedEuros(cents) * 100 == cents
    ensures cents % 100 == 50 ==> RoundedEuros(cents) % 2 == 0
  {
  }

  /** The rendered euro amount. */
  function EurosText(cents: nat): string
  {
    NatToString(RoundedEuros(cents))
  }

  /** The rendered amount is a run of digits that reads back as the rounded amount. */
  lemma EurosTextReadsBack(cents: nat)
    ensures IsDigits(EurosText(cents)) && DigitsValue(EurosText(cents)) == RoundedEuros(cents)
  {
    NatToStringRoundTrip(RoundedEuros(cents));
  }

  /** The month abbreviations of `_month_name`, January first. */
  const MonthAbbreviations: seq<string> :=
    ["ene", "feb", "mar", "abr", "may", "jun", "jul", "ago", "sep", "oct", "nov", "dic"]

  /** `_month_name`: the Spanish abbreviation, or the number itself outside 1..12. */
  function MonthName(m: int): string
  {
    if 1 <= m <= 12 then MonthAbbreviations[m - 1] else IntToString(m)
  }

  /** The month an abbreviation stands for, 0 for any other text. */
  function MonthNumber(name: string): int
  {
    if name == "ene" then 1 else if name == "feb" then 2 else if name == "mar" then 3
    else if name == "abr" then 4 else if name == "may" then 5 else if name == "jun" then 6
    else if name == "jul" then 7 else if name == "ago" then 8 else if name == "sep" then 9
    else if name == "oct" then 10 else if name == "nov" then 11 else if name == "dic" then 12
    else 0
  }

  /**
   * A month in range is named by a three-letter abbreviation that reads back
   * as that month; any other number is written out in digits.
   */
  lemma MonthNameRoundTrip(m: int)
    ensures 1 <= m <= 12 ==> |MonthName(m)| == 3 && MonthNumber(MonthName(m)) == m
    ensures !(1 <= m <= 12) ==> MonthName(m) == IntToString(m) && MonthNumber(MonthName(m)) == 0
  {
    if !(1 <= m <= 12) {
      var s := IntToString(m);
      assert s[0] == '-' || IsDigit(s[0]);
      assert s != "ene" && s != "feb" && s != "mar" && s != "abr" && s != "may" && s != "jun";
      assert s != "jul" && s != "ago" && s != "sep" && s != "oct" && s != "nov" && s != "dic";
    }
  }

  /** Different months give different names. */
  lemma MonthNameInjective(m1: int, m2: int)
    requires MonthName(m1) == MonthName(m2)
    ensures m1 == m2
  {
    MonthNameRoundTrip(m1);
    MonthNameRoundTrip(m2);
    if !(1 <= m1 <= 12) && !(1 <= m2 <= 12) {
      IntToStringInjective(m1, m2);
    }
  }

  /** The medal of `format_trip_option`: three named ranks, then `#<rank>`. */
  function Medal(rank: int): string
  {
    if rank == 1 then "🥇 MEJOR OPCIÓN"
    else if rank == 2 then "🥈 Segunda"
    else if rank == 3 then "🥉 Tercera"
    else "#" + IntToString(rank)
  }

  /** Every rank gets its own medal. */
  lemma MedalInjective(r1: int, r2: int)
    requires Medal(r1) == Medal(r2)
    ensures r1 == r2
  {
    assert Medal(r1)[0] == Medal(r2)[0];
    if Medal(r1)[0] == '#' {
      assert IntToString(r1) == Medal(r1)[1..];
      assert IntToString(r2) == Medal(r2)[1..];
      IntToStringInjective(r1, r2);
    }
  }

  /** `f"{origin}→{destination} {departure_time_str} ({transport_type}) {price:.0f}€"`, indented. */
  function LegLine(f: FlightOption): string
  {
    "   " + f.origin + "→" + f.destination + " " + DepartureTimeText(f)
      + " (" + f.transportType + ") " + EurosText(f.price) + "€"
  }

  /** The first line of a trip block: medal and total price. */
  function TripHeadline(t: TripOption, rank: int): string
  {
    Medal(rank) + ": " + EurosText(TotalPrice(t)) + "€"
  }

  /** The four lines of `format_trip_option`. */
  function TripLines(t: TripOption, rank: int): seq<string>
  {
    [ TripHeadline(t, rank),
      "   " + DayNames[Weekday(t.outboundDate)] + " " + NatToString(FromOrdinal(t.outboundDate).day)
        + " → " + DayNames[Weekday(t.returnDate)] + " " + NatToString(FromOrdinal(t.returnDate).day),
      LegLine(t.outbound),
      LegLine(t.returnFlight) ]
  }

  /** `format_trip_option`: the four lines joined by newlines. */
  function FormatTripOption(t: TripOption, rank: int): string
  {
    Join(TripLines(t, rank), "\n")
  }

  /**
   * A trip block opens with its medal and the total price in whole euros,
   * and the total is the sum of the two legs to within half a euro.
   */
  lemma TripOptionHeadline(t: TripOption, rank: int)
    ensures var h := Medal(rank) + ": " + EurosText(TotalPrice(t)) + "€";
      |h| <= |FormatTripOption(t, rank)| && FormatTripOption(t, rank)[..|h|] == h
    ensures -50 <= RoundedEuros(TotalPrice(t)) * 100 - (t.outbound.price + t.returnFlight.price) <= 50
  {
    JoinPrefix(TripLines(t, rank), "\n");
    RoundedEurosNearest(TotalPrice(t));
  }

  /** `f"{day1}-{day2}"`: the initials of the two weekdays of a pair. */
  function DayInitials(p: DayPair): string
  {
    [DayNames[p.0][0], '-', DayNames[p.1][0]]
  }

  /** One part of `format_day_summary`: the cheapest total on that pair, or `-`. */
  function DayPart(p: DayPair, best: Option<TripOption>): string
  {
    match best
    case Some(t) => DayInitials(p) + ": desde " + EurosText(TotalPrice(t)) + "€"
    case None => DayInitials(p) + ": -"
  }

  /** The parts of the summary, one per entry of `DAY_PAIRS`. */
  function DaySummaryParts(r: SearchResult): (parts: seq<string>)
    ensures |parts| == |DayPairs|
  {
    seq(|DayPairs|, i requires 0 <= i < |DayPairs| => DayPart(DayPairs[i], FirstMatching(r.options, DayPairs[i])))
  }

  /** `format_day_summary`: the parts joined by ` | `. */
  function DaySummary(r: SearchResult): string
  {
    Join(DaySummaryParts(r), " | ")
  }

  /** `format_day_summary`, walking `DAY_PAIRS` over the map of best options. */
  method FormatDaySummary(result: SearchResult) returns (summary: string)
    ensures summary == DaySummary(result)
  {
    var bestByDay := BestByDayPair(result);
    var parts: seq<string> := [];
    for i := 0 to |DayPairs|
      invariant parts == DaySummaryParts(result)[..i]
    {
      var dayPair := DayPairs[i];
      assert dayPair in DayPairs;
      var option := bestByDay[dayPair];
      var part: string;
      if option.Some? {
        part := DayInitials(dayPair) + ": desde " + EurosText(TotalPrice(option.value)) + "€";
      } else {
        part := DayInitials(dayPair) + ": -";
      }
      assert part == DaySummaryParts(result)[i];
      assert DaySummaryParts(result)[..i + 1] == DaySummaryParts(result)[..i] + [part];
      parts := parts + [part];
    }
    assert parts == DaySummaryParts(result);
    summary := Join(parts, " | ");
  }

  /**
   * A summary part reads `-` exactly when no option flies on that pair of
   * weekdays; otherwise, when the options are sorted by total price, the
   * price it shows is that of an option on the pair no dearer than any other.
   */
  lemma DayPartMeaning(r: SearchResult, i: nat)
    requires i < |DayPairs|
    ensures DaySummaryParts(r)[i] == DayInitials(DayPairs[i]) + ": -"
        <==> forall t :: t in r.options ==> TripWeekdays(t) != DayPairs[i]
    ensures (exists t :: t in r.options && TripWeekdays(t) == DayPairs[i]) ==>
      exists b :: (b in r.options && TripWeekdays(b) == DayPairs[i]
        && DaySummaryParts(r)[i] == DayInitials(DayPairs[i]) + ": desde " + EurosText(TotalPrice(b)) + "€"
        && (Sorting.SortedBy(r.options, TotalPrice) ==>
              forall t :: t in r.options && TripWeekdays(t) == DayPairs[i] ==> TotalPrice(b) <= TotalPrice(t)))
  {
    var p := DayPairs[i];
    var best := FirstMatching(r.options, p);
    if best.Some? {
      var b := best.value;
      var k :| 0 <= k < |r.options| && r.options[k] == b && TripWeekdays(b) == p;
      assert b in r.options;
      assert |DaySummaryParts(r)[i]| > |DayInitials(p) + ": -"|;
      if Sorting.SortedBy(r.options, TotalPrice) {
        forall t | t in r.options && TripWeekdays(t) == p ensures TotalPrice(b) <= TotalPrice(t) {
          FirstMatchingIsCheapest(r.options, p, t);
        }
      }
    }
  }

  /** `find_best_days`: the weekday names of the best option, or `Sin datos`. */
  function FindBestDays(r: SearchResult): (s: string)
    ensures s == "Sin datos" <==> r.options == []
    ensures r.options != [] ==>
      s == DayNames[Weekday(r.options[0].outboundDate)] + "-" + DayNames[Weekday(r.options[0].returnDate)]
  {
    match BestOption(r)
    case None => "Sin datos"
    case Some(best) =>
      assert |DayNames[Weekday(best.outboundDate)]| == 3;
      DayNames[Weekday(best.outboundDate)] + "-" + DayNames[Weekday(best.returnDate)]
  }

  const Title: string := "VUELOS BCN - Semana del "
  /** The warning sign that opens the warning lines. */
  const WarningSign: string := "⚠️"
  const RelaxedWarning: string := WarningSign + " Sin opciones en horario estricto, mostrando horarios ampliados"
  const SummaryTitle: string := "📊 Resumen por días:"
  const BestDayLabel: string := "💡 Mejor día: "
  const NothingFound: string := "No se encontraron opciones con los filtros configurados."

  /** `f"{week_start.day} {_month_name(week_start.month)}"`. */
  function WeekLabel(ws: Day): string
  {
    var c := FromOrdinal(ws);
    NatToString(c.day) + " " + MonthName(c.month)
  }

  /** The week label gives back the day of the month and the month of the week's Monday. */
  lemma WeekLabelMeaning(ws: Day)
    ensures var c := FromOrdinal(ws);
      var digits := NatToString(c.day);
      && |digits| + 4 == |WeekLabel(ws)|
      && DigitsValue(WeekLabel(ws)[..|digits|]) == c.day
      && WeekLabel(ws)[|digits|] == ' '
      && MonthNumber(WeekLabel(ws)[|digits| + 1..]) == c.month
  {
    var c := FromOrdinal(ws);
    var digits := NatToString(c.day);
    MonthNameRoundTrip(c.month);
    NatToStringRoundTrip(c.day);
    assert WeekLabel(ws)[..|digits|] == digits;
    assert WeekLabel(ws)[|digits| + 1..] == MonthName(c.month);
  }

  /** `f"⚠️ Hubo {len(errors)} errores durante la búsqueda"`. */
  function ErrorCountLine(n: nat): string
  {
    WarningSign + " Hubo " + NatToString(n) + " errores durante la búsqueda"
  }

  /** The message when the week has no option: title, notice and every error message. */
  function EmptyMessage(r: SearchResult): string
  {
    WarningSign + " " + Title + WeekLabel(r.weekStart) + "\n\n" + NothingFound + "\n\n"
      + (if r.errors != [] then Join(r.errors, "\n") else "")
  }

  /** How many options are shown: `options[:top]`. */
  function Shown(r: SearchResult, top: nat): (n: nat)
    ensures n <= |r.options| && n <= top
    ensures n == top || n == |r.options|
  {
    if top < |r.options| then top else |r.options|
  }

  /** The blocks `block(option, rank)` of the first `n` options, each followed by an empty line, ranked from 1. */
  function TopBlocks(options: seq<TripOption>, n: nat, block: (TripOption, int) -> string): (lines: seq<string>)
    requires n <= |options|
    ensures |lines| == 2 * n
  {
    if n == 0 then [] else TopBlocks(options, n - 1, block) + [block(options[n - 1], n), ""]
  }

  /** The number of lines before the first block: 4 after the relaxed warning, 2 otherwise. */
  function BlockOffset(r: SearchResult): nat
  {
    if r.relaxedFilters then 4 else 2
  }

  /** The lines before the blocks: title, empty line and, when relaxed, the warning and an empty line. */
  function Preamble(r: SearchResult): (lines: seq<string>)
    ensures |lines| == BlockOffset(r)
  {
    ["✈️ " + Title + WeekLabel(r.weekStart), ""] + (if r.relaxedFilters then [RelaxedWarning, ""] else [])
  }

  /** The lines after the blocks: summary, recommendation and, when there were errors, their count. */
  function Closing(r: SearchResult): (lines: seq<string>)
    ensures |lines| == 4 + (if r.errors != [] then 2 else 0)
  {
    [SummaryTitle, "   " + DaySummary(r), "", BestDayLabel + FindBestDays(r)]
      + (if r.errors != [] then ["", ErrorCountLine(|r.errors|)] else [])
  }

  /** The lines of a message for a week with options. */
  function MessageLines(r: SearchResult, top: nat): (lines: seq<string>)
    ensures |lines| == BlockOffset(r) + 2 * Shown(r, top) + 4 + (if r.errors != [] then 2 else 0)
  {
    Preamble(r) + TopBlocks(r.options, Shown(r, top), FormatTripOption) + Closing(r)
  }

  /** `format_telegram_message`, with `TOP_OPTIONS_TO_SHOW` as `top`. */
  function Message(r: SearchResult, top: nat): string
  {
    if r.options == [] then EmptyMessage(r) else Join(MessageLines(r, top), "\n")
  }

  /**
   * The `for i, option in enumerate(options[:top], 1)` loop: each option's
   * block, rendered by `block` (`format_trip_option`), and an empty line after it.
   */
  method AppendTopBlocks(lines: seq<string>, options: seq<TripOption>, n: nat, block: (TripOption, int) -> string)
    returns (out: seq<string>)
    requires n <= |options|
    ensures out == lines + TopBlocks(options, n, block)
  {
    out := lines;
    var shown := options[..n];
    for i := 0 to |shown|
      invariant out == lines + TopBlocks(options, i, block)
    {
      out := out + [block(shown[i], i + 1)];
      out := out + [""];
    }
  }

  /** `format_telegram_message`, building the list of lines step by step. */
  method FormatTelegramMessage(result: SearchResult, top: nat) returns (message: string)
    ensures message == Message(result, top)
  {
    if result.options == [] {
      var errorsText := if result.errors != [] then Join(result.errors, "\n") else "";
      message := WarningSign + " " + Title + WeekLabel(result.weekStart) + "\n\n" + NothingFound + "\n\n" + errorsText;
      return;
    }
    var lines: seq<string> := ["✈️ " + Title + WeekLabel(result.weekStart), ""];
    if result.relaxedFilters {
      lines := lines + [RelaxedWarning];
      lines := lines + [""];
    }
    assert lines == Preamble(result);
    lines := AppendTopBlocks(lines, result.options, Shown(result, top), FormatTripOption);
    var summary := FormatDaySummary(result);
    var closing := [SummaryTitle, "   " + summary, "", BestDayLabel + FindBestDays(result)];
    if result.errors != [] {
      closing := closing + ["", ErrorCountLine(|result.errors|)];
    }
    assert closing == Closing(result);
    lines := lines + closing;
    message := Join(lines, "\n");
  }

  /** Block `k` of the top blocks is the `k+1`-ranked option, followed by an empty line. */
  lemma {:induction false} TopBlocksAt(options: seq<TripOption>, n: nat, block: (TripOption, int) -> string, k: nat)
    requires n <= |options| && k < n
    ensures TopBlocks(options, n, block)[2 * k] == block(options[k], k + 1)
    ensures TopBlocks(options, n, block)[2 * k + 1] == ""
  {
    if k < n - 1 {
      TopBlocksAt(options, n - 1, block, k);
    }
  }

  /**
   * The layout of a message for a week with options: the `min(top, |options|)`
   * best options in rank order from line `BlockOffset`, each followed by an
   * empty line, then the summary heading.
   */
  lemma MessageBlocks(r: SearchResult, top: nat)
    requires r.options != []
    ensures var lines := MessageLines(r, top);
      var off := BlockOffset(r);
      var n := Shown(r, top);
      && |lines| == off + 2 * n + 4 + (if r.errors != [] then 2 else 0)
      && (forall k :: 0 <= k < n ==>
            lines[off + 2 * k] == FormatTripOption(r.options[k], k + 1) && lines[off + 2 * k + 1] == "")
      && lines[off + 2 * n] == SummaryTitle
      && lines[off + 2 * n + 1] == "   " + DaySummary(r)
      && lines[off + 2 * n + 3] == BestDayLabel + FindBestDays(r)
  {
    LayoutBlocks(Preamble(r), r.options, Shown(r, top), FormatTripOption, Closing(r));
    SummaryLines(r, top);
  }

  /** Every block of the top blocks, placed after any prefix and before any suffix. */
  lemma LayoutBlocks(pre: seq<string>, options: seq<TripOption>, n: nat, block: (TripOption, int) -> string,
                     close: seq<string>)
    requires n <= |options|
    ensures forall k :: 0 <= k < n ==>
      && (pre + TopBlocks(options, n, block) + close)[|pre| + 2 * k] == block(options[k], k + 1)
      && (pre + TopBlocks(options, n, block) + close)[|pre| + 2 * k + 1] == ""
  {
    forall k | 0 <= k < n
      ensures (pre + TopBlocks(options, n, block) + close)[|pre| + 2 * k] == block(options[k], k + 1)
      ensures (pre + TopBlocks(options, n, block) + close)[|pre| + 2 * k + 1] == ""
    {
      LayoutBlock(pre, options, n, block, close, k);
    }
  }

  /** After the blocks: the summary heading, the day summary, an empty line, the recommendation. */
  lemma SummaryLines(r: SearchResult, top: nat)
    ensures var lines := MessageLines(r, top);
      var i := BlockOffset(r) + 2 * Shown(r, top);
      && lines[i] == SummaryTitle
      && lines[i + 1] == "   " + DaySummary(r)
      && lines[i + 3] == BestDayLabel + FindBestDays(r)
  {
    var pre, blocks, close := Preamble(r), TopBlocks(r.options, Shown(r, top), FormatTripOption), Closing(r);
    var i := BlockOffset(r) + 2 * Shown(r, top);
    assert MessageLines(r, top) == pre + blocks + close;
    assert |pre| + |blocks| == i;
    ClosingLines(r);
    TailAt(pre, blocks, close, 0);
    TailAt(pre, blocks, close, 1);
    TailAt(pre, blocks, close, 3);
  }

  /** The first lines of the closing part. */
  lemma ClosingLines(r: SearchResult)
    ensures Closing(r)[0] == SummaryTitle
    ensures Closing(r)[1] == "   " + DaySummary(r)
    ensures Closing(r)[3] == BestDayLabel + FindBestDays(r)
  {
  }

  /** A message with options opens with the title and the week's Monday, then an empty line. */
  lemma MessageTitle(r: SearchResult, top: nat)
    requires r.options != []
    ensures MessageLines(r, top)[0] == "✈️ " + Title + WeekLabel(r.weekStart)
    ensures MessageLines(r, top)[1] == ""
  {
    var pre, blocks, close := Preamble(r), TopBlocks(r.options, Shown(r, top), FormatTripOption), Closing(r);
    PreambleLines(r);
    HeadAt(pre, blocks, close, 0);
    HeadAt(pre, blocks, close, 1);
  }

  /** The first two lines of the preamble. */
  lemma PreambleLines(r: SearchResult)
    ensures Preamble(r)[0] == "✈️ " + Title + WeekLabel(r.weekStart)
    ensures Preamble(r)[1] == ""
  {
  }

  /** Without the warning, the third line opens the first block, which starts with the gold medal. */
  lemma ThirdLineIsFirstBlock(r: SearchResult, top: nat)
    requires r.options != [] && !r.relaxedFilters && Shown(r, top) > 0
    ensures MessageLines(r, top)[2] == FormatTripOption(r.options[0], 1)
  {
    var n := Shown(r, top);
    var pre, blocks, close := Preamble(r), TopBlocks(r.options, n, FormatTripOption), Closing(r);
    assert pre + blocks + close == MessageLines(r, top);
    TopBlocksAt(r.options, n, FormatTripOption, 0);
    MiddleAt(pre, blocks, close, 0);
  }

  /** Without the warning and with nothing shown, the third line is the summary heading. */
  lemma ThirdLineIsSummary(r: SearchResult, top: nat)
    requires r.options != [] && !r.relaxedFilters && Shown(r, top) == 0
    ensures MessageLines(r, top)[2] == SummaryTitle
  {
    var pre, blocks, close := Preamble(r), TopBlocks(r.options, 0, FormatTripOption), Closing(r);
    assert pre + blocks + close == MessageLines(r, top);
    TailAt(pre, blocks, close, 0);
  }

  /** Block `k` of the top blocks, placed after any prefix and before any suffix. */
  lemma LayoutBlock(pre: seq<string>, options: seq<TripOption>, n: nat, block: (TripOption, int) -> string,
                    close: seq<string>, k: nat)
    requires n <= |options| && k < n
    ensures (pre + TopBlocks(options, n, block) + close)[|pre| + 2 * k] == block(options[k], k + 1)
    ensures (pre + TopBlocks(options, n, block) + close)[|pre| + 2 * k + 1] == ""
  {
    var blocks := TopBlocks(options, n, block);
    TopBlocksAt(options, n, block, k);
    MiddleAt(pre, blocks, close, 2 * k);
    MiddleAt(pre, blocks, close, 2 * k + 1);
  }

  /** The lines of the block of rank `k + 1`. */
  lemma BlockLines(r: SearchResult, top: nat, k: nat)
    requires k < Shown(r, top)
    ensures MessageLines(r, top)[BlockOffset(r) + 2 * k] == FormatTripOption(r.options[k], k + 1)
    ensures MessageLines(r, top)[BlockOffset(r) + 2 * k + 1] == ""
  {
    LayoutBlock(Preamble(r), r.options, Shown(r, top), FormatTripOption, Closing(r), k);
  }

  /** The block of the best option starts with the gold medal. */
  lemma GoldMedalFirst(t: TripOption)
    ensures |FormatTripOption(t, 1)| > 0 && FormatTripOption(t, 1)[0] == '🥇'
  {
    TripOptionHeadline(t, 1);
  }

  /** The third line is the relaxed-window warning exactly when the filters were relaxed. */
  lemma MessageWarnsIffRelaxed(r: SearchResult, top: nat)
    requires r.options != []
    ensures MessageLines(r, top)[2] == RelaxedWarning <==> r.relaxedFilters
  {
    if !r.relaxedFilters {
      if Shown(r, top) > 0 {
        ThirdLineIsFirstBlock(r, top);
        GoldMedalFirst(r.options[0]);
      } else {
        ThirdLineIsSummary(r, top);
      }
    }
  }

  /** An element of the first part of a concatenation. */
  lemma HeadAt(a: seq<string>, b: seq<string>, c: seq<string>, j: nat)
    requires j < |a|
    ensures (a + b + c)[j] == a[j]
  {
  }

  /** An element of the middle part of a concatenation. */
  lemma MiddleAt(a: seq<string>, b: seq<string>, c: seq<string>, j: nat)
    requires j < |b|
    ensures (a + b + c)[|a| + j] == b[j]
  {
  }

  /** An element of the last part of a concatenation. */
  lemma TailAt(a: seq<string>, b: seq<string>, c: seq<string>, j: nat)
    requires j < |c|
    ensures (a + b + c)[|a| + |b| + j] == c[j]
  {
  }

  /**
   * The message ends with the error count exactly when the search recorded
   * errors, and the count it reports is the number of error messages;
   * otherwise it ends with the recommendation.
   */
  lemma MessageErrorCount(r: SearchResult, top: nat)
    requires r.options != []
    ensures var lines := MessageLines(r, top);
      && (lines[|lines| - 1] == ErrorCountLine(|r.errors|) <==> r.errors != [])
      && (r.errors == [] ==> lines[|lines| - 1] == BestDayLabel + FindBestDays(r))
  {
    var lines := MessageLines(r, top);
    if r.errors == [] {
      assert lines[|lines| - 1] == BestDayLabel + FindBestDays(r);
      assert lines[|lines| - 1][0] != ErrorCountLine(|r.errors|)[0];
    }
  }

  /**
   * With no option the message is the title with the week, the notice, and
   * every error message one per line, in the order the search recorded them.
   */
  lemma EmptyMessageLayout(r: SearchResult, top: nat)
    requires r.options == []
    ensures var m := Message(r, top);
      var head := WarningSign + " " + Title + WeekLabel(r.weekStart) + "\n\n" + NothingFound + "\n\n";
      && |head| <= |m| && m[..|head|] == head
      && m[|head|..] == (if r.errors == [] then "" else Join(r.errors, "\n"))
  {
  }
}
