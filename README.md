# BCN flights: a Dafny model of the weekly fare search

bcn-flights is a batch job. Once a week it looks for the cheapest
"there in the morning, back in the evening" round trips to Barcelona. A
pass over a target week visits every pair of consecutive weekdays
(Monday–Tuesday through Thursday–Friday) and, for each, every route
combination. For each such cell it:

- looks up outbound flights that arrive by the window's latest arrival and
  return flights that leave from its earliest departure;
- pairs the three cheapest listings of each side.

Then, once for the whole week:

- the strict pass (arrive by 10:00, return from 17:00) runs first; only if it
  collected no trip at all does a second pass run with the relaxed window;
- the trips of the pass that counts are cut to a price band and sorted by
  total price.

The result is rendered as a Telegram message (top options, a per-day-pair
summary, the best pair of days and an error count). The message is posted
with a bounded number of retries.

This project models that decision logic in Dafny and proves what it
promises:

- `Fares` (src/amadeus_client.py):
  - the listing record `FlightOption` and its `HH:MM` and date helpers;
  - the carrier-name table;
  - `_parse_offer` on an already-typed offer record;
  - the clock-time filter;
  - the parse/filter/sort loop of `search_flights`.
- `Search` (src/search.py):
  - `TripOption.total_price`, `best_option` and `get_best_by_day_pair`;
  - `_search_trip` (short-circuiting 3×3 cross product);
  - `search_week` (strict pass with per-cell error capture, relaxed pass, price band, stable sort).
- `Wiring`: how `_search_trip` calls the fare client. The call as written, and the call as intended (see Findings).
- `Urls` (src/url_builder.py): the Skyscanner and Trainline links.
- `Formatter` (src/formatter.py): the trip block, the day summary, the best days and the whole message.
- `Telegram` (src/telegram.py):
  - the credential check;
  - the 4096-character cut;
  - the retry loop of `send_message`;
  - `send_error_alert`.
- Support modules:
  - `Calendar`: date ordinals with Python's `date.weekday()`, civil dates both ways, `YYMMDD`, ISO dates and `HH:MM`;
  - `Text`: decimal rendering and reading, `str.join`, ASCII `lower`;
  - `Sorting`: Python's stable `list.sort` by a key;
  - `Sequences`: concatenating per-item results, as the loops that `extend` a list do;
  - `Settings`: the constants of config/settings.py;
  - `Wrappers`: `Option` and `Result`.

How the model is set up:

- Dates are Python date ordinals. Day 1 is 1 January of year 1, a Monday.
- Clock times are minutes 0..1439. Seconds are dropped: the source compares `arrival_time.time()` and `departure_time.time()` with their seconds (src/amadeus_client.py:148-150), so it rejects an arrival at 10:00:30, which the model reads as 10:00 and accepts.
- Prices are whole euro cents, a natural number. A negative `float(offer["price"]["total"])` cannot be represented; the model takes every price to be zero or more.
- The fare provider is a parameter of the search: a function from a lookup to either listings or the exception the lookup raised.
- The Amadeus SDK is a parameter of `search_flights`.
- The answers to Telegram's HTTP posts are a parameter of `send_message`. Its posts and pauses are returned as a trace.
- Loops are modelled as methods with loop invariants. Each method's `ensures` ties its result to a specification function, and the lemmas state what the source promises about those functions.

## Model

| member | source | states |
|---|---|---|
| Calendar.Weekday | src/search.py:69 | `date.weekday()` is in 0..6 and is the number of days since the last Monday (ordinal 1 is a Monday) |
| Calendar.WeekStart | src/search.py:95 | the start of the target's week is a Monday, on or before the target, less than 7 days before it |
| Calendar.WeekStartUnique | src/search.py:95 | that Monday is the only Monday within the 7 days up to the target |
| Calendar.WeekdayOfOffset | src/search.py:105-106 | the day `k` days after the Monday (k < 7) has weekday `k`, so the travel dates fall on the weekdays of their day pair |
| Calendar.CivilRoundTrip | src/search.py:105-106 | the ordinal of a valid civil date converts back to that same date (date arithmetic loses nothing) |
| Calendar.OrdinalRoundTrip | src/search.py:105-106 | converting an ordinal to its civil date and back gives the ordinal |
| Calendar.IsoDateReadsBack | src/search.py:119 | `str(date)` / `isoformat()` is the year's digits (exactly four for years below 10000), `-`, two month digits, `-`, two day digits, and each part reads back as that part of the date |
| Calendar.YyMmDdRoundTrip | src/url_builder.py:34 | `strftime("%y%m%d")` is six digits that read back as the year mod 100, the month and the day of the date |
| Calendar.ClockTextRoundTrip | src/amadeus_client.py:31-37 | `strftime("%H:%M")` reads back as the clock time it renders |
| Text.Lower | src/url_builder.py:30-31 | `str.lower` on codes keeps the length and maps each ASCII capital to its small letter, leaving every other character alone |
| Text.LowerIdempotent | src/url_builder.py:30-31 | a lower-cased code has no capital left, and lower-casing it again changes nothing |
| Sorting.SortBy | src/search.py:150 | `sort(key=…)` gives a list ordered by key that is a permutation of its input |
| Sorting.SortByStable | src/search.py:150 | the sort is stable: the elements sharing a key keep their input order |
| Sorting.InsertSorted | src/search.py:150 | inserting into a list ordered by key keeps it ordered |
| Sorting.SortedHeadIsMin | src/search.py:59-61 | the head of a sorted list has the least key of all its elements |
| Fares.DepartureTimeText | src/amadeus_client.py:31-33 | `departure_time_str` is five characters `HH:MM`, zero-padded, reading back as the departure clock time |
| Fares.ArrivalTimeText | src/amadeus_client.py:35-37 | `arrival_time_str` is `HH:MM`, zero-padded, reading back as the arrival clock time |
| Fares.FlightDate | src/amadeus_client.py:39-41 | `flight_date` is the departure date |
| Fares.CarrierName | src/amadeus_client.py:125 | the carrier name is the table entry when the code is mapped, the code itself otherwise |
| Fares.CarrierTableHasNoTrains | src/amadeus_client.py:44-52 | the table maps IB, VY and UX to their airline names and leaves rail codes unmapped, so those show as the code |
| Fares.ParseOffer | src/amadeus_client.py:112-139 | an offer gives a listing exactly when every field read without a default is present; the listing carries the offer's total price and, from the first segment of the first itinerary, its origin and destination airports, departure and arrival times, carrier code, the carrier's name, and the flight number or "" when absent |
| Fares.ParseOfferIgnoresLaterLegs | src/amadeus_client.py:116-124 | only the first segment of the first itinerary is read, so for an offer with connections the listing is the first leg's, whatever the later legs are |
| Fares.ParseOfferRoundTrip | src/amadeus_client.py:112-136 | parsing the offer record of a listing (one itinerary, one segment) gives that listing back |
| Fares.MatchesTimeFilter | src/amadeus_client.py:141-152 | a listing passes exactly when no arrival bound is set or it arrives no later than the bound, and no departure bound is set or it leaves no earlier; with no bound set every listing passes |
| Fares.TimeFilterIgnoresDates | src/amadeus_client.py:148-150 | the filter compares clock times only: moving either leg to another day does not change the verdict |
| Fares.AcceptedMatch | src/amadeus_client.py:92-96 | every listing the loop collects passes the time filter |
| Fares.AcceptedKeeps | src/amadeus_client.py:92-96 | every well-formed offer that passes the filter is collected |
| Fares.MalformedOfferSkipped | src/amadeus_client.py:93-99 | a malformed offer is skipped alone: the others are collected as if it were absent |
| Fares.FareSearchFiltered | src/amadeus_client.py:91-103 | every listing `search_flights` returns passes the time filter, and they come cheapest first |
| Fares.SearchFlights | src/amadeus_client.py:78-110 | the loop returns `[]` on a provider error; otherwise a price-sorted permutation of the parsed offers that pass the filter |
| Search.BestOption | src/search.py:59-61 | `best_option` is `None` exactly when there is no option, and the first option otherwise |
| Search.BestOptionIsCheapest | src/search.py:59-61 | over sorted options, no option costs less than the best one |
| Search.FirstMatching | src/search.py:67-71 | the value for a day pair is `None` exactly when no option flies on those weekdays; otherwise it is the first option that does |
| Search.FirstMatchingIsCheapest | src/search.py:63-72 | over sorted options, no option on a day pair costs less than that pair's best |
| Search.BestByDayPair | src/search.py:63-72 | the dictionary has exactly the `DAY_PAIRS` keys, each mapped to the first matching option or `None` |
| Search.Take3 | src/search.py:201-202 | `[:3]` is the prefix of length min(3, n) |
| Search.CrossProductAt | src/search.py:198-210 | with o outbounds and r returns the pairing has o·r trips, trip i·r+j pairing outbound i with return j on the two given dates (outbound-major order) |
| Search.CrossProductCell | src/search.py:198-210 | with r returns, trip i·r+j of the pairing joins outbound i and return j |
| Search.CrossProductMember | src/search.py:201-208 | every paired trip joins an outbound and a return listing of the two sides and carries the two travel dates |
| Search.SearchTrip | src/search.py:161-210 | the two nested loops build the specified trip list; a raised lookup propagates |
| Search.TripSearchShortCircuits | src/search.py:182-194 | an exception propagates; an empty outbound side gives `[]` whatever the return lookup answers; an empty return side gives `[]` |
| Search.NoOutboundNoReturnLookup | src/search.py:182-183 | with no outbound listing, two providers that differ only on the return lookup give the same `[]`: the return leg is never looked up |
| Search.TripSearchPairs | src/search.py:198-210 | with both sides non-empty, the trips are exactly min(3, o)·min(3, r) pairs (o outbound and r return listings) of the first three of each side, outbound-major, dated with the two travel dates |
| Search.TripSearchMember | src/search.py:201-208 | every trip is dated with the two travel dates, and its legs come from the first three listings of each lookup |
| Search.CellCount | src/search.py:104-108 | the loops visit one cell for each day pair and each route combination, as many as their two counts multiplied |
| Search.CellsMember | src/search.py:104-108 | the loops visit a (day pair, route combination) cell exactly when both are listed |
| Search.InBandMembers | src/search.py:146-149 | the price filter keeps exactly the trips whose total lies in [MIN_PRICE, MAX_PRICE] |
| Search.SearchPass | src/search.py:103-121 | one pass of the nested loops accumulates every cell's trips in visiting order and one error message per raised cell |
| Search.SearchWeek | src/search.py:81-159 | `search_week` computes the specified week result: Monday, strict pass, relaxed pass when the strict one found nothing, band, sort |
| Search.PassTripSource | src/search.py:109-117 | every collected trip comes from the successful lookup of one visited cell |
| Search.FailedCell | src/search.py:118-121 | a cell whose lookup raised adds no trip and exactly one `Error buscando …` message |
| Search.FailedCellKeepsTrips | src/search.py:109-121 | a raised cell does not stop the loop: the trips of the other cells are collected as if it were absent |
| Search.FailedCellOneError | src/search.py:118-121 | a raised cell adds exactly its own message, between those of the cells before and after it |
| Search.WeekOptions | src/search.py:123-150 | `relaxed_filters` holds exactly when the strict pass collected nothing; options are sorted by total price and a permutation of the in-band collected trips, so an option is exactly an in-band trip of the pass the flag names |
| Search.WeekOptionsStable | src/search.py:150 | options of equal total price keep the order in which the passes collected them |
| Search.CellTripDays | src/search.py:105-106 | a cell's trips fly on the cell's weekday pair, at `week_start + d0` and `week_start + d1` |
| Search.CellTripLegs | src/search.py:175-191 | a cell's trip legs are listings returned by that cell's outbound and return lookups |
| Search.PassTripDays | src/search.py:104-117 | every trip of a pass flies on the weekdays of one entry of `DAY_PAIRS`, in the week starting at the Monday |
| Search.WeekTripDays | src/search.py:95-106 | every option of the week flies on the weekdays of one `DAY_PAIRS` entry in the target's week |
| Search.WeekErrors | src/search.py:104-143 | at most one error per cell; no error exactly when every strict lookup succeeded, whatever the relaxed pass meets |
| Search.WeekBestIsCheapest | src/search.py:59-72 | the best option of the week, and the best of each day pair, costs no more than any option (of that pair) |
| Wiring.AsWrittenWeekIsEmpty | src/search.py:175-180 | as written (`date=` keyword), every lookup raises, so the week has no option, is marked relaxed, and records one error per cell |
| Wiring.CorrectedWeekHasNoErrors | src/amadeus_client.py:105-110 | with the intended call, `search_flights` swallows every error, so the week records none |
| Wiring.CorrectedFaresFilter | src/amadeus_client.py:91-110 | with the intended call, every lookup succeeds and lists only flights inside its time bounds |
| Wiring.FilteringCellInWindow | src/search.py:171-191 | over such a provider, a cell's trip arrives by the window's arrival bound and returns no earlier than its departure bound |
| Wiring.FilteringWeekInWindow | src/search.py:123-143 | over such a provider, every option meets the window of the pass that the relaxed flag names |
| Wiring.CorrectedTripsInWindow | src/search.py:171-191 | with the intended call, every option meets the strict window (arrival by 10:00, return from 17:00) unless the result is marked relaxed, and the relaxed window otherwise |
| Urls.TrainlineUrl | src/url_builder.py:43-60 | `None` exactly when origin or destination has no city; otherwise exactly the timetable URL from city to city |
| Urls.TrainlineRoutes | src/url_builder.py:6-9 | Madrid–Barcelona in both directions have pages; Oviedo and unknown codes have none |
| Urls.SkyscannerUrl | src/url_builder.py:12-40 | every Skyscanner URL starts with the search base and ends with `/` |
| Urls.SkyscannerRoundTripExtendsOneWay | src/url_builder.py:36-40 | the round-trip URL is the one-way URL followed by the six-digit return date and `/` |
| Urls.OneWaySegments | src/url_builder.py:30-40 | the one-way URL is the base, the lower-cased origin, `/`, the lower-cased destination, `/`, the six date digits and `/` |
| Urls.SkyscannerSegments | src/url_builder.py:30-40 | after the base come the lower-cased origin, the lower-cased destination and `YYMMDD` of the outbound date, which reads back as that date, and, only for a round trip, the return date likewise |
| Urls.SkyscannerExampleDate | src/url_builder.py:34 | 28 January 2026 renders as `260128` |
| Formatter.RoundedEurosNearest | src/formatter.py:19 | `:.0f` of a price is within half a euro of it, exact on whole euros, and ties go to the even euro |
| Formatter.EurosTextReadsBack | src/formatter.py:19 | the rendered amount is digits that read back as the rounded euros |
| Formatter.MonthNameRoundTrip | src/formatter.py:99-106 | months 1..12 get a three-letter abbreviation that reads back as the month; any other number is written out |
| Formatter.MonthNameInjective | src/formatter.py:99-106 | different months get different names |
| Formatter.MedalInjective | src/formatter.py:9-10 | every rank gets its own medal (three named ones, then `#rank`) |
| Formatter.TripOptionHeadline | src/formatter.py:18-25 | a block opens with the medal and the total in euros, within half a euro of outbound plus return price |
| Formatter.GoldMedalFirst | src/formatter.py:9-19 | the block of rank 1 starts with the gold medal |
| Formatter.DaySummaryParts | src/formatter.py:32-41 | there is one summary part per entry of `DAY_PAIRS` |
| Formatter.FormatDaySummary | src/formatter.py:28-43 | the loop over `DAY_PAIRS` builds the specified parts, one per day pair in order, joined by a spaced vertical bar |
| Formatter.DayPartMeaning | src/formatter.py:37-41 | a part reads `-` exactly when no option flies on the pair; otherwise it shows the total of an option on the pair, the cheapest one when options are sorted |
| Formatter.FindBestDays | src/formatter.py:46-55 | `Sin datos` exactly when there is no option; otherwise the weekday names of the first option's dates |
| Formatter.WeekLabelMeaning | src/formatter.py:62-63 | the header reads back as the Monday's day of month and its month |
| Formatter.Shown | src/formatter.py:79 | `options[:TOP_OPTIONS_TO_SHOW]` has min(top, number of options) entries |
| Formatter.TopBlocks | src/formatter.py:79-81 | n options give 2·n lines |
| Formatter.TopBlocksAt | src/formatter.py:79-81 | line 2k is the block of option k ranked k+1, line 2k+1 is empty |
| Formatter.AppendTopBlocks | src/formatter.py:78-81 | the `enumerate(…, 1)` loop appends the specified blocks after the lines already there |
| Formatter.Preamble | src/formatter.py:68-76 | the lines before the blocks are 4 when relaxed and 2 otherwise; the first two are the title with the week and an empty line (PreambleLines), the third is the warning exactly when relaxed (MessageWarnsIffRelaxed) |
| Formatter.MessageTitle | src/formatter.py:68-71 | a message with options opens with `✈️ VUELOS BCN - Semana del ` and the Monday's day and month abbreviation, then an empty line |
| Formatter.Closing | src/formatter.py:83-94 | the lines after the blocks are 4, plus 2 when there were errors |
| Formatter.MessageLines | src/formatter.py:68-94 | a non-empty message has title lines, 2·min(top, n) block lines and 4 closing lines, plus 2 each for the warning and the errors |
| Formatter.FormatTelegramMessage | src/formatter.py:58-96 | the appending code builds the specified message in both branches |
| Formatter.MessageBlocks | src/formatter.py:68-89 | the min(top, n) best options appear in rank order from line 2 or 4, each followed by an empty line, then the summary heading, the summary and the best days |
| Formatter.BlockLines | src/formatter.py:79-81 | the block of rank k+1 sits at line offset+2k with an empty line after it |
| Formatter.SummaryLines | src/formatter.py:83-89 | right after the blocks come the summary heading, the indented day summary, an empty line and the best-days line |
| Formatter.ThirdLineIsFirstBlock | src/formatter.py:68-81 | without the warning, the third line is the block of the best option |
| Formatter.ThirdLineIsSummary | src/formatter.py:68-84 | without the warning and with no block shown, the third line is the summary heading |
| Formatter.MessageWarnsIffRelaxed | src/formatter.py:73-76 | the relaxed-window warning is the third line exactly when the filters were relaxed |
| Formatter.MessageErrorCount | src/formatter.py:91-94 | the last line reports the number of errors exactly when there were errors; otherwise it is the best-days line |
| Formatter.EmptyMessageLayout | src/formatter.py:60-66 | with no option the message is the warning header with the week, the notice, then every error on its own line, in order |
| Telegram.Truncate | src/telegram.py:43-46 | the posted text never exceeds 4096 characters; a text within the limit is unchanged; a longer one is its first 4090 characters and `\n...` |
| Telegram.TruncateIdempotent | src/telegram.py:44-46 | cutting a cut text changes nothing |
| Telegram.Credential | src/telegram.py:22-23 | `value or fallback`: the argument when non-empty, the setting otherwise |
| Telegram.ResolveCredentials | src/telegram.py:21-29 | the check fails exactly when the token or the chat id is empty after the fallback; otherwise both are non-empty, each is its argument when that is non-empty and the configured setting when it is empty |
| Telegram.TelegramClient.constructor | src/telegram.py:21-31 | the client stores the token and the chat id, and the base URL is the bot API base followed by the token |
| Telegram.TelegramClient.Create | src/telegram.py:21-31 | a fresh client exactly when the credential check passes, otherwise the `ValueError` message |
| Telegram.TelegramClient.SendMessage | src/telegram.py:33-73 | the loop with early return makes the specified posts and pauses and reports the specified outcome |
| Telegram.TelegramClient.SendErrorAlert | src/telegram.py:75-78 | an alert is `send_message` of the alert heading followed by the message |
| Telegram.AttemptsOutcome | src/telegram.py:55-73 | from any attempt on, success exactly when one of the remaining attempts is delivered; the posts run from that attempt to the first delivered one, or to the last attempt when none is |
| Telegram.FirstDeliveredIsFirst | src/telegram.py:55-63 | the attempt at which the loop returns is delivered, and no earlier attempt was |
| Telegram.DeliveryOutcome | src/telegram.py:55-73 | 1 to `MAX_RETRIES` posts; true exactly when some attempt is delivered; it stops at the first delivered attempt; false after `MAX_RETRIES` posts otherwise |
| Telegram.AttemptsPaced | src/telegram.py:64-70 | every pause of the loop follows a transport failure of a non-final attempt; every post carries the same URL, chat, text and parse mode |
| Telegram.DeliveryPaced | src/telegram.py:44-70 | `send_message` posts only the cut text to `sendMessage`, never more than 4096 characters, and sleeps only after a transport error on a non-final attempt, never after a rejected reply |
| Telegram.AlertCarriesMessage | src/telegram.py:77-78 | the posted alert starts with `🔴 ERROR en buscador de vuelos BCN` and two newlines and, when short enough, carries the whole message after them |

## Left out

- The Amadeus SDK client and its request (src/amadeus_client.py:58-89), including the provider-side `nonStop` and `max` options: the SDK is the parameter `api`, and the constructor's credential check is not modelled.
- `requests.post`, `response.json()` and `time.sleep` (src/telegram.py:57-60, 70): the reply to each attempt is the parameter `replies`. A pause is an action in the returned trace. A reply that is not valid JSON is counted as a transport error. Every JSON reply is taken to be an object, as the Telegram Bot API sends: on any other JSON value `result.get("ok")` (src/telegram.py:60-61) would raise `AttributeError`, which is not a `RequestException` and would escape `send_message` instead of leading to another attempt.
- Environment variables (config/settings.py:43-46): they are the parameters `envToken` and `envChatId`. An absent argument and an empty one are both `""`, which `or` treats alike.
- src/main.py, logging and log files: orchestration and I/O.
- `date.today()` (src/search.py:91-92): the target date is a required input, so `WEEKS_AHEAD` is unused.
- `TripOption.route_description` and `__str__` (src/search.py:36-44): locale-dependent `strftime('%a %d')`.
- `RouteResult` and `search_route`, which the tests import: they are not defined in src/search.py.
- The two-argument `format_telegram_message` with booking links, which the tests call: it is not defined in src/formatter.py.
- `datetime.fromisoformat` and `float(...)` (src/amadeus_client.py:115, 121-122): an offer is a record of already-typed optional fields, so a field that fails to parse counts as absent.
- Prices are whole cents, not floats: `:.0f` is modelled as round-half-even of the exact cent amount, and floating-point noise in sums is left out.
- `MAX_ARRIVAL_TIME_RELAXED`, `MIN_DEPARTURE_TIME_RELAXED`, `MIN_PRICE`, `MAX_PRICE` and `ROUTE_COMBINATIONS` are imported by src/search.py but not defined in config/settings.py. They are the fields of the parameter `SearchConfig`.
- `TOP_OPTIONS_TO_SHOW` is imported by src/formatter.py but not defined anywhere. It is the natural-number parameter `top`, so Python's negative slice bounds are left out.
- `RELAXED_MARGIN_MINUTES`, `SINGLE_LEG_THRESHOLD`, `ROUTES` and `ROUTES_WITH_SINGLE_LEGS` (config/settings.py): nothing in the modelled code reads them.
- `transport_type` (src/formatter.py:21-22): as written, `FlightOption` has no such attribute, so `format_trip_option` raises `AttributeError` for every option and no message with options can be built. The model's `transportType` field, which `_parse_offer` leaves empty, stands for the intended attribute, and the formatter is modelled as if it existed.
- Formatter.AppendTopBlocks takes the block renderer as a parameter (the model passes `format_trip_option`), so its contract is stated for any renderer.
- Search.SearchPass models both loop nests of `search_week` as one method, called once with the strict window and once with the relaxed one. The relaxed pass's error list is discarded, as the source only logs it.
- Text.Lower lower-cases ASCII letters only: airport codes are ASCII, and Unicode case mapping is not modelled.
- Day ordinals are unbounded, while Python's dates end in year 9999: the overflow of `timedelta` arithmetic there is not modelled.

## Findings

| source | as written | input that shows it | evidently intended | confidence | as-written member | corrected member |
|---|---|---|---|---|---|---|
| src/search.py:178 | `_search_trip` calls `search_flights(…, date=…)`, but the parameter is `search_date` (src/amadeus_client.py:71), so every call raises `TypeError` before any lookup | any week: every cell raises, so the week has no option, is marked relaxed, and records one error per (day pair, route) | pass the date as `search_date`; every lookup then succeeds, no error is recorded, and every option meets the window of its pass | not executed | Wiring.AsWrittenWeekIsEmpty | Wiring.CorrectedTripsInWindow |
