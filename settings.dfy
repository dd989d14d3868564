/** The configuration constants of config/settings.py that the modelled code reads. */
module Settings {
  import opened Calendar

  /** `MAX_ARRIVAL_TIME = time(10, 0)`: latest arrival of an outbound leg. */
  const MaxArrivalTime: Minute := 10 * 60

  /** `MIN_DEPARTURE_TIME = time(17, 0)`: earliest departure of a return leg. */
  const MinDepartureTime: Minute := 17 * 60

  /** A weekday index as `date.weekday()` returns it, Monday = 0. */
  type WeekdayIndex = w: int | 0 <= w < 7

  /** An (outbound weekday, return weekday) pair searched every week. */
  type DayPair = (WeekdayIndex, WeekdayIndex)

  /** `DAY_PAIRS`: Monday-Tuesday, Tuesday-Wednesday, Wednesday-Thursday, Thursday-Friday. */
  const DayPairs: seq<DayPair> := [(0, 1), (1, 2), (2, 3), (3, 4)]

  /** `DAY_NAMES`, indexed by weekday. */
  const DayNames: seq<string> := ["Lun", "Mar", "Mie", "Jue", "Vie", "Sab", "Dom"]

  /** `MAX_RETRIES`: attempts made to deliver one message. */
  const MaxRetries: nat := 3

  /** `RETRY_DELAY_SECONDS`: pause after a failed delivery attempt. */
  const RetryDelaySeconds: nat := 5
}
