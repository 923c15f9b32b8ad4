/**
 * The server's market-status decision (`is_market_open` in main.py).
 *
 * The clock reading (the current date and time in India Standard Time) is a
 * parameter; the weekday is derived from the date the way Python's
 * `date.weekday()` derives it, from the proleptic Gregorian ordinal.
 */
module MarketHours {

  /** A calendar date, as Python's `datetime.date`. */
  datatype Date = Date(year: int, month: int, day: int)

  /** A time of day, as Python's naive `datetime.time`. */
  datatype TimeOfDay = TimeOfDay(hour: int, minute: int, second: int, microsecond: int)

  /** A reading of the clock in the exchange's time zone. */
  datatype Instant = Instant(date: Date, time: TimeOfDay)

  predicate IsLeap(y: int) {
    y % 4 == 0 && (y % 100 != 0 || y % 400 == 0)
  }

  function DaysInMonth(y: int, m: int): (n: int)
    requires 1 <= m <= 12
    ensures 28 <= n <= 31
  {
    if m == 2 then (if IsLeap(y) then 29 else 28)
    else if m == 4 || m == 6 || m == 9 || m == 11 then 30
    else 31
  }

  predicate ValidDate(d: Date) {
    1 <= d.year && 1 <= d.month <= 12 && 1 <= d.day <= DaysInMonth(d.year, d.month)
  }

  predicate ValidTime(t: TimeOfDay) {
    0 <= t.hour < 24 && 0 <= t.minute < 60 && 0 <= t.second < 60 && 0 <= t.microsecond < 1000000
  }

  predicate ValidInstant(i: Instant) {
    ValidDate(i.date) && ValidTime(i.time)
  }

  /** Days in the years before `y` (proleptic Gregorian calendar). */
  function DaysBeforeYear(y: int): int
    requires y >= 1
  {
    var p := y - 1;
    p * 365 + p / 4 - p / 100 + p / 400
  }

  /** Days in the months of year `y` before month `m`. */
  function DaysBeforeMonth(y: int, m: int): int
    requires 1 <= m <= 12
  {
    [0, 31, 59, 90, 120, 151, 181, 212, 243, 273, 304, 334][m - 1]
    + (if m > 2 && IsLeap(y) then 1 else 0)
  }

  /** Python's `date.toordinal()`: 0001-01-01 is day 1. */
  function Ordinal(d: Date): (n: int)
    requires ValidDate(d)
    ensures n >= 1
  {
    DaysBeforeYear(d.year) + DaysBeforeMonth(d.year, d.month) + d.day
  }

  /** Python's `date.weekday()`: Monday is 0, Saturday 5, Sunday 6. */
  function Weekday(d: Date): (w: int)
    requires ValidDate(d)
    ensures 0 <= w < 7
  {
    (Ordinal(d) + 6) % 7
  }

  /** The exchange holidays of main.py's HOLIDAYS list. */
  const Holidays: seq<Date> := [
    Date(2024, 1, 22), Date(2024, 1, 26), Date(2024, 3, 8), Date(2024, 3, 25),
    Date(2024, 3, 29), Date(2024, 4, 11), Date(2024, 4, 17), Date(2024, 5, 1),
    Date(2024, 5, 20), Date(2024, 6, 17), Date(2024, 7, 17), Date(2024, 8, 15),
    Date(2024, 10, 2), Date(2024, 11, 1), Date(2024, 11, 15), Date(2024, 12, 25)
  ]

  const MarketOpen: TimeOfDay := TimeOfDay(9, 15, 0, 0)
  const MarketClose: TimeOfDay := TimeOfDay(15, 30, 0, 0)

  /** Python's `a <= b` on `time` values: lexicographic on (hour, minute, second, microsecond). */
  predicate TimeLe(a: TimeOfDay, b: TimeOfDay) {
    a.hour < b.hour
    || (a.hour == b.hour && (a.minute < b.minute
    || (a.minute == b.minute && (a.second < b.second
    || (a.second == b.second && a.microsecond <= b.microsecond)))))
  }

  /** Microseconds since midnight: an independent measure of a time of day. */
  function MicrosOfDay(t: TimeOfDay): int {
    t.hour * 3600000000 + t.minute * 60000000 + t.second * 1000000 + t.microsecond
  }

  /**
   * `is_market_open()`, with the clock reading passed in: closed on weekends,
   * closed on the listed holidays, otherwise open from 09:15 to 15:30
   * inclusive.
   */
  function IsMarketOpen(now: Instant): (open: bool)
    requires ValidInstant(now)
    ensures open <==> Weekday(now.date) < 5 && now.date !in Holidays
                      && 33300000000 <= MicrosOfDay(now.time) <= 55800000000
  {
    if Weekday(now.date) >= 5 then false
    else if now.date in Holidays then false
    else TimeLe(MarketOpen, now.time) && TimeLe(now.time, MarketClose)
  }

  /** Python's time ordering agrees with ordering by microseconds since midnight. */
  lemma TimeLeIsMicrosOrder(a: TimeOfDay, b: TimeOfDay)
    requires ValidTime(a) && ValidTime(b)
    ensures TimeLe(a, b) <==> MicrosOfDay(a) <= MicrosOfDay(b)
  {
  }

  lemma WeekendClosed(now: Instant)
    requires ValidInstant(now) && Weekday(now.date) >= 5
    ensures !IsMarketOpen(now)
  {
  }

  lemma HolidayClosed(now: Instant)
    requires ValidInstant(now) && now.date in Holidays
    ensures !IsMarketOpen(now)
  {
  }

  /**
   * On a trading day the market is open exactly from 09:15:00.000000 to
   * 15:30:00.000000, both ends included, measured in microseconds since midnight.
   */
  lemma TradingDaySession(now: Instant)
    requires ValidInstant(now) && Weekday(now.date) < 5 && now.date !in Holidays
    ensures IsMarketOpen(now) <==> 33300000000 <= MicrosOfDay(now.time) <= 55800000000
  {
    TimeLeIsMicrosOrder(MarketOpen, now.time);
    TimeLeIsMicrosOrder(now.time, MarketClose);
  }

  /** Every listed holiday is a valid date that falls on a weekday, so the holiday check is not subsumed by the weekend check. */
  lemma HolidaysFallOnWeekdays()
    ensures forall h :: h in Holidays ==> ValidDate(h) && Weekday(h) < 5
  {
    assert DaysBeforeYear(2024) == 738885;
    assert Weekday(Date(2024, 1, 22)) == 0 && Weekday(Date(2024, 1, 26)) == 4;
    assert Weekday(Date(2024, 3, 8)) == 4 && Weekday(Date(2024, 3, 25)) == 0;
    assert Weekday(Date(2024, 3, 29)) == 4 && Weekday(Date(2024, 4, 11)) == 3;
    assert Weekday(Date(2024, 4, 17)) == 2 && Weekday(Date(2024, 5, 1)) == 2;
    assert Weekday(Date(2024, 5, 20)) == 0 && Weekday(Date(2024, 6, 17)) == 0;
    assert Weekday(Date(2024, 7, 17)) == 2 && Weekday(Date(2024, 8, 15)) == 3;
    assert Weekday(Date(2024, 10, 2)) == 2 && Weekday(Date(2024, 11, 1)) == 4;
    assert Weekday(Date(2024, 11, 15)) == 4 && Weekday(Date(2024, 12, 25)) == 2;
  }

  /** A concrete week: 2024-01-26 (a Friday holiday) is closed, the Thursday before is open at 10:00, the Saturday after is closed. */
  lemma RepublicDayWeek()
    ensures Weekday(Date(2024, 1, 25)) == 3 && Weekday(Date(2024, 1, 27)) == 5
    ensures IsMarketOpen(Instant(Date(2024, 1, 25), TimeOfDay(10, 0, 0, 0)))
    ensures !IsMarketOpen(Instant(Date(2024, 1, 26), TimeOfDay(10, 0, 0, 0)))
    ensures !IsMarketOpen(Instant(Date(2024, 1, 27), TimeOfDay(10, 0, 0, 0)))
    ensures IsMarketOpen(Instant(Date(2024, 1, 25), TimeOfDay(15, 30, 0, 0)))
    ensures !IsMarketOpen(Instant(Date(2024, 1, 25), TimeOfDay(15, 30, 0, 1)))
  {
  }
}
