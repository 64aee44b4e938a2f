/**
 Instants through sgp_time.c and back: exactly where the clock and epoch
 conversions return the instant they were given.
 */
module CalendarClock {
  import opened Gregorian
  import opened Calendar
  import opened CalendarInverse

  /** Calendar_Date's rollover: the last half millisecond of a day. */
  predicate RollsOver(jd: real) {
    Frac(jd + 0.5) + FACTOR >= 1.0
  }

  /** The date of an instant, for every instant from the inception on. */
  lemma DateOfInstant(jd: real)
    requires DayOfInstant(jd) >= 2299161
    ensures DayOfInstant(jd) == Floor(jd + 0.5) + (if RollsOver(jd) then 1 else 0)
    ensures DateOfDay(DayOfInstant(jd)) == DateAfter(DayOfInstant(jd) - 2299161)
  {
    DateIsCounted(DayOfInstant(jd));
  }

  lemma FractionOfSeconds(hour: int, min: int, sec: int)
    ensures FractionOfDay(hour, min, sec) == (3600 * hour + 60 * min + sec) as real / SECDAY
  {}

  lemma JulianDateInIntegers(d: Date, hour: int, min: int, sec: int)
    requires d.year >= 1 && d.month <= 12
    ensures JulianDate(d.year, d.month, d.day, hour, min, sec) ==
            DayNumber(d) as real - 0.5 + (3600 * hour + 60 * min + sec) as real / SECDAY
  {
    DayNumberInIntegers(d);
    FractionOfSeconds(hour, min, sec);
  }

  function Distance(x: real, y: real): real {
    if x < y then y - x else x - y
  }

  /** Calendar_Date with Time_of_Day, fed back through Julian_Date, comes within half
      a second of the instant exactly when the clock did not round up to midnight, or
      the date rolled over with it. */
  lemma ClockRoundTripIff(jd: real, hour: int, min: int, sec: int)
    requires DayOfInstant(jd) >= 2299161
    requires 3600 * hour + 60 * min + sec == RoundedSecond(jd) % 86400
    ensures var d := DateOfDay(DayOfInstant(jd));
            1 <= d.month <= 12 &&
            (Distance(JulianDate(d.year, d.month, d.day, hour, min, sec), jd) * SECDAY <= 0.5 <==>
             RoundedSecond(jd) < 86400 || RollsOver(jd))
  {
    var z := DayOfInstant(jd);
    DateOfInstant(jd);
    CountedNumber(z - 2299161);
    ClockOfDate(jd, z, DateAfter(z - 2299161), hour, min, sec);
  }

  lemma ClockOfDate(jd: real, z: int, d: Date, hour: int, min: int, sec: int)
    requires d.year >= 1 && 1 <= d.month <= 12 && DayNumber(d) == z
    requires z == Floor(jd + 0.5) + (if RollsOver(jd) then 1 else 0)
    requires 3600 * hour + 60 * min + sec == RoundedSecond(jd) % 86400
    ensures Distance(JulianDate(d.year, d.month, d.day, hour, min, sec), jd) * SECDAY <= 0.5 <==>
            RoundedSecond(jd) < 86400 || RollsOver(jd)
  {
    JulianDateInIntegers(d, hour, min, sec);
    ClockError(jd, z, JulianDate(d.year, d.month, d.day, hour, min, sec));
  }

  lemma ClockError(jd: real, z: int, back: real)
    requires z == Floor(jd + 0.5) + (if RollsOver(jd) then 1 else 0)
    requires back == z as real - 0.5 + (RoundedSecond(jd) % 86400) as real / SECDAY
    ensures Distance(back, jd) * SECDAY <= 0.5 <==> RoundedSecond(jd) < 86400 || RollsOver(jd)
  {
    var f, s := Frac(jd + 0.5), RoundedSecond(jd);
    RoundedWithin(jd);
    ErrorBound(f, s, RollsOver(jd));
    var start := (if RollsOver(jd) then 1.0 else 0.0) + (s % 86400) as real / SECDAY;
    assert back == Floor(jd + 0.5) as real - 0.5 + start;
    assert back - jd == start - f;
  }

  lemma RoundedWithin(jd: real)
    ensures 0 <= RoundedSecond(jd) <= 86400
    ensures RoundedSecond(jd) as real - 0.5 <= Frac(jd + 0.5) * SECDAY < RoundedSecond(jd) as real + 0.5
  {
    SecondBound(jd);
    SameFraction(jd);
    FloorWithin(Frac(jd - 0.5) * SECDAY + 0.5);
  }

  lemma SameFraction(jd: real)
    ensures Frac(jd - 0.5) == Frac(jd + 0.5)
  {
    var n := Floor(jd - 0.5);
    FloorWithin(jd - 0.5);
    FloorIs(jd + 0.5, n + 1);
  }

  lemma FloorIs(x: real, n: int)
    requires n as real <= x < n as real + 1.0
    ensures Floor(x) == n
  {}

  lemma FloorWithin(x: real)
    ensures Floor(x) as real <= x < Floor(x) as real + 1.0
  {}

  lemma ErrorBound(f: real, s: int, rolls: bool)
    requires 0.0 <= f < 1.0 && 0 <= s <= 86400 && rolls == (f + FACTOR >= 1.0)
    requires s as real - 0.5 <= f * SECDAY < s as real + 0.5
    ensures var start := (if rolls then 1.0 else 0.0) + (s % 86400) as real / SECDAY;
            Distance(start, f) * SECDAY <= 0.5 <==> s < 86400 || rolls
  {
    if s < 86400 {
      assert s % 86400 == s && !rolls;
    }
  }

  lemma MonthInRange(z: int)
    ensures 1 <= DateOfDay(z).month <= 12
  {
    DateOfDayInIntegers(z);
    var alpha := (4 * z - 7468865) / 146097;
    MarchMonthInRange(if z < 2299161 then z + 1524 else z + 1 + alpha - alpha / 4 + 1524);
  }

  lemma MarchMonthInRange(b: int)
    ensures 1 <= FromMarch(b).month <= 12
  {
    YearSplit(b);
    MonthSplit(b - Years((20 * b - 2442) / 7305));
  }

  method EpochTime(jd: real) returns (epoch: real)
    ensures DateOfDay(DayOfInstant(jd)).month <= 12
    ensures epoch == EpochOf(DateOfDay(DayOfInstant(jd)), Frac(jd + 0.5))
  {
    var edate := new Tm();
    CalendarDate(jd, edate);
    MonthInRange(DayOfInstant(jd));
    var yr := edate.year - 100 * Quotient(edate.year, 100);
    var time := Frac(jd + 0.5);
    var doy := DOY(edate.year, edate.mon, edate.mday);
    epoch := yr as real * 1000.0 + doy as real + time;
  }

  /** Julian_Date_of_Epoch undoes the element-set form of a date, 1957 to 2056. */
  lemma EpochUndone(d: Date, fraction: real)
    requires Valid(d) && 1957 <= d.year <= 2056 && 0.0 <= fraction < 1.0
    ensures JulianDateOfEpoch(EpochOf(d, fraction)) == DayNumber(d) as real - 0.5 + fraction
  {
    hide DayOfYear, JulianDateOfEpoch, JulianDateOfYear, DayNumber;
    var day := DayOfYear(d.year, d.month, d.day);
    DayBound(d);
    DayStart(d);
    TowardZero(d.year, 100);
    EpochYear(d, day as real + fraction);
  }

  /** The year in the form is what is left of whole centuries, with the sign of the year. */
  lemma WholeCenturies(year: int)
    ensures var y := year - 100 * Quotient(year, 100);
            && (year - y) % 100 == 0 && (year >= 0 ==> 0 <= y < 100) && (year <= 0 ==> -100 < y <= 0)
  {}

  lemma TowardZero(a: int, b: int)
    requires a >= 0 && b > 0
    ensures Quotient(a, b) == a / b
  {}

  lemma DayBound(d: Date)
    requires Valid(d)
    ensures 1 <= DayOfYear(d.year, d.month, d.day) <= 366
  {
    DayInYear(d);
  }

  lemma DayStart(d: Date)
    requires d.year >= 1 && d.month <= 13
    ensures DayNumber(d) as real - 0.5 == JulianDateOfYear(d.year as real) + DayOfYear(d.year, d.month, d.day) as real
  {
    DayNumberInIntegers(d);
  }

  lemma EpochYear(d: Date, day: real)
    requires 1957 <= d.year <= 2056 && 0.0 <= day < 1000.0
    ensures JulianDateOfEpoch((d.year - 100 * (d.year / 100)) as real * 1000.0 + day) ==
            JulianDateOfYear(d.year as real) + day
  {
    TwoDigits(d.year);
    EpochParsed(d.year - 100 * (d.year / 100), day);
  }

  lemma TwoDigits(year: int)
    requires 1957 <= year <= 2056
    ensures var yr := year - 100 * (year / 100);
            0 <= yr < 100 && year == (if yr < 57 then yr + 2000 else yr + 1900)
  {}

  lemma EpochParsed(yr: int, day: real)
    requires 0 <= yr < 100 && 0.0 <= day < 1000.0
    ensures JulianDateOfEpoch(yr as real * 1000.0 + day) ==
            JulianDateOfYear((if yr < 57 then yr + 2000 else yr + 1900) as real) + day
  {
    FloorIs((yr as real * 1000.0 + day) * 0.001, yr);
  }

  /** For every instant whose date lies in 1957 to 2056, Julian_Date_of_Epoch inverts
      Epoch_Time exactly when Calendar_Date does not roll over; when it does, the
      result is a day late. */
  lemma EpochRoundTrip(jd: real)
    requires DayOfInstant(jd) >= 2299161
    requires 1957 <= DateOfDay(DayOfInstant(jd)).year <= 2056
    ensures var d := DateOfDay(DayOfInstant(jd));
            d.month <= 12 &&
            JulianDateOfEpoch(EpochOf(d, Frac(jd + 0.5))) == (if RollsOver(jd) then jd + 1.0 else jd)
  {
    var z := DayOfInstant(jd);
    DateOfInstant(jd);
    CountedNumber(z - 2299161);
    EpochUndone(DateAfter(z - 2299161), Frac(jd + 0.5));
  }

  // ---------- the instants that fail ----------

  lemma NewYear2000()
    ensures DateOfDay(2451545) == Date(2000, 1, 1) && DateOfDay(2451546) == Date(2000, 1, 2)
  {
    hide DateOfDay;
    Numbered(Date(2000, 1, 1), 2451545);
    Numbered(Date(2000, 1, 2), 2451546);
    GregorianBranch(Date(2000, 1, 1));
    GregorianBranch(Date(2000, 1, 2));
  }

  lemma Numbered(d: Date, n: int)
    requires d == Date(2000, 1, d.day) && n == 2451544 + d.day
    ensures DayNumber(d) == n
  {
    DayNumberInIntegers(d);
  }

  /** A quarter of a second before the midnight that ends 1 January 2000: the clock says
      00:00:00, the date has not moved, and the two together are a day early. */
  lemma QuarterBeforeMidnight(jd: real)
    requires jd == 2451545.5 - 0.25 / SECDAY
    ensures DayOfInstant(jd) == 2451545 && !RollsOver(jd) && RoundedSecond(jd) == 86400
    ensures JulianDate(2000, 1, 1, 0, 0, 0) == jd - 1.0 + 0.25 / SECDAY
  {
    hide JulianDate, DayNumber;
    FloorIs(jd + 0.5, 2451545);
    FloorIs(jd - 0.5, 2451544);
    FloorIs(86399.75 + 0.5, 86400);
    Numbered(Date(2000, 1, 1), 2451545);
    JulianDateInIntegers(Date(2000, 1, 1), 0, 0, 0);
  }

  /** A quarter of a millisecond before it: the date rolls over, the fraction of the day does
      not, and the epoch is a day late. */
  lemma LastOfTheDay(jd: real)
    requires jd == 2451545.5 - 0.00025 / SECDAY
    ensures DayOfInstant(jd) == 2451546 && DateOfDay(2451546) == Date(2000, 1, 2)
    ensures JulianDateOfEpoch(EpochOf(Date(2000, 1, 2), Frac(jd + 0.5))) == jd + 1.0
  {
    NewYear2000();
    FloorIs(jd + 0.5, 2451545);
    FloorIs(jd + FACTOR + 0.5, 2451546);
    EpochRoundTrip(jd);
  }
}
