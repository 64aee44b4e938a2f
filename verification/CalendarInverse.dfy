/**
 The day-number formula of Julian_Date_of_Year and DOY and the date formula of
 Calendar_Date are inverse to each other, with no upper bound on the year, and
 both agree with counting days by the calendar rules.
 */
module CalendarInverse {
  import opened Gregorian
  import opened Reals
  import opened Calendar

  // ---------- the formulas in integers ----------

  function Years(c: int): int {
    365 * c + c / 4
  }

  function Months(e: int): int {
    306001 * e / 10000
  }

  /** The second half of Calendar_Date, from B on: years and months counted from March. */
  function FromMarch(b: int): Date {
    var c := (20 * b - 2442) / 7305;
    var t := b - Years(c);
    var e := 10000 * t / 306001;
    var month := if e < 14 then e - 1 else e - 13;
    Date(if month > 2 then c - 4716 else c - 4715, month, t - Months(e))
  }

  /** Days the Gregorian calendar has dropped by century k. */
  function Dropped(k: int): int {
    k - k / 4 - 2
  }

  lemma DateOfDayInIntegers(z: int)
    ensures z < 2299161 ==> DateOfDay(z) == FromMarch(z + 1524)
    ensures z >= 2299161 ==>
              var alpha := (4 * z - 7468865) / 146097;
              DateOfDay(z) == FromMarch(z + 1 + alpha - alpha / 4 + 1524)
  {
    CenturyFloor(z);
    var alpha := (4 * z - 7468865) / 146097;
    QuarterFloor(alpha);
    DateFromInIntegers(if z < 2299161 then z + 1524 else z + 1 + alpha - alpha / 4 + 1524);
  }

  lemma DateFromInIntegers(b: int)
    ensures DateFrom(b) == FromMarch(b)
  {
    var c := (20 * b - 2442) / 7305;
    YearFloor(b);
    DaysOfYearsFloor(c);
    var t := b - Years(c);
    MonthFloor(t);
    DaysOfMonthsFloor(10000 * t / 306001);
  }

  /** The year of a date when years begin in March. */
  function MarchYear(d: Date): int {
    if d.month > 2 then d.year else d.year - 1
  }

  function MarchMonth(d: Date): int {
    if d.month > 2 then d.month + 1 else d.month + 13
  }

  /** The Julian calendar's number of a date. */
  function JulianNumber(d: Date): int {
    Years(MarchYear(d) + 4716) + Months(MarchMonth(d)) + d.day - 1524
  }

  /** The number the source gives to noon of a date. */
  function DayNumber(d: Date): int
    requires d.month <= 13
  {
    Floor(JulianDateOfYear(d.year as real) + DayOfYear(d.year, d.month, d.day) as real + 0.5)
  }

  /** Days in n whole years from year 1. */
  function YearDays(n: int): int {
    365 * n + n / 4 - n / 100 + n / 400
  }

  lemma YearStart(year: int)
    requires year >= 1
    ensures JulianDateOfYear(year as real) == YearDays(year - 1) as real + 1721424.5
  {
    var n := year - 1;
    var a := n / 100;
    assert Trunc((year as real - 1.0) / 100.0) == a;
    assert Trunc(a as real / 4.0) == a / 4 == n / 400;
    DaysOfYearsFloor(n);
    var i := 365 * n + n / 4;
    assert Trunc(i as real + 30.6001 * 14.0) == i + 428;
  }

  /** The same number without the reals. */
  function IntegerNumber(d: Date): int
    requires d.month <= 13
  {
    YearDays(d.year - 1) + 1721425 + DayOfYear(d.year, d.month, d.day)
  }

  lemma DayNumberInIntegers(d: Date)
    requires d.year >= 1 && d.month <= 13
    ensures DayNumber(d) == IntegerNumber(d)
    ensures DayNumber(d) as real - 0.5 == JulianDateOfYear(d.year as real) + DayOfYear(d.year, d.month, d.day) as real
  {
    YearStart(d.year);
  }

  lemma DaysBeforeTable()
    ensures DaysBefore(0) == 0 && DaysBefore(1) == 31 && DaysBefore(2) == 59 && DaysBefore(3) == 90
    ensures DaysBefore(4) == 120 && DaysBefore(5) == 151 && DaysBefore(6) == 181 && DaysBefore(7) == 212
    ensures DaysBefore(8) == 243 && DaysBefore(9) == 273 && DaysBefore(10) == 304 && DaysBefore(11) == 334
  {}

  lemma MonthStarts(month: int)
    requires 1 <= month <= 12
    ensures month > 2 ==> Months(month + 1) == DaysBefore(month - 1) + 63
    ensures month <= 2 ==> Months(month + 13) == DaysBefore(month - 1) + 428
  {
    DaysBeforeTable();
  }

  /** The two calendars' numbers of one date differ by the days dropped so far. */
  lemma GregorianFromJulian(d: Date)
    requires d.year >= 1 && 1 <= d.month <= 12
    ensures DayNumber(d) == JulianNumber(d) - Dropped(MarchYear(d) / 100)
  {
    DayNumberInIntegers(d);
    IntegerFromJulian(d);
  }

  lemma IntegerFromJulian(d: Date)
    requires 1 <= d.month <= 12
    ensures IntegerNumber(d) == JulianNumber(d) - Dropped(MarchYear(d) / 100)
  {
    MonthStarts(d.month);
    LeapCount(d.year);
    FourCenturies(MarchYear(d));
  }

  function LeapDay(year: int): int {
    if Leap(year) then 1 else 0
  }

  lemma LeapCount(y: int)
    ensures YearDays(y) == YearDays(y - 1) + 365 + LeapDay(y)
  {
    FoursCount(y);
    HundredsCount(y);
  }

  lemma FoursCount(y: int)
    ensures y / 4 == (y - 1) / 4 + (if y % 4 == 0 then 1 else 0)
    ensures y % 100 == 0 ==> y % 4 == 0
  {}

  lemma HundredsCount(y: int)
    ensures y / 100 == (y - 1) / 100 + (if y % 100 == 0 then 1 else 0)
    ensures y / 400 == (y - 1) / 400 + (if y % 400 == 0 then 1 else 0)
    ensures y % 400 == 0 ==> y % 100 == 0
  {}

  lemma FourCenturies(y: int)
    ensures y / 400 == y / 100 / 4
  {}

  // ---------- splitting a number into year, month and day ----------

  /** Months as the split sees them: E runs from 4 (March) to 15 (February). */
  predicate InMarchYear(c: int, e: int, day: int) {
    && 4 <= e <= 15 && 1 <= day
    && (e == 15 ==> day <= (if c % 4 == 3 then 29 else 28))
    && (e == 5 || e == 7 || e == 10 || e == 12 ==> day <= 30)
    && day <= 31
  }

  /** From year, month and day of the year that begins in March, back to them. */
  lemma SplitInverse(c: int, e: int, day: int)
    requires InMarchYear(c, e, day)
    ensures var month := if e < 14 then e - 1 else e - 13;
            FromMarch(Years(c) + Months(e) + day) == Date(if month > 2 then c - 4716 else c - 4715, month, day)
  {
    MonthsBack(c, e, day);
    YearsBack(c, Months(e) + day);
  }

  lemma YearsBack(c: int, t: int)
    requires 123 <= t <= 487 || (t == 488 && c % 4 == 3)
    ensures (20 * (Years(c) + t) - 2442) / 7305 == c
  {}

  lemma MonthsBack(c: int, e: int, day: int)
    requires InMarchYear(c, e, day)
    ensures var t := Months(e) + day;
            10000 * t / 306001 == e && (123 <= t <= 487 || (t == 488 && c % 4 == 3))
  {}

  // ---------- the century correction ----------

  /** Calendar_Date adds back exactly the days dropped by the century of the March year. */
  lemma CenturyBack(y: int, t: int)
    requires 123 <= t <= 487 || (t == 488 && Leap(y + 1))
    ensures var z := Years(y + 4716) + t - 1524 - Dropped(y / 100);
            (4 * z - 7468865) / 146097 == y / 100 - 4
  {
    var k, r := y / 100, y % 100;
    assert y == 100 * k + r;
    assert (y + 4716) / 4 == 25 * k + 1179 + r / 4;
    assert t == 488 ==> r != 99 || k % 4 == 3 by {
      if t == 488 && r == 99 {
        LeapCentury(k);
      }
    }
    CenturyBackFrom(k, r, t);
  }

  lemma LeapCentury(k: int)
    requires Leap(100 * k + 100)
    ensures k % 4 == 3
  {}

  /** The same, of year r of century k. */
  lemma CenturyBackFrom(k: int, r: int, t: int)
    requires 0 <= r < 100 && 123 <= t <= 488
    requires t == 488 ==> r % 4 == 3 && (r != 99 || k % 4 == 3)
    ensures var z := 365 * (100 * k + r + 4716) + 25 * k + 1179 + r / 4 + t - 1524 - Dropped(k);
            (4 * z - 7468865) / 146097 == k - 4
  {}

  /** Valid dates are valid places in the year that begins in March. */
  lemma PlaceOf(d: Date)
    requires Valid(d)
    ensures InMarchYear(MarchYear(d) + 4716, MarchMonth(d), d.day)
    ensures MarchMonth(d) == 15 && d.day == 29 ==> Leap(MarchYear(d) + 1)
  {
    if d.month == 2 && d.day == 29 {
      LeapMod(d.year);
    }
  }

  /** Splitting the March-year number of a date gives the date. */
  lemma SplitDate(d: Date)
    requires Valid(d)
    ensures FromMarch(JulianNumber(d) + 1524) == d
  {
    PlaceOf(d);
    SplitInverse(MarchYear(d) + 4716, MarchMonth(d), d.day);
  }

  lemma LeapMod(y: int)
    requires Leap(y)
    ensures (y + 4715) % 4 == 3
  {}

  lemma GregorianSplit(d: Date, z: int)
    requires Valid(d) && z == JulianNumber(d) - Dropped(MarchYear(d) / 100)
    ensures z + 1 + (4 * z - 7468865) / 146097 - (4 * z - 7468865) / 146097 / 4 == JulianNumber(d)
  {
    PlaceOf(d);
    MonthsBack(MarchYear(d) + 4716, MarchMonth(d), d.day);
    CenturyBack(MarchYear(d), Months(MarchMonth(d)) + d.day);
    DroppedBack(MarchYear(d) / 100);
  }

  lemma GregorianNumber(d: Date, z: int)
    requires Valid(d) && z == JulianNumber(d) - Dropped(MarchYear(d) / 100) && z >= 2299161
    ensures DateOfDay(z) == d
  {
    GregorianSplit(d, z);
    DateOfDayInIntegers(z);
    SplitDate(d);
  }

  /** The round trip, wherever the number reaches the Gregorian branch. */
  lemma GregorianBranch(d: Date)
    requires Valid(d) && d.year >= 1 && DayNumber(d) >= 2299161
    ensures DateOfDay(DayNumber(d)) == d
  {
    GregorianFromJulian(d);
    GregorianNumber(d, DayNumber(d));
  }

  lemma DroppedBack(k: int)
    ensures 1 + (k - 4) - (k - 4) / 4 == Dropped(k)
  {}

  /** Below it, the date is the one whose Julian number this is. */
  lemma JulianBranch(z: int)
    requires z < 2299161
    ensures JulianNumber(DateOfDay(z)) == z && 1 <= DateOfDay(z).month <= 12
  {
    DateOfDayInIntegers(z);
    var b := z + 1524;
    var c := (20 * b - 2442) / 7305;
    var t := b - Years(c);
    YearSplit(b);
    MonthSplit(t);
  }

  lemma YearSplit(b: int)
    ensures var t := b - Years((20 * b - 2442) / 7305); 123 <= t <= 488
  {}

  lemma MonthSplit(t: int)
    requires 123 <= t <= 488
    ensures 4 <= 10000 * t / 306001 <= 15
  {}

  /** The inverse holds from the inception of the calendar on, and before it only in
      the century in which the Julian and Gregorian calendars agree. */
  lemma RoundTripIff(d: Date)
    requires Valid(d) && d.year >= 1
    ensures DateOfDay(DayNumber(d)) == d <==>
            DayNumber(d) >= 2299161 || MarchYear(d) / 100 == 2
  {
    if DayNumber(d) >= 2299161 {
      GregorianBranch(d);
    } else {
      GregorianFromJulian(d);
      JulianBranchIff(d, DayNumber(d));
    }
  }

  lemma JulianBranchIff(d: Date, z: int)
    requires Valid(d) && z == JulianNumber(d) - Dropped(MarchYear(d) / 100) && z < 2299161
    ensures DateOfDay(z) == d <==> MarchYear(d) / 100 == 2
  {
    DroppedZero(MarchYear(d) / 100);
    if MarchYear(d) / 100 == 2 {
      DateOfDayInIntegers(z);
      SplitDate(d);
    } else {
      JulianBranch(z);
    }
  }

  lemma DroppedZero(k: int)
    ensures Dropped(k) == 0 <==> k == 2
  {}

  /** The day before the inception: 4 October 1582 is numbered as a Gregorian date and read
      back as a Julian one, ten days early. */
  lemma EveOfInception()
    ensures var d := Date(1582, 10, 4);
            Valid(d) && DayNumber(d) == 2299150 && DateOfDay(DayNumber(d)) == Date(1582, 9, 24)
  {
    hide DayNumber, DateOfDay;
    EveNumber();
    EveDate(2299150);
  }

  lemma EveNumber()
    ensures DayNumber(Date(1582, 10, 4)) == 2299150
  {
    hide DayNumber;
    DaysBeforeTable();
    DayNumberInIntegers(Date(1582, 10, 4));
  }

  lemma EveDate(z: int)
    requires z == 2299150
    ensures DateOfDay(z) == Date(1582, 9, 24)
  {
    hide DateOfDay;
    DateOfDayInIntegers(z);
  }

  // ---------- agreement with counting days ----------

  /** Days of the year before its month begins. */
  function MonthStart(year: int, month: int): int
    requires 1 <= month <= 13
  {
    DayOfYear(year, month, 0)
  }

  lemma MonthEnd(year: int, month: int)
    requires 1 <= month <= 12
    ensures MonthStart(year, month) + MonthLength(year, month) == MonthStart(year, month + 1)
    ensures month == 12 ==> MonthStart(year, 13) == 365 + LeapDay(year)
  {
    DaysBeforeTable();
  }

  lemma NextDayNumber(d: Date)
    requires Valid(d) && d.year >= 1
    ensures DayNumber(Next(d)) == DayNumber(d) + 1 && Valid(Next(d))
  {
    NextIntegerNumber(d);
    DayNumberInIntegers(d);
    DayNumberInIntegers(Next(d));
  }

  lemma NextIntegerNumber(d: Date)
    requires Valid(d)
    ensures Valid(Next(d)) && IntegerNumber(Next(d)) == IntegerNumber(d) + 1
  {
    MonthEnd(d.year, d.month);
    hide YearDays;
    LeapCount(d.year);
    assert DaysBefore(0) == 0;
  }

  lemma InceptionNumber()
    ensures DayNumber(INCEPTION) == 2299161
  {
    DayNumberInIntegers(INCEPTION);
    DaysBeforeTable();
  }

  /** Counting n days on from the inception adds n to the source's number. */
  lemma {:induction false} CountedNumber(n: nat)
    ensures DayNumber(DateAfter(n)) == 2299161 + n && DateAfter(n).year >= 1582
  {
    if n == 0 {
      InceptionNumber();
    } else {
      CountedNumber(n - 1);
      NextDayNumber(DateAfter(n - 1));
    }
  }

  /** Calendar_Date agrees with counting days, for every day number from the
      inception on: the other direction of the inverse, with no upper bound. */
  lemma DateIsCounted(z: int)
    requires z >= 2299161
    ensures DateOfDay(z) == DateAfter(z - 2299161)
  {
    hide DateOfDay, DateAfter, DayNumber;
    CountedNumber(z - 2299161);
    GregorianBranch(DateAfter(z - 2299161));
  }

  lemma DayInYear(d: Date)
    requires Valid(d)
    ensures 1 <= DayOfYear(d.year, d.month, d.day) <= 366
    ensures DayOfYear(d.year, d.month, d.day) <= YearDays(d.year) - YearDays(d.year - 1)
  {
    LeapCount(d.year);
    MonthStartsInOrder(d.year, 1, d.month);
    MonthStartsInOrder(d.year, d.month, 13);
  }

  lemma DaysInOrder(a: Date, b: Date)
    requires Valid(a) && Valid(b) && a.year == b.year && Before(a, b)
    ensures DayOfYear(a.year, a.month, a.day) < DayOfYear(b.year, b.month, b.day)
  {
    MonthStartsInOrder(a.year, a.month, b.month);
  }

  /** Day numbers follow calendar order. */
  lemma NumbersInOrder(a: Date, b: Date)
    requires Valid(a) && Valid(b) && a.year >= 1 && b.year >= 1 && Before(a, b)
    ensures DayNumber(a) < DayNumber(b)
  {
    IntegersInOrder(a, b);
    DayNumberInIntegers(a);
    DayNumberInIntegers(b);
  }

  lemma YearsApart(a: Date, b: Date)
    requires a.month <= 13 && b.month <= 13 && a.year < b.year
    requires DayOfYear(a.year, a.month, a.day) <= YearDays(a.year) - YearDays(a.year - 1)
    requires 1 <= DayOfYear(b.year, b.month, b.day)
    ensures IntegerNumber(a) < IntegerNumber(b)
  {
    YearsInOrder(a.year, b.year - 1);
  }

  lemma IntegersInOrder(a: Date, b: Date)
    requires Valid(a) && Valid(b) && Before(a, b)
    ensures IntegerNumber(a) < IntegerNumber(b)
  {
    if a.year == b.year {
      DaysInOrder(a, b);
    } else {
      DayInYear(a);
      DayInYear(b);
      YearsApart(a, b);
    }
  }

  lemma {:induction false} MonthStartsInOrder(year: int, m: int, n: int)
    requires 1 <= m <= n <= 13
    ensures m < n ==> MonthStart(year, m) + MonthLength(year, m) <= MonthStart(year, n)
    ensures 0 <= MonthStart(year, m) <= MonthStart(year, n)
    ensures MonthStart(year, 13) == 365 + LeapDay(year)
    decreases n - m
  {
    DaysBeforeTable();
    if m < n {
      MonthEnd(year, m);
      MonthStartsInOrder(year, m + 1, n);
    }
  }

  lemma {:induction false} YearsInOrder(y: int, z: int)
    requires y <= z
    ensures YearDays(y) <= YearDays(z)
    decreases z - y
  {
    if y < z {
      LeapCount(z);
      YearsInOrder(y, z - 1);
    }
  }

  /** The source's promise: every date from the inception on, at every instant of
      its day but the last half millisecond, is given back. */
  lemma CalendarRoundTrip(d: Date, f: real)
    requires Valid(d) && !Before(d, INCEPTION)
    requires 0.0 <= f && f + FACTOR < 1.0
    ensures DateOfDay(DayOfInstant(JulianDateOfYear(d.year as real) +
                                   DayOfYear(d.year, d.month, d.day) as real + f)) == d
  {
    hide DateOfDay, DayOfInstant, DayOfYear, IntegerNumber, JulianDateOfYear;
    InceptionNumber();
    if d != INCEPTION {
      NumbersInOrder(INCEPTION, d);
    }
    GregorianBranch(d);
    InstantOfDate(d, f);
  }

  lemma InstantOfDate(d: Date, f: real)
    requires d.year >= 1 && d.month <= 13 && 0.0 <= f && f + FACTOR < 1.0
    ensures DayOfInstant(JulianDateOfYear(d.year as real) + DayOfYear(d.year, d.month, d.day) as real + f)
            == DayNumber(d)
  {
    hide DayOfYear, JulianDateOfYear, DayNumber;
    DayNumberInIntegers(d);
    FloorOfSum(DayNumber(d), f);
  }
}
