/** The date conversions of sgp_time.c, in exact arithmetic. */
module Calendar {
  import opened Gregorian
  import opened Reals

  // ---------- sgp_math.c ----------

  function Floor(x: real): int {
    x.Floor
  }

  function Frac(x: real): real {
    x - Floor(x) as real
  }

  function Round(x: real): int {
    Floor(x + 0.5)
  }

  // ---------- the functions of the source ----------

  const SECDAY := 86400.0

  /** Half a millisecond, in days. */
  const FACTOR := 0.5 / SECDAY / 1000.0

  const DAYS: seq<int> := [31, 28, 31, 30, 31, 30, 31, 31, 30, 31, 30, 31]

  /** struct tm, with the members the source uses. */
  class Tm {
    var year: int
    var mon: int
    var mday: int
    var hour: int
    var min: int
    var sec: int

    constructor ()
    {}

    function Day(): Date
      reads this
    {
      Date(year, mon, mday)
    }
  }

  function DaysBefore(months: nat): int
    requires months <= 12
  {
    if months == 0 then 0 else DaysBefore(months - 1) + DAYS[months - 1]
  }

  function DayOfYear(yr: int, mo: int, dy: int): int
    requires mo <= 13
  {
    (if mo < 1 then 0 else DaysBefore(mo - 1)) + dy + (if Leap(yr) && mo > 2 then 1 else 0)
  }

  method DOY(yr: int, mo: int, dy: int) returns (day: int)
    requires mo <= 13
    ensures day == DayOfYear(yr, mo, dy)
  {
    day := 0;
    var i := 0;
    while i < mo - 1
      invariant 0 <= i && (mo >= 1 ==> i <= mo - 1) && (mo < 1 ==> i == 0)
      invariant day == DaysBefore(i)
    {
      day := day + DAYS[i];
      i := i + 1;
    }
    day := day + dy;
    if yr % 4 == 0 && (yr % 100 != 0 || yr % 400 == 0) && mo > 2 {
      day := day + 1;
    }
  }

  /** The Julian date of day 0.0 of a year. */
  function JulianDateOfYear(year: real): real {
    var year' := year - 1.0;
    var a := Trunc(year' / 100.0);
    var b := 2 - a + Trunc(a as real / 4.0);
    var i := Trunc(365.25 * year');
    var j := Trunc(i as real + 30.6001 * 14.0);
    j as real + 1720994.5 + b as real
  }

  /** Calendar_Date once the day number Z is known. */
  function DateOfDay(z: int): Date {
    if z < 2299161 then DateFrom(z + 1524)
    else var alpha := Floor((z as real - 1867216.25) / 36524.25);
      DateFrom(z + 1 + alpha - Floor(alpha as real / 4.0) + 1524)
  }

  function DateFrom(b: int): Date {
    var c := Floor((b as real - 122.1) / 365.25);
    var d := Floor(365.25 * c as real);
    var e := Floor((b - d) as real / 30.6001);
    var day := b - d - Floor(30.6001 * e as real);
    var month := if e as real < 13.5 then e - 1 else e - 13;
    Date(if month as real > 2.5 then c - 4716 else c - 4715, month, day)
  }

  lemma DateByParts(b: int, c: int, d: int, e: int, date: Date)
    requires c == Floor((b as real - 122.1) / 365.25) && d == Floor(365.25 * c as real)
    requires e == Floor((b - d) as real / 30.6001)
    requires date.month == if e as real < 13.5 then e - 1 else e - 13
    requires date.year == if date.month as real > 2.5 then c - 4716 else c - 4715
    requires date.day == b - d - Floor(30.6001 * e as real)
    ensures DateFrom(b) == date
  {}

  /** The day number whose date Calendar_Date gives to an instant. */
  function DayOfInstant(jd: real): int {
    if Frac(jd + 0.5) + FACTOR >= 1.0 then Round(jd + FACTOR) else Round(jd)
  }

  method CalendarDate(jd: real, cdate: Tm)
    modifies cdate`year, cdate`mon, cdate`mday
    ensures cdate.Day() == DateOfDay(DayOfInstant(jd))
  {
    hide DateFrom;
    var t := jd;
    var f := Frac(t + 0.5);
    if f + FACTOR >= 1.0 {
      t := t + FACTOR;
      f := 0.0;
    }
    var z := Round(t);
    assert z == DayOfInstant(jd);
    var a: int;
    if z < 2299161 {
      a := z;
    } else {
      var alpha := Floor((z as real - 1867216.25) / 36524.25);
      a := z + 1 + alpha - Floor(alpha as real / 4.0);
    }
    var b := a + 1524;
    var c := Floor((b as real - 122.1) / 365.25);
    var d := Floor(365.25 * c as real);
    var e := Floor((b - d) as real / 30.6001);
    var whole := b - d - Floor(30.6001 * e as real);
    var day := whole as real + f;
    FloorOfSum(whole, f);
    FloorOfSum(e - 1, 0.5);
    FloorOfSum(e - 13, 0.5);
    var month := if e as real < 13.5 then Round(e as real - 1.0) else Round(e as real - 13.0);
    assert month == if e as real < 13.5 then e - 1 else e - 13;
    var year := if month as real > 2.5 then c - 4716 else c - 4715;
    assert DateOfDay(z) == DateFrom(b);
    DateByParts(b, c, d, e, Date(year, month, whole));
    cdate.year := year;
    cdate.mon := month;
    cdate.mday := Floor(day);
  }

  /** The second of the day that Time_of_Day rounds an instant to. */
  function RoundedSecond(jd: real): int {
    Round(Frac(jd - 0.5) * SECDAY)
  }

  /** It sets the clock members only, and always to a valid time: the rounded second,
      with 24:00:00 written as 00:00:00. */
  method TimeOfDay(jd: real, cdate: Tm)
    modifies cdate`hour, cdate`min, cdate`sec
    ensures 0 <= cdate.hour < 24 && 0 <= cdate.min < 60 && 0 <= cdate.sec < 60
    ensures 3600 * cdate.hour + 60 * cdate.min + cdate.sec == RoundedSecond(jd) % 86400
  {
    SecondBound(jd);
    var time := Round(Frac(jd - 0.5) * SECDAY) as real;
    var hr := Floor(time / 3600.0);
    time := time - 3600.0 * hr as real;
    if hr == 24 {
      hr := 0;
    }
    var mn := Floor(time / 60.0);
    var sc := Trunc(time - 60.0 * mn as real);
    cdate.hour := hr;
    cdate.min := mn;
    cdate.sec := sc;
  }

  lemma SecondBound(jd: real)
    ensures 0 <= RoundedSecond(jd) <= 86400
  {}

  function FractionOfDay(hr: int, mi: int, se: int): real {
    (hr as real + (mi as real + se as real / 60.0) / 60.0) / 24.0
  }

  function JulianDate(year: int, mon: int, mday: int, hour: int, min: int, sec: int): real
    requires mon <= 13
  {
    JulianDateOfYear(year as real) + DayOfYear(year, mon, mday) as real + FractionOfDay(hour, min, sec)
  }

  /** Integer division of the source's language, toward zero. */
  function Quotient(a: int, b: nat): int
    requires b > 0
  {
    if a >= 0 then a / b else -(-a / b)
  }

  /** A date in the element sets' form: two digits of the year, then the day. */
  function EpochOf(d: Date, fraction: real): real
    requires d.month <= 13
  {
    (d.year - 100 * Quotient(d.year, 100)) as real * 1000.0 + (DayOfYear(d.year, d.month, d.day) as real + fraction)
  }

  function JulianDateOfEpoch(epoch: real): real {
    var year := Trunc(epoch * 0.001);
    var day := (epoch * 0.001 - year as real) * 1000.0;
    JulianDateOfYear((if year < 57 then year + 2000 else year + 1900) as real) + day
  }

  // ---------- floors of reals as integer quotients ----------

  lemma FloorOfSum(n: int, f: real)
    requires 0.0 <= f < 1.0
    ensures Floor(n as real + f) == n
  {}

  lemma CenturyFloor(z: int)
    ensures Floor((z as real - 1867216.25) / 36524.25) == (4 * z - 7468865) / 146097
  {}

  lemma QuarterFloor(n: int)
    ensures Floor(n as real / 4.0) == n / 4
  {}

  lemma YearFloor(b: int)
    ensures Floor((b as real - 122.1) / 365.25) == (20 * b - 2442) / 7305
  {}

  lemma DaysOfYearsFloor(c: int)
    ensures Floor(365.25 * c as real) == 365 * c + c / 4
  {}

  lemma MonthFloor(t: int)
    ensures Floor(t as real / 30.6001) == 10000 * t / 306001
  {}

  lemma DaysOfMonthsFloor(e: int)
    ensures Floor(30.6001 * e as real) == 306001 * e / 10000
  {}
}
