/**
 * JavaScript's Date read in local time, as calendar components: the
 * normalising constructor new Date(y, m, d), Date#setDate, the day count
 * behind getTime() and getDay(), and the parse of "YYYY-MM-DD" + "T00:00:00".
 * Local time is taken to have no daylight-saving jumps, so every local day
 * is 86 400 000 ms long.
 */
module Civil {
  import opened Js

  const MS_PER_DAY: int := 86400000

  /** A calendar date; `month` counts from 0, as Date#getMonth does. */
  datatype Date = Date(year: int, month: int, day: int)

  predicate IsLeapYear(y: int)
  {
    y % 4 == 0 && (y % 100 != 0 || y % 400 == 0)
  }

  function DaysInMonth(year: int, month: int): (n: int)
    requires 0 <= month < 12
    ensures 28 <= n <= 31
    ensures month == 1 ==> (n == 29 <==> IsLeapYear(year))
    ensures month != 1 ==> (n == 30 <==> month in {3, 5, 8, 10})
  {
    if month == 1 then (if IsLeapYear(year) then 29 else 28)
    else if month == 3 || month == 5 || month == 8 || month == 10 then 30
    else 31
  }

  /** The components a Date object can hold. */
  predicate Valid(d: Date)
  {
    0 <= d.month < 12 && 1 <= d.day <= DaysInMonth(d.year, d.month)
  }

  type ValidDate = d: Date | Valid(d) witness Date(1970, 0, 1)

  /** A Date object: its local calendar date and the milliseconds since that date's midnight. */
  datatype Moment = Moment(date: Date, msOfDay: int)

  type LocalTime = t: Moment | Valid(t.date) && 0 <= t.msOfDay < MS_PER_DAY
    witness Moment(Date(1970, 0, 1), 0)

  function PrevMonthOf(y: int, m: int): (r: (int, int))
    requires 0 <= m < 12
    ensures 0 <= r.1 < 12
  {
    if m == 0 then (y - 1, 11) else (y, m - 1)
  }

  function NextMonthOf(y: int, m: int): (r: (int, int))
    requires 0 <= m < 12
    ensures 0 <= r.1 < 12
  {
    if m == 11 then (y + 1, 0) else (y, m + 1)
  }

  /**
   * MakeDay's carry of an out-of-range day of the month into the
   * neighbouring months (day 0 is the last day of the month before).
   */
  function Carry(y: int, m: int, d: int): (r: Date)
    requires 0 <= m < 12
    ensures Valid(r)
    ensures 1 <= d <= DaysInMonth(y, m) ==> r == Date(y, m, d)
    decreases if d < 1 then 1 - d else if d > DaysInMonth(y, m) then d else 0
  {
    if d < 1 then
      var p := PrevMonthOf(y, m);
      Carry(p.0, p.1, d + DaysInMonth(p.0, p.1))
    else if d > DaysInMonth(y, m) then
      var n := NextMonthOf(y, m);
      Carry(n.0, n.1, d - DaysInMonth(y, m))
    else
      Date(y, m, d)
  }

  /** The constructor reads a year argument of 0..99 as 1900..1999. */
  function ConstructorYear(y: int): int
  {
    if 0 <= y <= 99 then 1900 + y else y
  }

  /** new Date(y, m, d): the month carries into the year, then the day into the month. */
  function MakeDate(y: int, m: int, d: int): (r: Date)
    ensures Valid(r)
  {
    Carry(ConstructorYear(y) + m / 12, m % 12, d)
  }

  /** date.setDate(day) on a date: no year mapping, only the carry. */
  function SetDate(date: Date, day: int): (r: Date)
    requires Valid(date)
    ensures Valid(r)
  {
    Carry(date.year, date.month, day)
  }

  /** new Date(y, m, 0) is the last day of the month before month m. */
  lemma DayZeroIsLastOfPreviousMonth(y: int, m: int)
    ensures var p := PrevMonthOf(ConstructorYear(y) + m / 12, m % 12);
            MakeDate(y, m, 0) == Date(p.0, p.1, DaysInMonth(p.0, p.1))
  {
  }

  /** The day after a date: the next day of the month, or the 1st of the next month. */
  lemma SetDateNext(date: Date)
    requires Valid(date)
    ensures date.day < DaysInMonth(date.year, date.month) ==>
              SetDate(date, date.day + 1) == Date(date.year, date.month, date.day + 1)
    ensures date.day == DaysInMonth(date.year, date.month) ==>
              var n := NextMonthOf(date.year, date.month);
              SetDate(date, date.day + 1) == Date(n.0, n.1, 1)
  {
  }

  // ---------------------------------------------------------------------
  // Day numbers
  // ---------------------------------------------------------------------

  /**
   * The days from 1 March of year 0 to 1 March of year y of the March-based
   * calendar; `/` rounds down, so the count holds for negative years too.
   */
  function MarchYearStart(y: int): int
  {
    365 * y + y / 4 - y / 100 + y / 400
  }

  /** The days from 1 March to the 1st of the mp-th month after March. */
  const MONTH_OFFSETS: seq<int> := [0, 31, 61, 92, 122, 153, 184, 214, 245, 275, 306, 337]

  /**
   * The days since 1 January 1970 (negative before it), for a date whose
   * day may run past its month (MakeDay counts it on). Months count from
   * March so that a leap day is the last day of its year.
   */
  function DayNumber(d: Date): int
    requires 0 <= d.month < 12
  {
    var y := if d.month <= 1 then d.year - 1 else d.year;
    var mp := if d.month >= 2 then d.month - 2 else d.month + 10;
    MarchYearStart(y) + MONTH_OFFSETS[mp] + d.day - 1 - 719468
  }

  /** A March-based year has 366 days exactly when its February is a leap February. */
  lemma MarchYearLength(y: int)
    ensures MarchYearStart(y + 1) - MarchYearStart(y) == if IsLeapYear(y + 1) then 366 else 365
  {
    Step4(y);
    Step100(y);
    Step400(y);
    if (y + 1) % 400 == 0 {
      Divides400(y + 1);
    }
    if (y + 1) % 100 == 0 {
      Divides100(y + 1);
    }
  }

  /** Whether one more year crosses a multiple of 4, 100 or 400. */
  lemma Step4(a: int)
    ensures (a + 1) / 4 - a / 4 == if (a + 1) % 4 == 0 then 1 else 0
  {
  }

  lemma Step100(a: int)
    ensures (a + 1) / 100 - a / 100 == if (a + 1) % 100 == 0 then 1 else 0
  {
  }

  lemma Step400(a: int)
    ensures (a + 1) / 400 - a / 400 == if (a + 1) % 400 == 0 then 1 else 0
  {
  }

  lemma Divides400(x: int)
    requires x % 400 == 0
    ensures x % 100 == 0
  {
    var q := x / 400;
    assert x == 400 * q;
    assert x / 100 == 4 * q;
  }

  lemma Divides100(x: int)
    requires x % 100 == 0
    ensures x % 4 == 0
  {
    var q := x / 100;
    assert x == 100 * q;
    assert x / 4 == 25 * q;
  }

  /** Consecutive dates have consecutive day numbers. */
  lemma DayNumberNext(date: Date)
    requires Valid(date)
    ensures DayNumber(SetDate(date, date.day + 1)) == DayNumber(date) + 1
  {
    SetDateNext(date);
    if date.day == DaysInMonth(date.year, date.month) {
      MonthLength(date.year, date.month);
    }
  }

  /** new Date(y, m, d) counts d - 1 days on from the 1st of its (carried) month. */
  lemma {:induction false} DayNumberOfCarry(y: int, m: int, d: int)
    requires 0 <= m < 12
    ensures DayNumber(Carry(y, m, d)) == DayNumber(Date(y, m, 1)) + d - 1
    decreases if d < 1 then 1 - d else if d > DaysInMonth(y, m) then d else 0
  {
    if d < 1 {
      var p := PrevMonthOf(y, m);
      assert Carry(y, m, d) == Carry(p.0, p.1, d + DaysInMonth(p.0, p.1));
      DayNumberOfCarry(p.0, p.1, d + DaysInMonth(p.0, p.1));
      assert NextMonthOf(p.0, p.1) == (y, m);
      MonthLength(p.0, p.1);
    } else if d > DaysInMonth(y, m) {
      var n := NextMonthOf(y, m);
      assert Carry(y, m, d) == Carry(n.0, n.1, d - DaysInMonth(y, m));
      DayNumberOfCarry(n.0, n.1, d - DaysInMonth(y, m));
      MonthLength(y, m);
    }
  }

  /** The 1st of the next month comes DaysInMonth days after the 1st of a month. */
  lemma MonthLength(y: int, m: int)
    requires 0 <= m < 12
    ensures var n := NextMonthOf(y, m);
            DayNumber(Date(n.0, n.1, 1)) == DayNumber(Date(y, m, 1)) + DaysInMonth(y, m)
  {
    if m == 1 {
      MarchYearLength(y - 1);
    }
  }

  /** Date#getDay: 0 for Sunday; 1 January 1970 was a Thursday. */
  function Weekday(d: Date): (w: int)
    requires 0 <= d.month < 12
    ensures 0 <= w < 7
  {
    (DayNumber(d) + 4) % 7
  }

  /** Date#getTime() of local midnight at the start of a date. */
  function MidnightMs(d: Date): int
    requires 0 <= d.month < 12
  {
    DayNumber(d) * MS_PER_DAY
  }

  /** Date#getTime() of a moment. */
  function Time(t: LocalTime): (ms: int)
    ensures MidnightMs(t.date) <= ms < MidnightMs(t.date) + MS_PER_DAY
  {
    MidnightMs(t.date) + t.msOfDay
  }

  lemma EpochIsThursday()
    ensures DayNumber(Date(1970, 0, 1)) == 0 && Weekday(Date(1970, 0, 1)) == 4
  {
  }

  // ---------------------------------------------------------------------
  // Parsing "YYYY-MM-DD" + "T00:00:00"
  // ---------------------------------------------------------------------

  /**
   * new Date(s + "T00:00:00") in a V8 engine: a local date-time in the
   * ISO form, with s one of "YYYY-MM-DD", "YYYY-MM" (the first of the
   * month) or "YYYY" (the first of January), four year digits and two-digit
   * fields separated by '-'. The month must be 01..12. The day may be
   * 01..31: V8 carries a day past the month's end into the next month
   * ("2024-02-30" is 1 March) where ECMAScript itself would reject it.
   * Anything else is an Invalid Date (None).
   */
  function ParseIsoDate(s: string): (r: Option<Date>)
    ensures r.Some? ==> Valid(r.value)
    ensures r.Some? ==> (|s| == 10 && s[4] == '-' && s[7] == '-') || (|s| == 7 && s[4] == '-') || (|s| == 4 && AllDigits(s))
  {
    if |s| == 10 && s[4] == '-' && s[7] == '-'
       && AllDigits(s[..4]) && AllDigits(s[5..7]) && AllDigits(s[8..])
    then
      var y := DecimalValue(s[..4]);
      var m := DecimalValue(s[5..7]);
      var d := DecimalValue(s[8..]);
      if 1 <= m <= 12 && 1 <= d <= 31 then Some(Carry(y, m - 1, d)) else None
    else if |s| == 7 && s[4] == '-' && AllDigits(s[..4]) && AllDigits(s[5..]) then
      var y := DecimalValue(s[..4]);
      var m := DecimalValue(s[5..]);
      if 1 <= m <= 12 then Some(Date(y, m - 1, 1)) else None
    else if |s| == 4 && AllDigits(s) then
      Some(Date(DecimalValue(s), 0, 1))
    else
      None
  }

  /** "YYYY-MM" reads as the first day of that month. */
  lemma ParseIsoMonth(s: string, y: string, m: string)
    requires |y| == 4 && |m| == 2 && AllDigits(y) && AllDigits(m)
    requires 1 <= DecimalValue(m) <= 12
    requires s == y + "-" + m
    ensures ParseIsoDate(s) == Some(Date(DecimalValue(y), DecimalValue(m) - 1, 1))
  {
    assert s[..4] == y && s[5..] == m;
  }

  /** "YYYY" reads as the first of January of that year. */
  lemma ParseIsoYear(s: string)
    requires |s| == 4 && AllDigits(s)
    ensures ParseIsoDate(s) == Some(Date(DecimalValue(s), 0, 1))
  {
  }

  /** A day past the month's end carries over: "2024-02-30" is 1 March 2024. */
  lemma ParseIsoCarries()
    ensures ParseIsoDate("2024-02-30") == Some(Date(2024, 2, 1))
  {
    var s := "2024-02-30";
    assert s[..4] == "2024" && s[5..7] == "02" && s[8..] == "30";
    assert DecimalValue("2024") == 2024 by {
      assert "2024"[..3] == "202" && "202"[..2] == "20" && "20"[..1] == "2" && "2"[..0] == "";
    }
    assert DecimalValue("02") == 2 by {
      assert "02"[..1] == "0" && "0"[..0] == "";
    }
    assert DecimalValue("30") == 30 by {
      assert "30"[..1] == "3" && "3"[..0] == "";
    }
    assert DaysInMonth(2024, 1) == 29;
  }
}
