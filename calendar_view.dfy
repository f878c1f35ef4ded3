/**
 * The calendar tab: the "YYYY-MM" month it shows, the grid of whole weeks
 * around that month with the tasks of each day, the month navigation, and
 * the list of the selected day's tasks. The component's selected date is
 * the field of a Calendar object; the clock is a parameter.
 */
module CalendarView {
  import opened Js
  import opened Civil
  import opened Sorting
  import opened Tasks
  import opened Utils

  // ---------------------------------------------------------------------
  // parseYearMonth and toYearMonth
  // ---------------------------------------------------------------------

  /**
   * parseYearMonth: the first two pieces of the string split on '-', read
   * as numbers, the month made 0-based. None stands for a NaN in either
   * (a piece that is not all digits, or no second piece).
   */
  function ParseYearMonth(ym: string): (r: Option<(int, int)>)
    ensures r.Some? ==> r.value.0 >= 0 && r.value.1 >= -1
  {
    var parts := Split(ym, '-');
    var y := NumberOf(parts[0]);
    var m := if |parts| >= 2 then NumberOf(parts[1]) else None;
    if y.None? || m.None? then None
    else
      var year: int := y.value;
      var month: int := (m.value as int) - 1;
      Some((year, month))
  }

  /**
   * toYearMonth: `${year}-${month + 1}` with the month padded to two
   * digits. A year and a month of 0..11, printed and read back, are the
   * same year and month.
   */
  function ToYearMonth(year: int, month: int): (ym: string)
    ensures 0 <= year && 0 <= month < 12 ==> ParseYearMonth(ym) == Some((year, month))
  {
    var ym := IntToDecimal(year) + "-" + PadStart2(IntToDecimal(month + 1));
    if 0 <= year && 0 <= month < 12 then
      var y := NatToDecimal(year);
      var m := Pad2(month + 1);
      TwoDigitsValue(month + 1);
      assert ym == y + "-" + m;
      ParsePieces(ym, y, m);
      DecimalRoundTrip(year);
      ym
    else
      ym
  }

  /** A well-formed "YYYY-MM" reads as its year and 0-based month and prints back as itself. */
  lemma YearMonthRoundTrip(ym: string, y: string, m: string)
    requires |y| == 4 && AllDigits(y) && y[0] != '0'
    requires |m| == 2 && AllDigits(m) && 1 <= DecimalValue(m) <= 12
    requires ym == y + "-" + m
    ensures ParseYearMonth(ym) == Some((DecimalValue(y), DecimalValue(m) - 1))
    ensures ToYearMonth(DecimalValue(y), DecimalValue(m) - 1) == ym
  {
    ParsePieces(ym, y, m);
    DecimalCanonical(y);
    MonthDigits(m);
    assert IntToDecimal(DecimalValue(m) - 1 + 1) == NatToDecimal(DecimalValue(m));
  }

  /** Two digit strings joined by '-' read as their two values, the second made 0-based. */
  lemma ParsePieces(ym: string, y: string, m: string)
    requires AllDigits(y) && AllDigits(m)
    requires ym == y + "-" + m
    ensures ParseYearMonth(ym) == Some((DecimalValue(y) as int, DecimalValue(m) - 1))
  {
    SplitDigitPieces(ym, y, m);
    ParseSplitDigits(ym, y, m);
  }

  /** Two digit pieces read as their two values, the second made 0-based. */
  lemma ParseSplitDigits(ym: string, y: string, m: string)
    requires AllDigits(y) && AllDigits(m)
    requires Split(ym, '-') == [y, m]
    ensures ParseYearMonth(ym) == Some((DecimalValue(y) as int, DecimalValue(m) - 1))
  {
    var a: int, b: int := DecimalValue(y), DecimalValue(m);
    assert NumberOf(y) == Some(a) && NumberOf(m) == Some(b);
    ParseNumbers(ym, y, m, a, b);
  }

  /** Two pieces that Number reads as a and b give the year a and the 0-based month b - 1. */
  lemma ParseNumbers(ym: string, y: string, m: string, a: int, b: int)
    requires Split(ym, '-') == [y, m]
    requires NumberOf(y) == Some(a) && NumberOf(m) == Some(b)
    ensures ParseYearMonth(ym) == Some((a, b - 1))
  {
    var parts := Split(ym, '-');
    assert |parts| >= 2 && parts[0] == y && parts[1] == m;
  }

  /** Two digit strings joined by '-' split back into the two. */
  lemma SplitDigitPieces(ym: string, y: string, m: string)
    requires AllDigits(y) && AllDigits(m)
    requires ym == y + "-" + m
    ensures Split(ym, '-') == [y, m]
  {
    assert '-' !in y by {
      assert forall i | 0 <= i < |y| :: IsDigit(y[i]);
    }
    assert '-' !in m by {
      assert forall i | 0 <= i < |m| :: IsDigit(m[i]);
    }
    SplitAround(ym, y, m);
  }

  /** Two pieces without '-' joined by '-' split back into the two. */
  lemma SplitAround(ym: string, a: string, b: string)
    requires '-' !in a && '-' !in b
    requires ym == a + "-" + b
    ensures Split(ym, '-') == [a, b]
  {
    SplitOnFirst(a, '-', b);
    SplitWithout(b, '-');
  }

  /** Two digits print back, padded, as themselves. */
  lemma MonthDigits(m: string)
    requires |m| == 2 && AllDigits(m)
    ensures PadStart2(NatToDecimal(DecimalValue(m))) == m
  {
    var v := DecimalValue(m);
    var hi, lo := DigitValue(m[0]), DigitValue(m[1]);
    assert m[..|m| - 1] == m[..1];
    assert DecimalValue(m[..1]) == hi by {
      assert m[..1][..0] == [];
    }
    assert v == hi * 10 + lo;
    assert v / 10 == hi && v % 10 == lo;
    TwoDigits(v);
    assert [DigitChar(hi), DigitChar(lo)] == m;
  }

  /** A digit string without a leading zero is how its value prints. */
  lemma {:induction false} DecimalCanonical(s: string)
    requires |s| >= 1 && AllDigits(s) && (|s| == 1 || s[0] != '0')
    ensures NatToDecimal(DecimalValue(s)) == s
  {
    if |s| > 1 {
      var p := s[..|s| - 1];
      DecimalCanonical(p);
      assert DecimalValue(p) != 0;
    }
  }

  // ---------------------------------------------------------------------
  // prevMonth and nextMonth
  // ---------------------------------------------------------------------

  /** prevMonth: one month back; below January comes December of the year before. */
  function PrevMonth(year: int, month: int): (r: (int, int))
    ensures 0 <= month < 12 ==> r == PrevMonthOf(year, month)
  {
    if month - 1 < 0 then (year - 1, 11) else (year, month - 1)
  }

  /** nextMonth: one month on; past December comes January of the year after. */
  function NextMonth(year: int, month: int): (r: (int, int))
    ensures 0 <= month < 12 ==> r == NextMonthOf(year, month)
  {
    if month + 1 > 11 then (year + 1, 0) else (year, month + 1)
  }

  /** The two buttons undo each other, and only January and December change the year. */
  lemma MonthsInverse(year: int, month: int)
    requires 0 <= month < 12
    ensures PrevMonth(NextMonth(year, month).0, NextMonth(year, month).1) == (year, month)
    ensures NextMonth(PrevMonth(year, month).0, PrevMonth(year, month).1) == (year, month)
    ensures PrevMonth(year, month).0 == (if month == 0 then year - 1 else year)
    ensures NextMonth(year, month).0 == (if month == 11 then year + 1 else year)
  {
  }

  /**
   * parseYearMonth piece by piece, as the view reads it into viewYear and
   * viewMonth: each is None where Number gave NaN, and a NaN month stays
   * NaN after the "- 1".
   */
  function ViewYearMonth(ym: string): (v: (Option<int>, Option<int>))
    ensures ParseYearMonth(ym) == (if v.0.Some? && v.1.Some? then Some((v.0.value, v.1.value)) else None)
  {
    var parts := Split(ym, '-');
    var y := NumberOf(parts[0]);
    var m := if |parts| >= 2 then NumberOf(parts[1]) else None;
    (y, if m.Some? then Some(m.value - 1) else None)
  }

  /** String(n) of a number that may be NaN. */
  function NumberText(n: Option<int>): (s: string)
    ensures n.None? <==> s == "NaN"
    ensures |s| >= 1
  {
    if n.Some? then
      assert IntToDecimal(n.value)[|IntToDecimal(n.value)| - 1] in "0123456789";
      IntToDecimal(n.value)
    else "NaN"
  }

  /** toYearMonth of a year and month that may be NaN: a NaN piece prints as "NaN". */
  function YearMonthText(year: Option<int>, month: Option<int>): (ym: string)
    ensures year.Some? && month.Some? ==> ym == ToYearMonth(year.value, month.value)
    ensures month.None? ==> ym == NumberText(year) + "-NaN"
    ensures year.None? ==> |ym| >= 4 && ym[..4] == "NaN-"
  {
    var m := NumberText(if month.Some? then Some(month.value + 1) else None);
    NumberText(year) + "-" + PadStart2(m)
  }

  /**
   * prevMonth: the month string the previous-month button sends. A readable
   * month gives the month before it; a NaN piece survives the arithmetic
   * (`NaN - 1 < 0` is false) and prints as "NaN".
   */
  function PrevMonthTarget(currentMonth: string): (ym: string)
    ensures ParseYearMonth(currentMonth).Some? ==>
              var v := ParseYearMonth(currentMonth).value;
              ym == ToYearMonth(PrevMonth(v.0, v.1).0, PrevMonth(v.0, v.1).1)
    ensures ViewYearMonth(currentMonth).1.None? ==> ym == NumberText(ViewYearMonth(currentMonth).0) + "-NaN"
    ensures ViewYearMonth(currentMonth).0.None? ==> |ym| >= 4 && ym[..4] == "NaN-"
  {
    var v := ViewYearMonth(currentMonth);
    match v.1
    case None => YearMonthText(v.0, None)
    case Some(m) =>
      var p := PrevMonth(if v.0.Some? then v.0.value else 0, m);
      YearMonthText(if v.0.Some? then Some(p.0) else None, Some(p.1))
  }

  /**
   * nextMonth: the month string the next-month button sends. A readable
   * month gives the month after it; a NaN piece prints as "NaN".
   */
  function NextMonthTarget(currentMonth: string): (ym: string)
    ensures ParseYearMonth(currentMonth).Some? ==>
              var v := ParseYearMonth(currentMonth).value;
              ym == ToYearMonth(NextMonth(v.0, v.1).0, NextMonth(v.0, v.1).1)
    ensures ViewYearMonth(currentMonth).1.None? ==> ym == NumberText(ViewYearMonth(currentMonth).0) + "-NaN"
    ensures ViewYearMonth(currentMonth).0.None? ==> |ym| >= 4 && ym[..4] == "NaN-"
  {
    var v := ViewYearMonth(currentMonth);
    match v.1
    case None => YearMonthText(v.0, None)
    case Some(m) =>
      var n := NextMonth(if v.0.Some? then v.0.value else 0, m);
      YearMonthText(if v.0.Some? then Some(n.0) else None, Some(n.1))
  }

  /** "abc" has neither a year nor a month for Number to read. */
  lemma ViewOfLetters()
    ensures ViewYearMonth("abc") == (None, None)
  {
    assert Split("abc", '-') == ["abc"];
    assert Trim("abc") == "abc" by { TrimPadded("", "abc", ""); assert "" + "abc" + "" == "abc"; }
    NumberOfGeneral("abc");
    assert !AllDigits("abc") by { assert !IsDigit("abc"[0]); }
    assert RadixOf('b') == 2 && !AllRadixDigits("c", 2);
  }

  /** "2024" has a year and no month. */
  lemma ViewOfYearOnly()
    ensures ViewYearMonth("2024") == (Some(2024), None)
    ensures NumberText(Some(2024)) == "2024"
  {
    assert Split("2024", '-') == ["2024"];
    assert NatToDecimal(2) == "2" && NatToDecimal(20) == "20" && NatToDecimal(202) == "202";
    assert NatToDecimal(2024) == "2024";
    DecimalRoundTrip(2024);
  }

  /** An unreadable shown month is still sent on: "abc" gives "NaN-NaN", and "2024" gives "2024-NaN". */
  lemma UnreadableMonthTargets()
    ensures PrevMonthTarget("abc") == "NaN-NaN" && NextMonthTarget("abc") == "NaN-NaN"
    ensures PrevMonthTarget("2024") == "2024-NaN" && NextMonthTarget("2024") == "2024-NaN"
  {
    ViewOfLetters();
    ViewOfYearOnly();
  }

  /** Going forward then back, or back then forward, from a well-formed month shows the same month string. */
  lemma NavigationRoundTrip(ym: string, y: string, m: string)
    requires |y| == 4 && AllDigits(y) && y[0] != '0'
    requires |m| == 2 && AllDigits(m) && 1 <= DecimalValue(m) <= 12
    requires ym == y + "-" + m
    ensures PrevMonthTarget(NextMonthTarget(ym)) == ym
    ensures NextMonthTarget(PrevMonthTarget(ym)) == ym
  {
    YearMonthRoundTrip(ym, y, m);
    var yv := DecimalValue(y);
    var mv := DecimalValue(m) - 1;
    assert yv != 0 by {
      DecimalCanonical(y);
      assert NatToDecimal(0) == "0";
    }
    MonthsInverse(yv, mv);
  }

  // ---------------------------------------------------------------------
  // The task map
  // ---------------------------------------------------------------------

  /** A task is on a day when its date is truthy and is the day's string. */
  predicate DatedOn(t: Task, dateStr: string)
  {
    Truthy(t.date) && t.date.value == dateStr
  }

  /** The tasks of a day, in input order. */
  function TasksOn(tasks: seq<Task>, dateStr: string): (day: seq<Task>)
    ensures |day| <= |tasks|
    ensures forall k | 0 <= k < |day| :: DatedOn(day[k], dateStr)
  {
    Filter(tasks, t => DatedOn(t, dateStr))
  }

  /** taskMap.get(key) ?? []. */
  function MapGet(taskMap: map<string, seq<Task>>, key: string): seq<Task>
  {
    if key in taskMap then taskMap[key] else []
  }

  /** The task map: each dated task pushed onto the list of its date, in input order. */
  method BuildTaskMap(tasks: seq<Task>) returns (taskMap: map<string, seq<Task>>)
    ensures forall key :: MapGet(taskMap, key) == TasksOn(tasks, key)
  {
    taskMap := map[];
    for i := 0 to |tasks|
      invariant forall key :: MapGet(taskMap, key) == TasksOn(tasks[..i], key)
    {
      var task := tasks[i];
      ghost var before := taskMap;
      if Truthy(task.date) {
        var existing := MapGet(taskMap, task.date.value);
        taskMap := taskMap[task.date.value := existing + [task]];
      }
      assert tasks[..i + 1] == tasks[..i] + [task];
      forall key
        ensures MapGet(taskMap, key) == TasksOn(tasks[..i + 1], key)
      {
        FilterAppend(tasks[..i], [task], t => DatedOn(t, key));
        assert TasksOn([task], key) == if DatedOn(task, key) then [task] else [] by {
          assert [task][1..] == [];
        }
        assert MapGet(taskMap, key) == MapGet(before, key) + if DatedOn(task, key) then [task] else [];
      }
    }
    assert tasks[..|tasks|] == tasks;
  }

  /** A day's tasks are exactly the input tasks dated that day, each as often as in the input; undated tasks are on no day. */
  lemma TasksOnExactly(tasks: seq<Task>, dateStr: string)
    ensures forall t :: multiset(TasksOn(tasks, dateStr))[t] == if DatedOn(t, dateStr) then multiset(tasks)[t] else 0
    ensures forall k | 0 <= k < |TasksOn(tasks, dateStr)| :: TasksOn(tasks, dateStr)[k].date == Some(dateStr) && dateStr != ""
  {
    forall t
      ensures multiset(TasksOn(tasks, dateStr))[t] == if DatedOn(t, dateStr) then multiset(tasks)[t] else 0
    {
      FilterMultiset(tasks, u => DatedOn(u, dateStr), t);
    }
  }

  // ---------------------------------------------------------------------
  // getMonthGrid
  // ---------------------------------------------------------------------

  /** A day of the grid. */
  datatype Cell = Cell(
    date: Date,
    dateStr: string,
    day: int,
    isCurrentMonth: bool,
    isToday: bool,
    tasks: seq<Task>)

  /** The year and the 0..11 month that new Date(year, month, ...) lands in. */
  function Shown(year: int, month: int): (ym: (int, int))
    ensures 0 <= ym.1 < 12
  {
    (ConstructorYear(year) + month / 12, month % 12)
  }

  /** The month before and the month after the shown one are where month - 1 and month + 1 land. */
  lemma NextOfShown(year: int, month: int)
    ensures NextMonthOf(Shown(year, month).0, Shown(year, month).1) == Shown(year, month + 1)
    ensures PrevMonthOf(Shown(year, month).0, Shown(year, month).1) == Shown(year, month - 1)
  {
  }

  /** The 1st of the shown month. */
  function First(year: int, month: int): (d: ValidDate)
  {
    Date(Shown(year, month).0, Shown(year, month).1, 1)
  }

  /** The column of the 1st, 0 for Sunday. */
  function StartOffset(year: int, month: int): (n: int)
    ensures 0 <= n < 7
  {
    Weekday(First(year, month))
  }

  /** The length of the shown month. */
  function GridMonthDays(year: int, month: int): (n: int)
    ensures 28 <= n <= 31
  {
    DaysInMonth(Shown(year, month).0, Shown(year, month).1)
  }

  /** The length of the month before. */
  function PrevMonthDays(year: int, month: int): (n: int)
    ensures 28 <= n <= 31
  {
    var p := PrevMonthOf(Shown(year, month).0, Shown(year, month).1);
    DaysInMonth(p.0, p.1)
  }

  /** The cells that fill the last row: 7 - n % 7, or none when that is 7. */
  function TrailingCount(n: int): (k: int)
    ensures 0 <= k < 7 && (n + k) % 7 == 0
  {
    if 7 - n % 7 < 7 then 7 - n % 7 else 0
  }

  /** The number of cells of the grid. */
  function GridLength(year: int, month: int): int
  {
    var n := StartOffset(year, month) + GridMonthDays(year, month);
    n + TrailingCount(n)
  }

  /** Whether cell k is one of the month's own days. */
  predicate InMonth(year: int, month: int, k: int)
  {
    StartOffset(year, month) <= k < StartOffset(year, month) + GridMonthDays(year, month)
  }

  /** The day of the month cell k shows. */
  function GridDay(year: int, month: int, k: int): int
  {
    var offset := StartOffset(year, month);
    var days := GridMonthDays(year, month);
    if k < offset then PrevMonthDays(year, month) - offset + 1 + k
    else if k < offset + days then k - offset + 1
    else k - offset - days + 1
  }

  /**
   * The date of cell k: a day of the month before for the first
   * StartOffset cells, then the days of the month, then days of the month
   * after.
   */
  function GridDate(year: int, month: int, k: int): Date
  {
    var s := Shown(year, month);
    var m := if k < StartOffset(year, month) then PrevMonthOf(s.0, s.1)
             else if InMonth(year, month, k) then s
             else NextMonthOf(s.0, s.1);
    Date(m.0, m.1, GridDay(year, month, k))
  }

  /** The cell of a date, with the day number it shows. */
  function CellOf(date: ValidDate, day: int, isCurrentMonth: bool, todayStr: string, tasks: seq<Task>): Cell
  {
    var dateStr := FormatDate(date);
    Cell(date, dateStr, day, isCurrentMonth, dateStr == todayStr, TasksOn(tasks, dateStr))
  }

  /** Cell k of the grid. */
  function GridCell(year: int, month: int, tasks: seq<Task>, todayStr: string, k: int): (c: Cell)
    requires 0 <= k < GridLength(year, month)
    ensures Valid(c.date) && c.date == GridDate(year, month, k) && c.dateStr == FormatDate(c.date)
    ensures c.isToday <==> c.dateStr == todayStr
    ensures forall j | 0 <= j < |c.tasks| :: DatedOn(c.tasks[j], c.dateStr)
  {
    GridDateValid(year, month, k);
    CellOf(GridDate(year, month, k), GridDay(year, month, k), InMonth(year, month, k), todayStr, tasks)
  }
  /** The whole grid, cell by cell. */
  function Grid(year: int, month: int, tasks: seq<Task>, todayStr: string): (g: seq<Cell>)
    ensures |g| == GridLength(year, month)
    ensures forall k | 0 <= k < |g| :: g[k] == GridCell(year, month, tasks, todayStr, k)
  {
    seq(GridLength(year, month), k requires 0 <= k < GridLength(year, month) => GridCell(year, month, tasks, todayStr, k))
  }


  /** Every cell of the grid holds a real date. */
  lemma GridDateValid(year: int, month: int, k: int)
    requires 0 <= k < GridLength(year, month)
    ensures Valid(GridDate(year, month, k))
  {
  }

  // The three new Date calls of getMonthGrid land on the grid's dates.

  lemma FirstMade(year: int, month: int)
    ensures MakeDate(year, month, 1) == First(year, month)
    ensures MakeDate(year, month + 1, 0).day == GridMonthDays(year, month)
    ensures MakeDate(year, month, 0).day == PrevMonthDays(year, month)
  {
    DayZeroIsLastOfPreviousMonth(year, month + 1);
    DayZeroIsLastOfPreviousMonth(year, month);
    NextOfShown(year, month);
  }

  lemma LeadingMade(year: int, month: int, k: int)
    requires 0 <= k < StartOffset(year, month)
    ensures MakeDate(year, month - 1, PrevMonthDays(year, month) - StartOffset(year, month) + 1 + k) == GridDate(year, month, k)
  {
    NextOfShown(year, month);
  }

  lemma MonthMade(year: int, month: int, k: int)
    requires InMonth(year, month, k)
    ensures MakeDate(year, month, k - StartOffset(year, month) + 1) == GridDate(year, month, k)
  {
  }

  lemma TrailingMade(year: int, month: int, k: int)
    requires StartOffset(year, month) + GridMonthDays(year, month) <= k < GridLength(year, month)
    ensures MakeDate(year, month + 1, k - StartOffset(year, month) - GridMonthDays(year, month) + 1) == GridDate(year, month, k)
  {
    NextOfShown(year, month);
  }

  /** The cells new Date(y, m, day) makes for count days from `from` on, as one of the loops pushes them. */
  function DaysCells(y: int, m: int, from: int, count: nat, isCurrentMonth: bool, todayStr: string, tasks: seq<Task>): (cells: seq<Cell>)
    ensures |cells| == count
  {
    seq(count, j => CellOf(MakeDate(y, m, from + j), from + j, isCurrentMonth, todayStr, tasks))
  }

  lemma DaysCellsAll(y: int, m: int, from: int, count: nat, isCurrentMonth: bool, todayStr: string, tasks: seq<Task>)
    ensures var cells := DaysCells(y, m, from, count, isCurrentMonth, todayStr, tasks);
            forall j | 0 <= j < count :: cells[j] == CellOf(MakeDate(y, m, from + j), from + j, isCurrentMonth, todayStr, tasks)
  {
    var cells := DaysCells(y, m, from, count, isCurrentMonth, todayStr, tasks);
    forall j | 0 <= j < count
      ensures cells[j] == CellOf(MakeDate(y, m, from + j), from + j, isCurrentMonth, todayStr, tasks)
    {
    }
  }



  /** The three runs of the grid, by the index of a cell. */
  lemma Region(year: int, month: int, k: int)
    ensures var offset := StartOffset(year, month);
            var days := GridMonthDays(year, month);
            && (k < offset ==> !InMonth(year, month, k) && GridDay(year, month, k) == PrevMonthDays(year, month) - offset + 1 + k)
            && (offset <= k < offset + days ==> InMonth(year, month, k) && GridDay(year, month, k) == k - offset + 1)
            && (offset + days <= k ==> !InMonth(year, month, k) && GridDay(year, month, k) == k - offset - days + 1)
  {
  }

  /** Leading cell j, the day prevDays - offset + 1 + j of the month before, is grid cell j. */
  lemma LeadingCell(year: int, month: int, tasks: seq<Task>, todayStr: string, offset: int, prevDays: int, j: int)
    requires offset == StartOffset(year, month) && prevDays == PrevMonthDays(year, month)
    requires 0 <= j < offset
    ensures j < GridLength(year, month)
    ensures CellOf(MakeDate(year, month - 1, prevDays - offset + 1 + j), prevDays - offset + 1 + j, false, todayStr, tasks)
            == GridCell(year, month, tasks, todayStr, j)
  {
    Region(year, month, j);
    LeadingMade(year, month, j);
  }

  /** Own cell j, the day 1 + j of the month, is grid cell StartOffset + j. */
  lemma MonthCell(year: int, month: int, tasks: seq<Task>, todayStr: string, j: int)
    requires 0 <= j < GridMonthDays(year, month)
    ensures StartOffset(year, month) + j < GridLength(year, month)
    ensures CellOf(MakeDate(year, month, 1 + j), 1 + j, true, todayStr, tasks)
            == GridCell(year, month, tasks, todayStr, StartOffset(year, month) + j)
  {
    Region(year, month, StartOffset(year, month) + j);
    MonthMade(year, month, StartOffset(year, month) + j);
  }

  /** Trailing cell j, the day 1 + j of the month after, is grid cell n + j, n the cells before it. */
  lemma TrailingCell(year: int, month: int, tasks: seq<Task>, todayStr: string, n: int, j: int)
    requires n == StartOffset(year, month) + GridMonthDays(year, month)
    requires 0 <= j < TrailingCount(n)
    ensures n + j < GridLength(year, month)
    ensures CellOf(MakeDate(year, month + 1, 1 + j), 1 + j, false, todayStr, tasks) == GridCell(year, month, tasks, todayStr, n + j)
  {
    Region(year, month, n + j);
    TrailingMade(year, month, n + j);
  }

  /** The first loop's run is the first StartOffset cells of the grid. */
  lemma LeadingRun(year: int, month: int, tasks: seq<Task>, todayStr: string, offset: int, prevDays: int, lead: seq<Cell>)
    requires offset == StartOffset(year, month) && prevDays == PrevMonthDays(year, month)
    requires |lead| == offset
    requires forall j | 0 <= j < |lead| ::
               lead[j] == CellOf(MakeDate(year, month - 1, prevDays - offset + 1 + j), prevDays - offset + 1 + j, false, todayStr, tasks)
    ensures forall j | 0 <= j < |lead| :: lead[j] == Grid(year, month, tasks, todayStr)[j]
  {
    forall j | 0 <= j < |lead|
      ensures lead[j] == Grid(year, month, tasks, todayStr)[j]
    {
      LeadingCell(year, month, tasks, todayStr, offset, prevDays, j);
    }
  }

  /** The second loop's run is the month's own cells. */
  lemma MonthRun(year: int, month: int, tasks: seq<Task>, todayStr: string, offset: int, days: int, own: seq<Cell>)
    requires offset == StartOffset(year, month) && days == GridMonthDays(year, month)
    requires |own| == days
    requires forall j | 0 <= j < |own| :: own[j] == CellOf(MakeDate(year, month, 1 + j), 1 + j, true, todayStr, tasks)
    ensures forall j | 0 <= j < |own| :: own[j] == Grid(year, month, tasks, todayStr)[offset + j]
  {
    forall j | 0 <= j < |own|
      ensures own[j] == Grid(year, month, tasks, todayStr)[offset + j]
    {
      MonthCell(year, month, tasks, todayStr, j);
    }
  }

  /** The third loop's run is the cells after the month's own. */
  lemma TrailingRun(year: int, month: int, tasks: seq<Task>, todayStr: string, n: int, trail: seq<Cell>)
    requires n == StartOffset(year, month) + GridMonthDays(year, month)
    requires |trail| == TrailingCount(n)
    requires forall j | 0 <= j < |trail| :: trail[j] == CellOf(MakeDate(year, month + 1, 1 + j), 1 + j, false, todayStr, tasks)
    ensures n + |trail| == GridLength(year, month)
    ensures forall j | 0 <= j < |trail| :: trail[j] == Grid(year, month, tasks, todayStr)[n + j]
  {
    assert n + |trail| == GridLength(year, month);
    forall j | 0 <= j < |trail|
      ensures trail[j] == Grid(year, month, tasks, todayStr)[n + j]
    {
      TrailingCell(year, month, tasks, todayStr, n, j);
    }
  }

  /** The second loop's cells, as DaysCells builds them, are the month's own cells of the grid. */
  lemma MonthRunCells(year: int, month: int, tasks: seq<Task>, todayStr: string, offset: int, days: int, own: seq<Cell>)
    requires offset == StartOffset(year, month) && days == GridMonthDays(year, month)
    requires own == DaysCells(year, month, 1, days, true, todayStr, tasks)
    ensures |own| == days
    ensures forall j | 0 <= j < |own| :: own[j] == Grid(year, month, tasks, todayStr)[offset + j]
  {
    DaysCellsAll(year, month, 1, days, true, todayStr, tasks);
    MonthRun(year, month, tasks, todayStr, offset, days, own);
  }

  /** The third loop's cells, as DaysCells builds them, are the grid's trailing cells. */
  lemma TrailingRunCells(year: int, month: int, tasks: seq<Task>, todayStr: string, n: int, trail: seq<Cell>)
    requires n == StartOffset(year, month) + GridMonthDays(year, month)
    requires trail == DaysCells(year, month + 1, 1, TrailingCount(n), false, todayStr, tasks)
    ensures n + |trail| == GridLength(year, month)
    ensures forall j | 0 <= j < |trail| :: trail[j] == Grid(year, month, tasks, todayStr)[n + j]
  {
    DaysCellsAll(year, month + 1, 1, TrailingCount(n), false, todayStr, tasks);
    TrailingRun(year, month, tasks, todayStr, n, trail);
  }

  /** Three runs that match a sequence at their offsets make up the whole sequence. */
  lemma RunsMakeGrid(offset: int, n: int, lead: seq<Cell>, own: seq<Cell>, trail: seq<Cell>, grid: seq<Cell>)
    requires |lead| == offset && n == offset + |own| && |grid| == n + |trail|
    requires forall j | 0 <= j < |lead| :: lead[j] == grid[j]
    requires forall j | 0 <= j < |own| :: own[j] == grid[offset + j]
    requires forall j | 0 <= j < |trail| :: trail[j] == grid[n + j]
    ensures lead + own + trail == grid
  {
    var cells := lead + own + trail;
    forall k | 0 <= k < |cells|
      ensures cells[k] == grid[k]
    {
      if k < offset {
        assert cells[k] == lead[k];
      } else if k < n {
        assert cells[k] == own[k - offset] && offset + (k - offset) == k;
      } else {
        assert cells[k] == trail[k - n] && n + (k - n) == k;
      }
    }
  }

  /** A run one day longer is the run with that day's cell after it. */
  lemma DaysCellsSnoc(y: int, m: int, from: int, count: nat, isCurrentMonth: bool, todayStr: string, tasks: seq<Task>)
    ensures DaysCells(y, m, from, count + 1, isCurrentMonth, todayStr, tasks)
            == DaysCells(y, m, from, count, isCurrentMonth, todayStr, tasks)
               + [CellOf(MakeDate(y, m, from + count), from + count, isCurrentMonth, todayStr, tasks)]
  {
    var longer := DaysCells(y, m, from, count + 1, isCurrentMonth, todayStr, tasks);
    var run := DaysCells(y, m, from, count, isCurrentMonth, todayStr, tasks);
    assert longer[..count] == run;
  }

  /** Pushing the cell of the day `from + count`, its tasks read from the task map, extends a run by one. */
  lemma PushCell(y: int, m: int, from: int, count: nat, isCurrentMonth: bool, todayStr: string, tasks: seq<Task>,
                 taskMap: map<string, seq<Task>>, day: int, cells: seq<Cell>)
    requires forall key :: MapGet(taskMap, key) == TasksOn(tasks, key)
    requires cells == DaysCells(y, m, from, count, isCurrentMonth, todayStr, tasks)
    requires day == from + count
    ensures var date := MakeDate(y, m, day);
            var dateStr := FormatDate(date);
            cells + [Cell(date, dateStr, day, isCurrentMonth, dateStr == todayStr, MapGet(taskMap, dateStr))]
            == DaysCells(y, m, from, count + 1, isCurrentMonth, todayStr, tasks)
  {
    DaysCellsSnoc(y, m, from, count, isCurrentMonth, todayStr, tasks);
    var date := MakeDate(y, m, day);
    var dateStr := FormatDate(date);
    assert MapGet(taskMap, dateStr) == TasksOn(tasks, dateStr);
  }

  /** PushCell after the cells of earlier runs. */
  lemma PushCellAfter(y: int, m: int, from: int, count: nat, isCurrentMonth: bool, todayStr: string, tasks: seq<Task>,
                      taskMap: map<string, seq<Task>>, day: int, before: seq<Cell>, cells: seq<Cell>)
    requires forall key :: MapGet(taskMap, key) == TasksOn(tasks, key)
    requires cells == before + DaysCells(y, m, from, count, isCurrentMonth, todayStr, tasks)
    requires day == from + count
    ensures var date := MakeDate(y, m, day);
            var dateStr := FormatDate(date);
            cells + [Cell(date, dateStr, day, isCurrentMonth, dateStr == todayStr, MapGet(taskMap, dateStr))]
            == before + DaysCells(y, m, from, count + 1, isCurrentMonth, todayStr, tasks)
  {
    var run := DaysCells(y, m, from, count, isCurrentMonth, todayStr, tasks);
    PushCell(y, m, from, count, isCurrentMonth, todayStr, tasks, taskMap, day, run);
    var date := MakeDate(y, m, day);
    var dateStr := FormatDate(date);
    var cell := Cell(date, dateStr, day, isCurrentMonth, dateStr == todayStr, MapGet(taskMap, dateStr));
    assert cells + [cell] == before + (run + [cell]);
  }

  /** The first loop: the last startOffset days of the month before, oldest first. */
  method LeadingCells(year: int, month: int, startOffset: int, daysInPrevMonth: int, todayStr: string,
                      tasks: seq<Task>, taskMap: map<string, seq<Task>>) returns (cells: seq<Cell>)
    requires 0 <= startOffset
    requires forall key :: MapGet(taskMap, key) == TasksOn(tasks, key)
    ensures |cells| == startOffset
    ensures forall j | 0 <= j < |cells| ::
              cells[j] == CellOf(MakeDate(year, month - 1, daysInPrevMonth - startOffset + 1 + j),
                                 daysInPrevMonth - startOffset + 1 + j, false, todayStr, tasks)
  {
    ghost var from := daysInPrevMonth - startOffset + 1;
    cells := [];
    var i := startOffset - 1;
    ghost var pushed: nat := 0;
    while i >= 0
      invariant -1 <= i < startOffset && i == startOffset - 1 - pushed
      invariant cells == DaysCells(year, month - 1, from, pushed, false, todayStr, tasks)
    {
      var day := daysInPrevMonth - i;
      var date := MakeDate(year, month - 1, day);
      var dateStr := FormatDate(date);
      PushCell(year, month - 1, from, pushed, false, todayStr, tasks, taskMap, day, cells);
      cells := cells + [Cell(date, dateStr, day, false, dateStr == todayStr, MapGet(taskMap, dateStr))];
      i := i - 1;
      pushed := pushed + 1;
    }
    assert pushed == startOffset;
    DaysCellsAll(year, month - 1, from, startOffset, false, todayStr, tasks);
  }

  /**
   * The second and the third loop: the days 1 to count of month m (as the
   * constructor reads it), pushed after the cells so far.
   */
  method PushDays(year: int, m: int, count: int, isCurrentMonth: bool, todayStr: string, tasks: seq<Task>,
                  taskMap: map<string, seq<Task>>, before: seq<Cell>) returns (cells: seq<Cell>)
    requires 0 <= count
    requires forall key :: MapGet(taskMap, key) == TasksOn(tasks, key)
    ensures cells == before + DaysCells(year, m, 1, count, isCurrentMonth, todayStr, tasks)
  {
    cells := before;
    var day := 1;
    ghost var pushed: nat := 0;
    assert cells == before + DaysCells(year, m, 1, 0, isCurrentMonth, todayStr, tasks) by {
      assert before + [] == before;
    }
    while day <= count
      invariant 1 <= day <= count + 1 && day == 1 + pushed
      invariant cells == before + DaysCells(year, m, 1, pushed, isCurrentMonth, todayStr, tasks)
    {
      var date := MakeDate(year, m, day);
      var dateStr := FormatDate(date);
      PushCellAfter(year, m, 1, pushed, isCurrentMonth, todayStr, tasks, taskMap, day, before, cells);
      cells := cells + [Cell(date, dateStr, day, isCurrentMonth, dateStr == todayStr, MapGet(taskMap, dateStr))];
      day := day + 1;
      pushed := pushed + 1;
    }
    assert pushed == count;
  }

  /** The last row: 7 - length % 7 days of the month after, unless that is a whole row. */
  method TrailingCells(year: int, month: int, todayStr: string, tasks: seq<Task>,
                       taskMap: map<string, seq<Task>>, before: seq<Cell>) returns (cells: seq<Cell>)
    requires forall key :: MapGet(taskMap, key) == TasksOn(tasks, key)
    ensures cells == before + DaysCells(year, month + 1, 1, TrailingCount(|before|), false, todayStr, tasks)
  {
    var remaining := 7 - |before| % 7;
    if remaining < 7 {
      cells := PushDays(year, month + 1, remaining, false, todayStr, tasks, taskMap, before);
    } else {
      cells := before;
      assert before + [] == before;
    }
  }

  /** getMonthGrid: the task map, then three loops pushing the cells; the clock's today is a parameter. */
  method GetMonthGrid(year: int, month: int, tasks: seq<Task>, today: ValidDate) returns (cells: seq<Cell>)
    ensures |cells| == GridLength(year, month)
    ensures forall k | 0 <= k < |cells| :: cells[k] == GridCell(year, month, tasks, FormatDate(today), k)
  {
    var todayStr := FormatDate(today);
    var firstDay := MakeDate(year, month, 1);
    var startOffset := Weekday(firstDay);
    var daysInMonth := MakeDate(year, month + 1, 0).day;
    var daysInPrevMonth := MakeDate(year, month, 0).day;
    FirstMade(year, month);
    var taskMap := BuildTaskMap(tasks);

    assert startOffset == StartOffset(year, month);
    assert daysInMonth == GridMonthDays(year, month) && daysInPrevMonth == PrevMonthDays(year, month);

    var lead := LeadingCells(year, month, startOffset, daysInPrevMonth, todayStr, tasks, taskMap);
    LeadingRun(year, month, tasks, todayStr, startOffset, daysInPrevMonth, lead);
    var own := PushDays(year, month, daysInMonth, true, todayStr, tasks, taskMap, lead);
    ghost var ownRun := DaysCells(year, month, 1, daysInMonth, true, todayStr, tasks);
    MonthRunCells(year, month, tasks, todayStr, startOffset, daysInMonth, ownRun);
    cells := TrailingCells(year, month, todayStr, tasks, taskMap, own);
    ghost var n := |own|;
    ghost var trailRun := DaysCells(year, month + 1, 1, TrailingCount(n), false, todayStr, tasks);
    assert n == startOffset + daysInMonth;
    TrailingRunCells(year, month, tasks, todayStr, n, trailRun);
    ghost var grid := Grid(year, month, tasks, todayStr);
    RunsMakeGrid(startOffset, n, lead, ownRun, trailRun, grid);
  }

  /**
   * The grid of the month the component shows; a month string that reads
   * as NaN gives Invalid Dates, whose loops push nothing.
   */
  method MonthGrid(currentMonth: string, tasks: seq<Task>, today: ValidDate) returns (cells: seq<Cell>)
    ensures ParseYearMonth(currentMonth).None? ==> cells == []
    ensures ParseYearMonth(currentMonth).Some? ==>
              var ym := ParseYearMonth(currentMonth).value;
              |cells| == GridLength(ym.0, ym.1)
              && forall k | 0 <= k < |cells| :: cells[k] == GridCell(ym.0, ym.1, tasks, FormatDate(today), k)
  {
    var parsed := ParseYearMonth(currentMonth);
    if parsed.None? {
      return [];
    }
    cells := GetMonthGrid(parsed.value.0, parsed.value.1, tasks, today);
  }

  /** The grid is whole weeks: four, five or six rows, the last filled by fewer than 7 days of the next month. */
  lemma GridShape(year: int, month: int)
    ensures GridLength(year, month) % 7 == 0
    ensures 28 <= GridLength(year, month) <= 42
    ensures GridLength(year, month) - StartOffset(year, month) - GridMonthDays(year, month) < 7
  {
  }

  /**
   * Cell k is the date k - StartOffset days from the 1st of the shown
   * month, so it stands in the column of its weekday; it shows its own day
   * of the month, and it belongs to the month exactly when its date lies in
   * the shown month.
   */
  lemma GridCellDate(year: int, month: int, tasks: seq<Task>, todayStr: string, k: int)
    requires 0 <= k < GridLength(year, month)
    ensures var c := GridCell(year, month, tasks, todayStr, k);
            && 0 <= c.date.month < 12
            && DayNumber(c.date) == DayNumber(MakeDate(year, month, 1)) - StartOffset(year, month) + k
            && Weekday(c.date) == k % 7
            && c.day == c.date.day
            && (c.isCurrentMonth <==> (c.date.year, c.date.month) == Shown(year, month))
  {
    FirstMade(year, month);
    GridDateFacts(year, month, k);
  }

  /** The date of cell k, counted from the 1st. */
  lemma GridDateFacts(year: int, month: int, k: int)
    requires 0 <= k < GridLength(year, month)
    ensures var d := GridDate(year, month, k);
            && DayNumber(d) == DayNumber(First(year, month)) - StartOffset(year, month) + k
            && Weekday(d) == k % 7
            && (InMonth(year, month, k) <==> (d.year, d.month) == Shown(year, month))
  {
    var offset := StartOffset(year, month);
    if k < offset {
      LeadingDayNumber(year, month, k);
    } else if k >= offset + GridMonthDays(year, month) {
      TrailingDayNumber(year, month, k);
    }
    WeekdayShift(DayNumber(First(year, month)), offset, k);
  }

  /** A leading cell lies offset - k days before the 1st, in the month before. */
  lemma LeadingDayNumber(year: int, month: int, k: int)
    requires 0 <= k < StartOffset(year, month)
    ensures var d := GridDate(year, month, k);
            && DayNumber(d) == DayNumber(First(year, month)) - StartOffset(year, month) + k
            && (d.year, d.month) != Shown(year, month)
  {
    var s := Shown(year, month);
    var p := PrevMonthOf(s.0, s.1);
    var d := GridDate(year, month, k);
    assert d == Date(p.0, p.1, PrevMonthDays(year, month) - StartOffset(year, month) + 1 + k);
    assert NextMonthOf(p.0, p.1) == s;
    MonthLength(p.0, p.1);
  }

  /** A trailing cell lies k - offset days after the 1st, in the month after. */
  lemma TrailingDayNumber(year: int, month: int, k: int)
    requires StartOffset(year, month) + GridMonthDays(year, month) <= k
    ensures var d := GridDate(year, month, k);
            && DayNumber(d) == DayNumber(First(year, month)) - StartOffset(year, month) + k
            && (d.year, d.month) != Shown(year, month)
  {
    var s := Shown(year, month);
    var n := NextMonthOf(s.0, s.1);
    var d := GridDate(year, month, k);
    var t := k - StartOffset(year, month) - GridMonthDays(year, month) + 1;
    assert d == Date(n.0, n.1, t);
    MonthLength(s.0, s.1);
    assert DayNumber(d) == DayNumber(Date(n.0, n.1, 1)) + t - 1;
  }

  /** Counting k - offset days on from a day of weekday offset lands on weekday k % 7. */
  lemma WeekdayShift(d: int, offset: int, k: int)
    requires offset == (d + 4) % 7
    ensures (d - offset + k + 4) % 7 == k % 7
  {
    var q := (d + 4) / 7;
    assert d - offset + k + 4 == 7 * q + k;
  }

  /** A cell is today's exactly when its date is today (years of four digits). */
  lemma GridCellToday(year: int, month: int, tasks: seq<Task>, today: ValidDate, k: int)
    requires 0 <= k < GridLength(year, month)
    requires 1000 <= today.year <= 9999
    requires 1000 <= GridCell(year, month, tasks, FormatDate(today), k).date.year <= 9999
    ensures var c := GridCell(year, month, tasks, FormatDate(today), k);
            c.isToday <==> c.date == today
  {
    var c := GridCell(year, month, tasks, FormatDate(today), k);
    GridDateValid(year, month, k);
    var d: ValidDate := c.date;
    assert c.dateStr == FormatDate(d);
    FormatDateRoundTrip(d);
    FormatDateRoundTrip(today);
  }

  // ---------------------------------------------------------------------
  // The dots of a cell
  // ---------------------------------------------------------------------

  const MAX_DOTS: nat := 3

  /** The unfinished tasks of a cell. */
  function Incomplete(tasks: seq<Task>): seq<Task>
  {
    Filter(tasks, (t: Task) => !t.done)
  }

  /** incompleteTasks.slice(0, maxDots): the tasks that get a dot. */
  function Dots(cell: Cell): (dots: seq<Task>)
    ensures |dots| <= MAX_DOTS && |dots| <= |Incomplete(cell.tasks)|
    ensures |dots| == MAX_DOTS || |dots| == |Incomplete(cell.tasks)|
    ensures dots == Incomplete(cell.tasks)[..|dots|]
    ensures forall k | 0 <= k < |dots| :: !dots[k].done
  {
    var open := Incomplete(cell.tasks);
    open[..if |open| < MAX_DOTS then |open| else MAX_DOTS]
  }

  /** The '+' marker: overflowCount > 0. */
  predicate ShowsOverflow(cell: Cell)
  {
    |Incomplete(cell.tasks)| - MAX_DOTS > 0
  }

  /**
   * A cell shows dots exactly when it has an unfinished task, never more
   * than three, and the marker exactly when a fourth one is hidden.
   */
  lemma DotsAndOverflow(cell: Cell)
    ensures |Dots(cell)| > 0 <==> exists k | 0 <= k < |cell.tasks| :: !cell.tasks[k].done
    ensures ShowsOverflow(cell) <==> |Incomplete(cell.tasks)| > |Dots(cell)|
    ensures ShowsOverflow(cell) ==> |Dots(cell)| == MAX_DOTS
  {
    var open := Incomplete(cell.tasks);
    if exists k | 0 <= k < |cell.tasks| :: !cell.tasks[k].done {
      var k :| 0 <= k < |cell.tasks| && !cell.tasks[k].done;
      assert cell.tasks[k] in open;
    }
    if |open| > 0 {
      assert open[0] in cell.tasks;
      var k :| 0 <= k < |cell.tasks| && cell.tasks[k] == open[0];
      assert !cell.tasks[k].done;
    }
  }

  /** PRIORITY_COLORS[t.priority]: undefined for a priority the table does not list. */
  function DotColor(priority: string): (color: Option<string>)
    ensures color.Some? <==> priority in {"high", "medium", "low", "none"}
  {
    if priority == "high" then Some("#E74C3C")
    else if priority == "medium" then Some("#F39C12")
    else if priority == "low" then Some("#3498DB")
    else if priority == "none" then Some("#9999AA")
    else None
  }

  // ---------------------------------------------------------------------
  // The selected day
  // ---------------------------------------------------------------------

  /** The comparator of the selected day's list returns a value <= 0: unfinished first, then the newer. */
  predicate SelectedBefore(a: Task, b: Task)
  {
    if a.done != b.done then !a.done else b.createdAt - a.createdAt <= 0
  }

  lemma SelectedBeforeIsTotalPreorder()
    ensures TotalPreorder(SelectedBefore)
  {
  }

  /** selectedTasks: nothing without a selection, else the tasks of that date, sorted. */
  function SelectedTasks(selectedDate: Option<string>, tasks: seq<Task>): (list: seq<Task>)
    ensures !Truthy(selectedDate) ==> list == []
    ensures forall k | 0 <= k < |list| :: list[k].date == selectedDate
    ensures SortedBy(list, SelectedBefore)
  {
    if !Truthy(selectedDate) then []
    else
      SelectedBeforeIsTotalPreorder();
      SortMembers(Filter(tasks, (t: Task) => t.date == selectedDate), SelectedBefore);
      Sort(Filter(tasks, (t: Task) => t.date == selectedDate), SelectedBefore)
  }

  /** The list holds each task of the selected date as often as the input does, and nothing else. */
  lemma SelectedTasksExactly(selectedDate: Option<string>, tasks: seq<Task>)
    ensures forall t :: multiset(SelectedTasks(selectedDate, tasks))[t] ==
              if Truthy(selectedDate) && t.date == selectedDate then multiset(tasks)[t] else 0
  {
    if Truthy(selectedDate) {
      forall t
        ensures multiset(SelectedTasks(selectedDate, tasks))[t] ==
                  if t.date == selectedDate then multiset(tasks)[t] else 0
      {
        FilterMultiset(tasks, (u: Task) => u.date == selectedDate, t);
      }
    }
  }

  /** Unfinished tasks come before finished ones, and among equals the newer first. */
  lemma SelectedOrder(selectedDate: Option<string>, tasks: seq<Task>)
    ensures var r := SelectedTasks(selectedDate, tasks);
            forall i, j | 0 <= i < j < |r| ::
              (!r[j].done ==> !r[i].done)
              && (r[i].done == r[j].done ==> r[i].createdAt >= r[j].createdAt)
  {
    var r := SelectedTasks(selectedDate, tasks);
    forall i, j | 0 <= i < j < |r|
      ensures SelectedBefore(r[i], r[j])
    {
    }
  }

  // ---------------------------------------------------------------------
  // The component's selection
  // ---------------------------------------------------------------------

  class Calendar {
    var selectedDate: Option<string>

    constructor()
      ensures selectedDate == None
    {
      selectedDate := None;
    }

    /** handleDayClick: the selected day is cleared, any other day is selected. */
    method DayClick(cell: Cell)
      modifies this
      ensures old(selectedDate) == Some(cell.dateStr) ==> selectedDate == None
      ensures old(selectedDate) != Some(cell.dateStr) ==> selectedDate == Some(cell.dateStr)
    {
      selectedDate := if selectedDate == Some(cell.dateStr) then None else Some(cell.dateStr);
    }

    /** goToToday: the month to show is this month, and today is selected. */
    method GoToToday(now: ValidDate) returns (month: string)
      modifies this
      ensures month == ToYearMonth(now.year, now.month)
      ensures selectedDate == Some(FormatDate(now))
    {
      month := ToYearMonth(now.year, now.month);
      selectedDate := Some(FormatDate(now));
    }
  }

  /** Clicking a day twice, from no selection or from that day, leaves the selection as it was. */
  method ClickTwice(calendar: Calendar, cell: Cell)
    requires calendar.selectedDate == None || calendar.selectedDate == Some(cell.dateStr)
    modifies calendar
    ensures calendar.selectedDate == old(calendar.selectedDate)
  {
    calendar.DayClick(cell);
    calendar.DayClick(cell);
  }
}
