/**
 * The /api/todos route: GET turns the search parameters into a query on
 * the todos table, POST checks the body and builds the row to insert. The
 * table is a sequence of rows: a query is described by the filters it
 * chains, the meaning of those filters is a predicate on a row, and the
 * answer is the selected rows ordered newest first. Dates are compared as
 * "YYYY-MM-DD" strings, whose order is the order of the days.
 */
module TodosRoute {
  import opened Js
  import opened Civil
  import opened Tasks
  import opened Utils
  import Sorting

  // ---------------------------------------------------------------------
  // todayStr
  // ---------------------------------------------------------------------

  /** todayStr: the local date as "YYYY-MM-DD", month and day padded to two digits. */
  function TodayStr(d: ValidDate): (s: string)
    ensures 1000 <= d.year <= 9999 ==> |s| == 10 && ParseIsoDate(s) == Some(d)
  {
    var s := IntToDecimal(d.year) + "-" + PadStart2(NatToDecimal(d.month + 1)) + "-" + PadStart2(NatToDecimal(d.day));
    assert s == FormatDate(d);
    if 1000 <= d.year <= 9999 then FormatDateRoundTrip(d); s else s
  }

  // ---------------------------------------------------------------------
  // GET
  // ---------------------------------------------------------------------

  /** The filters the route chains onto select('*'). */
  datatype Filter =
    | DoneIs(done: bool)             // .eq('done', b)
    | DateIs(day: string)            // .eq('date', s)
    | DateOnOrBefore(day: string)    // .or(`date.eq.${s},date.lt.${s}`)
    | DateNotNull                    // .not('date', 'is', null)
    | DateIsNull                     // .is('date', null)
    | DateFrom(day: string)          // .gte('date', s)
    | DateUntil(day: string)         // .lte('date', s)

  /** Lexicographic order of strings. */
  predicate StrLe(a: string, b: string)
  {
    a == [] || (b != [] && (a[0] < b[0] || (a[0] == b[0] && StrLe(a[1..], b[1..]))))
  }

  /** Whether a row passes a filter; a comparison with a null date fails. */
  predicate Passes(f: Filter, t: Task)
  {
    match f
    case DoneIs(b) => t.done == b
    case DateIs(s) => t.date == Some(s)
    case DateOnOrBefore(s) => t.date.Some? && StrLe(t.date.value, s)
    case DateNotNull => t.date.Some?
    case DateIsNull => t.date.None?
    case DateFrom(s) => t.date.Some? && StrLe(s, t.date.value)
    case DateUntil(s) => t.date.Some? && StrLe(t.date.value, s)
  }

  /** The rows a chain of filters selects: those passing all of them. */
  predicate Selects(query: seq<Filter>, t: Task)
  {
    forall k | 0 <= k < |query| :: Passes(query[k], t)
  }

  /** The search parameters, by name. */
  type Params = map<string, string>

  /** searchParams.get(name). */
  function Get(params: Params, name: string): Option<string>
  {
    if name in params then Some(params[name]) else None
  }

  /**
   * new Date(y, m, 0).getDate(): the last day of month m counted from 1,
   * or NaN (None) when either number is NaN.
   */
  function LastDay(y: Option<int>, m: Option<int>): (d: Option<nat>)
  {
    if y.None? || m.None? then None else Some(MakeDate(y.value, m.value, 0).day)
  }

  /** `${month}-${String(lastDay).padStart(2, '0')}`, with NaN printed as "NaN". */
  function MonthEnd(month: string): (end: string)
    ensures |end| > |month| + 1 && end[..|month| + 1] == month + "-"
  {
    var parts := Split(month, '-');
    var y := NumberOf(parts[0]);
    var m := if |parts| >= 2 then NumberOf(parts[1]) else None;
    var last := LastDay(y, m);
    month + "-" + (if last.Some? then PadStart2(NatToDecimal(last.value)) else "NaN")
  }

  /**
   * The GET dispatch: filter=today (with the client's date if it sent a
   * non-empty one), then filter=inbox, then a date, then a month, and
   * otherwise every row.
   */
  function GetQuery(params: Params, now: ValidDate): (query: seq<Filter>)
    ensures DoneIs(false) in query <==>
              Get(params, "filter") == Some("inbox")
              || (Get(params, "filter") == Some("today") && Get(params, "include_overdue") == Some("true"))
    ensures query == [] <==>
              Get(params, "filter") != Some("today") && Get(params, "filter") != Some("inbox")
              && !Truthy(Get(params, "date")) && !Truthy(Get(params, "month"))
  {
    var filter := Get(params, "filter");
    var date := Get(params, "date");
    var month := Get(params, "month");
    var includeOverdue := Get(params, "include_overdue") == Some("true");
    if filter == Some("today") then
      var today := TodayParam(params, now);
      if includeOverdue then [DoneIs(false), DateOnOrBefore(today), DateNotNull]
      else [DateIs(today)]
    else if filter == Some("inbox") then [DateIsNull, DoneIs(false)]
    else if Truthy(date) then [DateIs(date.value)]
    else if Truthy(month) then [DateFrom(month.value + "-01"), DateUntil(MonthEnd(month.value))]
    else []
  }

  /** The date "today" means for the today filter. */
  function TodayParam(params: Params, now: ValidDate): string
  {
    var clientToday := Get(params, "client_today");
    if Truthy(clientToday) then clientToday.value else TodayStr(now)
  }

  /**
   * filter=today with include_overdue selects the unfinished rows dated
   * today or earlier; without it, the rows dated today, done or not.
   */
  lemma TodaySelects(params: Params, now: ValidDate, t: Task)
    requires Get(params, "filter") == Some("today")
    ensures var today := TodayParam(params, now);
            Get(params, "include_overdue") == Some("true") ==>
              (Selects(GetQuery(params, now), t) <==> !t.done && t.date.Some? && StrLe(t.date.value, today))
    ensures var today := TodayParam(params, now);
            Get(params, "include_overdue") != Some("true") ==>
              (Selects(GetQuery(params, now), t) <==> t.date == Some(today))
  {
    var q := GetQuery(params, now);
    if Get(params, "include_overdue") == Some("true") {
      assert Passes(q[0], t) && Passes(q[1], t) && Passes(q[2], t) ==> Selects(q, t);
    } else {
      assert Passes(q[0], t) ==> Selects(q, t);
    }
  }

  /** filter=inbox selects exactly the unfinished rows without a date, whatever else is sent. */
  lemma InboxSelects(params: Params, now: ValidDate, t: Task)
    requires Get(params, "filter") == Some("inbox")
    ensures Selects(GetQuery(params, now), t) <==> t.date.None? && !t.done
  {
    var q := GetQuery(params, now);
    assert Passes(q[0], t) && Passes(q[1], t) ==> Selects(q, t);
  }

  /** Without a filter, date or month every row is selected. */
  lemma NoParamsSelectAll(params: Params, now: ValidDate, t: Task)
    requires Get(params, "filter") != Some("today") && Get(params, "filter") != Some("inbox")
    requires !Truthy(Get(params, "date")) && !Truthy(Get(params, "month"))
    ensures Selects(GetQuery(params, now), t)
  {
  }

  /** A date parameter, without the today or inbox filter, wins over a month. */
  lemma DateBeatsMonth(params: Params, now: ValidDate, t: Task)
    requires Get(params, "filter") != Some("today") && Get(params, "filter") != Some("inbox")
    requires Truthy(Get(params, "date"))
    ensures Selects(GetQuery(params, now), t) <==> t.date == Get(params, "date")
  {
    var q := GetQuery(params, now);
    assert Passes(q[0], t) ==> Selects(q, t);
  }

  /** .order('created_at', { ascending: false }): a newer row comes first. */
  predicate NewerFirst(a: Task, b: Task)
  {
    a.createdAt >= b.createdAt
  }

  lemma NewerFirstIsTotalPreorder()
    ensures Sorting.TotalPreorder(NewerFirst)
  {
  }

  /** The rows of the table that the query selects, in table order. */
  function Selected(query: seq<Filter>, table: seq<Task>): seq<Task>
  {
    Sorting.Filter(table, t => Selects(query, t))
  }

  /**
   * The rows GET answers with for a table: those the query selects, newest
   * first. Rows created at the same instant keep their table order.
   */
  function Answer(params: Params, now: ValidDate, table: seq<Task>): (rows: seq<Task>)
    ensures |rows| <= |table|
    ensures forall i, j | 0 <= i < j < |rows| :: rows[i].createdAt >= rows[j].createdAt
  {
    NewerFirstIsTotalPreorder();
    Sorting.Sort(Selected(GetQuery(params, now), table), NewerFirst)
  }

  /**
   * The answer holds every selected row as many times as the table does,
   * and nothing else.
   */
  lemma AnswerRows(params: Params, now: ValidDate, table: seq<Task>, t: Task)
    ensures multiset(Answer(params, now, table))[t]
         == if Selects(GetQuery(params, now), t) then multiset(table)[t] else 0
    ensures t in Answer(params, now, table) <==> t in table && Selects(GetQuery(params, now), t)
  {
    var q := GetQuery(params, now);
    NewerFirstIsTotalPreorder();
    Sorting.FilterMultiset(table, t => Selects(q, t), t);
    assert t in Answer(params, now, table) <==> multiset(Answer(params, now, table))[t] > 0;
    assert t in table <==> multiset(table)[t] > 0;
  }

  /** A month parameter, alone, selects the rows dated from its first day to its end. */
  lemma MonthSelects(params: Params, now: ValidDate, t: Task)
    requires Get(params, "filter") != Some("today") && Get(params, "filter") != Some("inbox")
    requires !Truthy(Get(params, "date")) && Truthy(Get(params, "month"))
    ensures var month := Get(params, "month").value;
            Selects(GetQuery(params, now), t) <==>
              t.date.Some? && StrLe(month + "-01", t.date.value) && StrLe(t.date.value, MonthEnd(month))
  {
    var q := GetQuery(params, now);
    assert Passes(q[0], t) && Passes(q[1], t) ==> Selects(q, t);
  }

  /**
   * For a month "YYYY-MM" the range ends on the month's last day: the
   * day-0 date of the next month.
   */
  lemma MonthEndIsLastDay(month: string, y: string, m: string)
    requires |y| == 4 && AllDigits(y) && |m| == 2 && AllDigits(m)
    requires 1000 <= DecimalValue(y) && 1 <= DecimalValue(m) <= 12
    requires month == y + "-" + m
    ensures MonthEnd(month) == month + "-" + PadStart2(NatToDecimal(DaysInMonth(DecimalValue(y), DecimalValue(m) - 1)))
  {
    assert '-' !in y;
    SplitOnFirst(y, '-', m);
    assert '-' !in m;
    SplitWithout(m, '-');
    assert Split(month, '-') == [y, m];
    var yv := DecimalValue(y);
    var mv := DecimalValue(m);
    assert NumberOf(y) == Some(yv as int) && NumberOf(m) == Some(mv as int);
    LastDayOfMonth(yv, mv);
  }

  /** new Date(y, m, 0).getDate() for a month m counted from 1 is that month's length. */
  lemma LastDayOfMonth(y: int, m: int)
    requires 1000 <= y && 1 <= m <= 12
    ensures LastDay(Some(y), Some(m)) == Some(DaysInMonth(y, m - 1))
  {
    DayZeroIsLastOfPreviousMonth(y, m);
    assert ConstructorYear(y) == y;
  }

  // ---------------------------------------------------------------------
  // POST
  // ---------------------------------------------------------------------

  /** A field of the JSON body: missing or null, a string, or another value with its truthiness. */
  datatype Value = Absent | Str(s: string) | Other(truthy: bool)

  predicate IsTruthy(v: Value)
  {
    match v
    case Absent => false
    case Str(s) => s != ""
    case Other(b) => b
  }

  /** The row inserted: the trimmed text, the date or null, the priority or 'none'. */
  datatype Row = Row(text: string, date: Value, priority: Value)

  /**
   * The response: 400 with its error message for a missing or blank text,
   * 500 when text.trim is not a function, or the inserted row.
   */
  datatype PostResult = BadRequest(error: string) | ServerError | Insert(row: Row)

  const TEXT_REQUIRED: string := "テキストは必須です"

  /** POST: `!text || !text.trim()` rejects, then the row is built with its defaults. */
  function Post(text: Value, date: Value, priority: Value): (r: PostResult)
    ensures r.BadRequest? <==> !IsTruthy(text) || (text.Str? && AllSpace(text.s))
    ensures r.BadRequest? ==> r.error == TEXT_REQUIRED
    ensures r == ServerError <==> IsTruthy(text) && !text.Str?
    ensures r.Insert? <==> text.Str? && !AllSpace(text.s)
    ensures r.Insert? ==> text.Str? && r.row.text == Trim(text.s) && r.row.text != ""
    ensures r.Insert? ==> (IsTruthy(date) ==> r.row.date == date) && (!IsTruthy(date) ==> r.row.date == Absent)
    ensures r.Insert? ==> (IsTruthy(priority) ==> r.row.priority == priority)
                          && (!IsTruthy(priority) ==> r.row.priority == Str("none"))
  {
    if !IsTruthy(text) then BadRequest(TEXT_REQUIRED)
    else match text
      case Str(s) =>
        TrimEmptyIffAllSpace(s);
        if Trim(s) == "" then BadRequest(TEXT_REQUIRED)
        else Insert(Row(Trim(s), if IsTruthy(date) then date else Absent,
                        if IsTruthy(priority) then priority else Str("none")))
      case _ => ServerError
  }
}
