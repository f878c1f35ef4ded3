# Kinosiori core, modelled in Dafny

Kinosiori is a task list whose background follows the 24 Japanese solar terms
(sekki). This project models its core logic and proves properties about it.
It has one Dafny module per source file, plus a few shared modules.

- **Solar terms** (`Sekki`, `SekkiColor`):
  - the term table and the three-year timeline of start dates;
  - the term in force at a moment, and the transition window towards the next term;
  - the hex and `rgba()` colour blending that produces the interpolated term style.
- **Seasonal effects** (`SeasonalBackground`, `ParticleEngine`, `EnvironmentEngine`):
  - the background's frame step, which rebuilds the particle pool on a term change, clamps the frame time, fades in, moves particles and wraps them around the edges;
  - the particle factory and per-frame lifecycle of the particle engine;
  - the time envelopes of the flare, breathing and frost effects;
  - the persistent fog-blob pool;
  - the recursive fractal frost branches;
  - `colorWithAlpha`.
- **Task list** (`Utils`, `CalendarView`, `TodayView`, `InboxView`, `QuickInput`, `TaskDetail`, `SwipeGesture`, `TodosRoute`):
  - date formatting and the overdue label;
  - the calendar's month grid and month navigation;
  - the orderings of the today and inbox tabs;
  - the quick-add and detail forms as state machines;
  - the swipe recogniser;
  - the `/api/todos` request handling.
- **Shared modules**:
  - `Tasks`: the task record.
  - `Sorting`: `Array.prototype.sort` as a stable insertion sort.
  - `Civil`: JavaScript `Date` in local time, as calendar components.
  - `Js`: the JavaScript built-ins the code relies on, such as `Math.round`, `%`, `parseInt`, `toString`, `padStart` and `trim`.

Where the source updates state in place, the model does too:
- React state and refs are fields of classes, such as `QuickInput.Form`, `TaskDetail.Detail`, `CalendarView.Calendar`, `SwipeGesture.Swipe` and `SeasonalBackground.Background`.
- A particle updated in place is `ParticleEngine.Particle`.
- The module-level fog array is `EnvironmentEngine.FogPool`.
- Push loops are methods with loop invariants, proved against the functions that specify them.
- Each component's callbacks are the results its methods return.

Nondeterminism is passed in as parameters:
- `Math.random()` draws are reals in [0, 1).
- `Math.sin` and `Math.cos` are function parameters.
- The clock is a parameter: a local time, an hour or a timestamp.

Numbers are exact reals or integers.

Where the code's comments and the code differ, the model follows the code:
- The comment of `getSekkiTransition` (lib/sekki.ts:606-612) describes a window of 3 days on each side of the next term's start.
- But the next term is always the entry after the one in force, so its start is still ahead.
- The progress therefore stays below one half unless the timeline has run out (`Sekki.ProgressBelowHalf`).
- The style's branch for progress 1 is reached only in that last case.

## Model

| member | source | states |
|---|---|---|
| Utils.Greeting | lib/utils.ts:7-13 | the morning greeting exactly when the hour is 5 to 10, otherwise the later greeting, each followed by the name |
| Utils.Placeholder | lib/utils.ts:18-27 | each of the three placeholders exactly for its hour range (5-10, 11-16, the rest) |
| Utils.FormatDate | lib/utils.ts:32-37 | a four-digit year gives a 10-character YYYY-MM-DD string with dashes at 4 and 7 |
| Utils.FourDigits | lib/utils.ts:33 | a year in 1000..9999 prints as four digits |
| Utils.TwoDigitsValue | lib/utils.ts:34-35 | padStart(2, "0") of a number below 100 is two digits that read back as that number |
| Utils.FormatDateFields | lib/utils.ts:32-37 | the year, 1-based month and day sit in their fields of the formatted date |
| Utils.FormatDateRoundTrip | lib/utils.ts:32-37 | parsing a formatted date as YYYY-MM-DD gives back the same date |
| Utils.ParseParts | lib/utils.ts:36 | the template `${year}-${month}-${day}` puts each part at its offset |
| Utils.IsOverdue | lib/utils.ts:42-47 | a date string is overdue exactly when new Date(dateStr + "T00:00:00") is a real date and its day is before today's |
| Utils.TodayNotOverdue | lib/utils.ts:42-47 | today's own formatted date is never overdue |
| Utils.DiffDays | lib/utils.ts:56-60 | whole days from the target's midnight to today's, present exactly when the string parses |
| Utils.OverdueLabel | lib/utils.ts:55-65 | empty for 0 or fewer days, the yesterday label for 1, "<n>日前から持ち越し" for 2 or more, "NaN日前から持ち越し" for an unreadable date |
| Utils.LabelIffOverdue | lib/utils.ts:42-65 | for a readable date the label is non-empty exactly when isOverdue holds |
| Utils.UnreadableDateLabel | lib/utils.ts:42-65 | an unreadable date is not overdue but still gets the NaN label |
| Utils.Kept | lib/utils.ts:71 | filter(Boolean) keeps at most the given classes and no empty string |
| Utils.Cn | lib/utils.ts:70-72 | the joined class name is empty exactly when no class survives the filter |
| Utils.JoinEmpty | lib/utils.ts:71 | joining non-empty parts is empty only for no parts |
| Utils.SplitJoin | lib/utils.ts:71 | splitting the joined string at the separator gives back the parts |
| Utils.CnSplits | lib/utils.ts:70-72 | the class name splits at spaces into exactly the kept classes |
| Utils.KeptFrom | lib/utils.ts:71 | every kept class is one of the arguments |
| Utils.CnAppend | lib/utils.ts:70-72 | cn of two argument lists is the two results joined by a space, either side dropped when empty |
| Utils.KeptAppend | lib/utils.ts:71 | filtering distributes over concatenation |
| Utils.JoinAppend | lib/utils.ts:71 | join of a concatenation is the two joins with one separator between |
| Js.NumberOf | components/CalendarView.tsx:43 | Number of a string of plain digits is its decimal value, and a string without "-" never reads as a negative number |
| Js.NumberOfText | components/CalendarView.tsx:43 | a trimmed text that is empty or does not start with "-" never reads as a negative number |
| Js.NumberOfGeneral | components/CalendarView.tsx:43 | Number always agrees with its general path: trim, then read the text |
| Js.NumberOfTextDigits | components/CalendarView.tsx:43 | the general path reads plain digits as their decimal value |
| Js.NumberOfPadded | components/CalendarView.tsx:43 | white space around the digits is ignored: Number(" 2024 ") is 2024 |
| Js.NumberOfSigned | components/CalendarView.tsx:43 | a sign before the digits: Number("-12") is -12 and Number("+12") is 12 |
| Js.NumberOfPrefixed | components/CalendarView.tsx:43 | "0x", "0o" and "0b" followed by digits of that base read in that base |
| Js.DecimalRoundTrip | components/CalendarView.tsx:48 | printing a natural number in base 10 and reading it back gives the number |
| Js.ParseInt16Padded | lib/sekki.ts:665-667 | parseInt(w + s, 16) skips the leading white space w |
| Js.ParseInt16Signed | lib/sekki.ts:665-667 | parseInt("-" + digits, 16) is the negated value, and "+" + digits the value |
| Js.HexDigitsPlain | lib/sekki.ts:665-667 | a string of hexadecimal digits has no white space, sign or "0x" to skip, so parseInt(s, 16) is exactly reading it as hexadecimal |
| Js.ParseHexAll | components/seasonal/SeasonalBackground.tsx:91-94 | a non-empty run of hexadecimal digits is read whole |
| Js.HexByteRoundTrip | lib/sekki.ts:678 | a byte printed by toString(16).padStart(2, "0") reads back as the byte |
| Js.TrimShape | components/QuickInput.tsx:82 | trim returns a piece of the text with no white space at either end |
| Js.TrimEmptyIffAllSpace | components/QuickInput.tsx:82-83 | the trimmed text is empty exactly when the text is all white space |
| Js.TrimPadded | components/CalendarView.tsx:43 | white space on both sides of a text with no white space at its ends is trimmed away |
| Civil.DaysInMonth | components/CalendarView.tsx:58-59 | the last day of a month (day 0 of the next): 28 to 31, 29 in February exactly in leap years, 30 exactly in April, June, September and November |
| Civil.Carry | components/CalendarView.tsx:76 | the Date constructor's overflow of a day number into neighbouring months gives a real date for every year (the Date range limit is under Left out), and leaves an in-range day alone |
| Civil.MakeDate | components/CalendarView.tsx:56-59 | new Date(year, month, day) with any month and day is a valid calendar date, for every year (the Date range limit is under Left out) |
| Civil.SetDate | components/QuickInput.tsx:54-55 | setDate with any day number is a valid calendar date |
| Civil.DayZeroIsLastOfPreviousMonth | components/CalendarView.tsx:58-59 | new Date(y, m, 0) is the last day of the month before m |
| Civil.SetDateNext | components/QuickInput.tsx:54-55 | setDate(getDate() + 1) is the next day of the month, or the first of the next month after its last day |
| Civil.MarchYearLength | components/CalendarView.tsx:58 | a March-based year has 366 days exactly before a Gregorian leap day, else 365 |
| Civil.DayNumberNext | components/QuickInput.tsx:54-55 | setDate(getDate() + 1) moves exactly one day forward |
| Civil.DayNumberOfCarry | components/CalendarView.tsx:76 | an overflowing day number lands that many days after the first of the month |
| Civil.MonthLength | components/CalendarView.tsx:58 | the first of the next month is the month's length after the first of this month |
| Civil.Weekday | components/CalendarView.tsx:57 | getDay lies in 0..6 |
| Civil.Time | lib/utils.ts:43-46 | a moment lies within its day's 24 hours after local midnight |
| Civil.EpochIsThursday | components/CalendarView.tsx:57 | 1 January 1970 is day 0 and a Thursday, anchoring getDay |
| Civil.ParseIsoDate | lib/utils.ts:45 | as V8 reads new Date(s + "T00:00:00"): only a "YYYY-MM-DD", "YYYY-MM" or four-digit "YYYY" string gives a date, and that date is valid |
| Civil.ParseIsoMonth | lib/utils.ts:45 | "YYYY-MM" with month 01..12 is the first of that month |
| Civil.ParseIsoYear | lib/utils.ts:45 | "YYYY" is 1 January of that year |
| Civil.ParseIsoCarries | lib/utils.ts:45 | a day past the month's end carries over: "2024-02-30" is 1 March 2024 |
| CalendarView.ParseYearMonth | components/CalendarView.tsx:42-45 | when Number reads both pieces of ym.split("-"), the year is non-negative and the month is at least -1; a missing or unreadable piece is NaN (None) |
| CalendarView.YearMonthRoundTrip | components/CalendarView.tsx:42-49 | parsing a canonical "YYYY-MM" and printing it back is the identity, in both directions |
| CalendarView.ParsePieces | components/CalendarView.tsx:43-44 | "y-m" with digit pieces parses to (y, m - 1) |
| CalendarView.ParseSplitDigits | components/CalendarView.tsx:43-44 | two digit pieces of the split read as their decimal values, the month made 0-based |
| CalendarView.ParseNumbers | components/CalendarView.tsx:43-44 | whatever two pieces Number reads as a and b give the year a and the month b - 1 |
| CalendarView.SplitAround | components/CalendarView.tsx:43 | two pieces without "-" joined by "-" split back into exactly those two |
| CalendarView.SplitDigitPieces | components/CalendarView.tsx:43 | splitting "y-m" at '-' gives the two pieces |
| CalendarView.MonthDigits | components/CalendarView.tsx:48 | a two-digit month prints back to itself with padStart(2, '0') |
| CalendarView.ToYearMonth | components/CalendarView.tsx:42-49 | toYearMonth(y, m) of a non-negative year and a month 0..11 parses back to (y, m) |
| CalendarView.DecimalCanonical | components/CalendarView.tsx:43 | a digit string without a leading zero prints back to itself |
| CalendarView.PrevMonth | components/CalendarView.tsx:151-159 | the previous month, wrapping January to December of the year before |
| CalendarView.NextMonth | components/CalendarView.tsx:161-169 | the next month, wrapping December to January of the year after |
| CalendarView.MonthsInverse | components/CalendarView.tsx:151-169 | prevMonth and nextMonth undo each other and change the year only at the wrap |
| CalendarView.NavigationRoundTrip | components/CalendarView.tsx:151-169 | going forward then back (or back then forward) from a canonical "YYYY-MM" sends back the same string |
| CalendarView.ViewYearMonth | components/CalendarView.tsx:42-45 | the year and 0-based month read piece by piece, each None for NaN; both present exactly when parseYearMonth reads the whole month |
| CalendarView.NumberText | components/CalendarView.tsx:47-49 | String of a number that may be NaN: "NaN" exactly for NaN |
| CalendarView.YearMonthText | components/CalendarView.tsx:47-49 | toYearMonth with NaN pieces: two numbers give toYearMonth's string, a NaN month gives "year-NaN", a NaN year starts "NaN-" |
| CalendarView.PrevMonthTarget | components/CalendarView.tsx:151-159 | a readable month sends the month before it; a NaN month sends "year-NaN", a NaN year a string starting "NaN-" |
| CalendarView.NextMonthTarget | components/CalendarView.tsx:161-169 | a readable month sends the month after it; a NaN month sends "year-NaN", a NaN year a string starting "NaN-" |
| CalendarView.ViewOfLetters | components/CalendarView.tsx:42-45 | "abc" reads as NaN for both year and month |
| CalendarView.ViewOfYearOnly | components/CalendarView.tsx:42-45 | "2024" reads as the year 2024 and a NaN month |
| CalendarView.UnreadableMonthTargets | components/CalendarView.tsx:151-169 | an unreadable month is still sent on: "abc" gives "NaN-NaN" both ways, "2024" gives "2024-NaN" |
| CalendarView.BuildTaskMap | components/CalendarView.tsx:62-69 | the task map holds, under each key, exactly the tasks dated that day, in order |
| CalendarView.TasksOnExactly | components/CalendarView.tsx:62-69 | a day's list holds each task dated that day as often as in the input, and no other |
| CalendarView.TasksOn | components/CalendarView.tsx:62-69 | a day's list is no longer than the tasks and holds only tasks dated that day |
| CalendarView.Shown | components/CalendarView.tsx:56 | the month the Date constructor normalises (year, month) to lies in 0..11 |
| CalendarView.NextOfShown | components/CalendarView.tsx:76-106 | month + 1 and month - 1 are the months after and before the shown one |
| CalendarView.StartOffset | components/CalendarView.tsx:57 | the weekday of the first lies in 0..6 |
| CalendarView.GridMonthDays | components/CalendarView.tsx:58 | the month has 28 to 31 days |
| CalendarView.PrevMonthDays | components/CalendarView.tsx:59 | the previous month has 28 to 31 days |
| CalendarView.TrailingCount | components/CalendarView.tsx:103-104 | the leading days of the next month fill the last row: fewer than 7, and the total is a multiple of 7 |
| CalendarView.Grid | components/CalendarView.tsx:51-120 | the reference grid: GridLength cells, cell k as GridCell describes it |
| CalendarView.GridCell | components/CalendarView.tsx:74-117 | cell k has the grid's k-th date, a valid one, with its formatted string, is today exactly when that string is today's, and holds only tasks of that day |
| CalendarView.GridDateValid | components/CalendarView.tsx:76-106 | every grid cell's date is a real date |
| CalendarView.FirstMade | components/CalendarView.tsx:56-59 | the three Date constructions give the first, the month length and the previous month's length |
| CalendarView.LeadingMade | components/CalendarView.tsx:74-76 | the trailing days of the previous month are the grid's first cells |
| CalendarView.MonthMade | components/CalendarView.tsx:89-90 | the month's own days are the grid's middle cells |
| CalendarView.TrailingMade | components/CalendarView.tsx:105-106 | the next month's leading days are the grid's last cells |
| CalendarView.DaysCells | components/CalendarView.tsx:89-100 | a run of count consecutive day cells has count cells |
| CalendarView.DaysCellsAll | components/CalendarView.tsx:89-100 | cell j of a run is the cell of day from + j |
| CalendarView.Region | components/CalendarView.tsx:74-117 | which region (previous, current, next month) index k falls in, and its day number there |
| CalendarView.LeadingCell | components/CalendarView.tsx:74-86 | each pushed previous-month cell equals the reference cell at its index |
| CalendarView.MonthCell | components/CalendarView.tsx:89-100 | each pushed current-month cell equals the reference cell at its index |
| CalendarView.TrailingCell | components/CalendarView.tsx:105-116 | each pushed next-month cell equals the reference cell at its index |
| CalendarView.LeadingRun | components/CalendarView.tsx:74-86 | the previous-month run is the grid's prefix |
| CalendarView.MonthRun | components/CalendarView.tsx:89-100 | the current-month run follows it in the grid |
| CalendarView.TrailingRun | components/CalendarView.tsx:103-117 | the next-month run ends the grid exactly |
| CalendarView.MonthRunCells | components/CalendarView.tsx:89-100 | the day-cell run of the month sits at the start offset in the grid |
| CalendarView.TrailingRunCells | components/CalendarView.tsx:103-117 | the day-cell run of the next month finishes the grid |
| CalendarView.RunsMakeGrid | components/CalendarView.tsx:71-119 | three runs matching the grid piece by piece concatenate to the grid |
| CalendarView.DaysCellsSnoc | components/CalendarView.tsx:89-100 | one more loop turn appends the next day's cell |
| CalendarView.PushCell | components/CalendarView.tsx:90-99 | the pushed cell, with the task map lookup, is the next cell of the run |
| CalendarView.PushCellAfter | components/CalendarView.tsx:105-115 | the same after earlier cells |
| CalendarView.LeadingCells | components/CalendarView.tsx:74-86 | the first loop pushes startOffset cells, day daysInPrevMonth - startOffset + 1 + j of the previous month at j |
| CalendarView.PushDays | components/CalendarView.tsx:89-100 | the second loop appends the cells of days 1..count |
| CalendarView.TrailingCells | components/CalendarView.tsx:102-117 | the third loop appends the next month's days until the row is complete |
| CalendarView.GetMonthGrid | components/CalendarView.tsx:51-120 | the built grid equals the reference grid cell by cell |
| CalendarView.MonthGrid | components/CalendarView.tsx:123-133 | an unreadable month string gives no grid; a readable one gives its month's grid |
| CalendarView.GridShape | components/CalendarView.tsx:102-117 | the grid is whole weeks, 28 to 42 cells, with fewer than 7 cells of the next month |
| CalendarView.GridCellDate | components/CalendarView.tsx:74-117 | cell k is k days after the Sunday the grid starts on, sits in weekday column k mod 7, shows its date's day, and is marked current exactly in the shown month |
| CalendarView.GridDateFacts | components/CalendarView.tsx:74-117 | the same facts for the cell dates alone |
| CalendarView.LeadingDayNumber | components/CalendarView.tsx:74-86 | previous-month cells are consecutive days before the first, outside the shown month |
| CalendarView.TrailingDayNumber | components/CalendarView.tsx:103-117 | next-month cells are consecutive days after the month's end, outside the shown month |
| CalendarView.WeekdayShift | components/CalendarView.tsx:57 | starting at the first's weekday offset puts cell k in column k mod 7 |
| CalendarView.GridCellToday | components/CalendarView.tsx:52-54 | for today and cell dates in years 1000-9999, a cell is marked today exactly when its date is today |
| CalendarView.Dots | components/CalendarView.tsx:222-224 | at most three dots, all of incomplete tasks, in order, and three whenever there are more |
| CalendarView.DotsAndOverflow | components/CalendarView.tsx:222-260 | dots show exactly when some task is open; the overflow count shows exactly when open tasks exceed the dots |
| CalendarView.DotColor | components/CalendarView.tsx:26-31 | a colour exists exactly for the four priorities |
| CalendarView.SelectedBeforeIsTotalPreorder | components/CalendarView.tsx:139-142 | the comparator orders all tasks consistently |
| CalendarView.SelectedTasksExactly | components/CalendarView.tsx:135-143 | the list holds the tasks of the selected day, each as often as given, and nothing without a selection |
| CalendarView.SelectedTasks | components/CalendarView.tsx:135-143 | nothing without a selection; otherwise only tasks of the selected date, sorted by the comparator |
| CalendarView.SelectedOrder | components/CalendarView.tsx:139-142 | open tasks come before done ones; within each group, newer first |
| CalendarView.Calendar.DayClick | components/CalendarView.tsx:171-173 | clicking the selected day clears the selection; clicking another selects it |
| CalendarView.Calendar.GoToToday | components/CalendarView.tsx:145-149 | goes to today's month and selects today |
| CalendarView.ClickTwice | components/CalendarView.tsx:171-173 | two clicks on the same day leave the selection as it was |
| Tasks.PriorityRank | components/InboxView.tsx:14-19 | PRIORITY_ORDER with the `?? 3` default: 0, 1, 2 exactly for high, medium, low, and at most 3 |
| Sorting.Insert | components/InboxView.tsx:28-33 | inserting into a sorted list keeps it sorted and adds exactly the one element |
| Sorting.HeadBelowAll | components/InboxView.tsx:28-33 | the head of a sorted list precedes everything in the rest after an insertion behind it |
| Sorting.PrependSorted | components/InboxView.tsx:28-33 | a head below all of a sorted rest gives a sorted list |
| Sorting.Sort | components/InboxView.tsx:28-33 | Array.prototype.sort with a consistent comparator: a sorted permutation of its input |
| Sorting.Filter | components/InboxView.tsx:27 | filter keeps exactly the elements that pass, and no others |
| Sorting.FilterMultiset | components/InboxView.tsx:27 | filter keeps each passing element as often as it occurs, and drops the others |
| Sorting.PartitionMultiset | components/TodayView.tsx:31-32 | the two filters by a predicate and its negation together hold every task exactly once |
| Sorting.FilterAppend | components/TodayView.tsx:31-32 | filter distributes over concatenation |
| Sorting.SortMembers | components/InboxView.tsx:28-33 | every element of the sorted list comes from the input |
| Sorting.FilterCons | components/InboxView.tsx:27 | filtering a list with head h keeps h exactly when it passes |
| Sorting.SortedTail | components/InboxView.tsx:28-33 | the tail of a sorted list is sorted |
| Sorting.BothTied | components/InboxView.tsx:28-33 | two elements tied with the same element are tied with each other |
| Sorting.InsertTies | components/InboxView.tsx:28-33 | an insertion puts the new element ahead of every element it ties with, leaving their order alone, so the head of the input stays first among its ties |
| Sorting.SortStable | components/InboxView.tsx:28-33 | sort is stable: the elements tied with any given element keep their input order |
| InboxView.InboxBeforeIsTotalPreorder | components/InboxView.tsx:28-33 | the inbox comparator orders all tasks consistently |
| InboxView.InboxTasksExactly | components/InboxView.tsx:25-34 | the inbox holds exactly the undated open tasks, each as often as given |
| InboxView.InboxTasks | components/InboxView.tsx:25-34 | the inbox holds only undated open tasks, sorted by the inbox comparator |
| InboxView.InboxOrder | components/InboxView.tsx:28-33 | higher priority first; within a priority, newer first |
| InboxView.EmptyInbox | components/InboxView.tsx:25-34 | the inbox is empty exactly when no task is undated and open |
| TodayView.OpenBeforeIsTotalPreorder | components/TodayView.tsx:35-50 | the open-task comparator orders all tasks consistently |
| TodayView.DoneBeforeIsTotalPreorder | components/TodayView.tsx:53-55 | the done-task comparator orders all tasks consistently |
| TodayView.SortedOpen | components/TodayView.tsx:31-50 | the sorted unfinished part holds only unfinished tasks |
| TodayView.SortedDone | components/TodayView.tsx:32-55 | the sorted finished part holds only finished tasks |
| TodayView.SortedTasks | components/TodayView.tsx:30-58 | the list shown is a permutation of the tasks |
| TodayView.OpenDoneSplit | components/TodayView.tsx:31-32 | the unfinished and the finished tasks together are all the tasks, each once |
| TodayView.OpenBeforeDone | components/TodayView.tsx:57 | every open task comes before every done one |
| TodayView.AllKept | components/TodayView.tsx:35 | sorting a filtered list keeps every element passing the filter |
| TodayView.OpenPrefix | components/TodayView.tsx:57 | open tasks followed by done tasks put every open one first |
| TodayView.OpenOrder | components/TodayView.tsx:35-50 | overdue first, then higher priority, then newer |
| TodayView.DoneOrder | components/TodayView.tsx:53-55 | most recently completed first, by done_at or else updated_at |
| TodayView.CompletedCount | components/TodayView.tsx:61 | the completed count is at most the number of tasks |
| TodayView.CountsAddUp | components/TodayView.tsx:60-61 | open tasks plus completed tasks are all tasks |
| TodayView.CompleteClick | components/TodayView.tsx:67-70 | clicking a done task changes nothing; clicking an open one asks to confirm it |
| TodayView.DropTrailingComma | components/TodayView.tsx:65 | a trailing "、" is removed, anything else left alone |
| TodayView.DisplayGreeting | components/TodayView.tsx:63-65 | "おはよう" exactly in the morning hours, otherwise "おつかれさま" |
| QuickInput.CycleIndex | components/QuickInput.tsx:12 | indexOf finds every priority in PRIORITY_CYCLE |
| QuickInput.NextPriority | components/QuickInput.tsx:74-79 | the next priority is one step further round the four-entry cycle |
| QuickInput.CycleOfFour | components/QuickInput.tsx:74-79 | four presses return to the start and fewer never do |
| QuickInput.CycleOrder | components/QuickInput.tsx:12 | the cycle runs none, low, medium, high, none |
| QuickInput.PlaceholderByTime | components/QuickInput.tsx:21-26 | each of the three placeholders exactly for its hour range |
| QuickInput.TomorrowOf | components/QuickInput.tsx:53-56 | tomorrow is exactly one day after today |
| QuickInput.Form.Mount | components/QuickInput.tsx:37-40 | mounting sets the placeholder for the hour and nothing else |
| QuickInput.Form.SetText | components/QuickInput.tsx:111 | typing replaces the text and nothing else |
| QuickInput.Form.DateChip | components/QuickInput.tsx:42-64 | inbox clears the date, today and tomorrow select their formatted dates, pick changes nothing |
| QuickInput.Form.DatePickerChange | components/QuickInput.tsx:66-72 | a non-empty picked value becomes the date and activates the pick chip; an empty one changes nothing |
| QuickInput.Form.CyclePriority | components/QuickInput.tsx:74-79 | the priority advances one step and nothing else changes |
| QuickInput.Form.Submit | components/QuickInput.tsx:81-88 | blank text adds nothing; otherwise the trimmed text, date and priority are added, and the text and priority reset |
| QuickInput.Form.KeyDown | components/QuickInput.tsx:90-98 | only Enter outside composition submits |
| QuickInput.SubmitTwice | components/QuickInput.tsx:81-88 | a submission carries non-blank trimmed text, and a second submit right after adds nothing |
| QuickInput.TrimOfTrim | components/QuickInput.tsx:82 | trimming is idempotent |
| TaskDetail.Diff | components/TaskDetail.tsx:118-121 | an update carries a field exactly when it differs from the task, with the new value |
| TaskDetail.SaveOf | components/TaskDetail.tsx:113-128 | the sheet closes exactly for a task with non-blank text; an update is sent exactly when the trimmed text, priority or date changed, for that task's id, and it carries exactly the changed fields with their new values, stamped with the time |
| TaskDetail.SaveUnchanged | components/TaskDetail.tsx:113-128 | saving an unchanged task sends nothing and closes |
| TaskDetail.DaysAfter | components/TaskDetail.tsx:63-72 | tomorrow and next week are 1 and 7 days after today |
| TaskDetail.DateLabel | components/TaskDetail.tsx:156 | a label exists exactly for a non-empty date |
| TaskDetail.DateLabelOfFormatted | components/TaskDetail.tsx:156 | a YYYY-MM-DD date is labelled MM/DD |
| TaskDetail.DateLabelOfParts | components/TaskDetail.tsx:156 | slice(5) then replacing the first '-' gives month/day |
| TaskDetail.ReplaceFirstAfter | components/TaskDetail.tsx:156 | replace('-', '/') changes only the first dash |
| TaskDetail.Detail.Load | components/TaskDetail.tsx:35-42 | a task loads its text, priority and date and clears the change flag; no task changes nothing |
| TaskDetail.Detail.TextChange | components/TaskDetail.tsx:78-84 | editing sets the text and marks a change |
| TaskDetail.Detail.PriorityChange | components/TaskDetail.tsx:86-92 | choosing sets the priority and marks a change |
| TaskDetail.Detail.DateChip | components/TaskDetail.tsx:94-100 | a chip sets the date and marks a change |
| TaskDetail.Detail.DatePickerChange | components/TaskDetail.tsx:102-111 | a non-empty picked value sets the date and marks a change; an empty one changes nothing |
| TaskDetail.Detail.Save | components/TaskDetail.tsx:113-128 | the save outcome is SaveOf of the current fields, so the update carries exactly the changed fields |
| TaskDetail.Detail.Delete | components/TaskDetail.tsx:130-132 | asks for confirmation and changes nothing else |
| TaskDetail.Detail.ConfirmDelete | components/TaskDetail.tsx:134-139 | with a task, deletes its id, hides the confirmation and closes; without one, nothing |
| TaskDetail.Detail.BackdropClick | components/TaskDetail.tsx:141-152 | a click on the backdrop saves when there are changes and otherwise just closes; a click elsewhere does nothing |
| TaskDetail.LoadThenSave | components/TaskDetail.tsx:35-42 | loading a task and saving straight away sends nothing and closes |
| SwipeGesture.Classify | lib/useSwipe.ts:65-76 | left exactly for a leftward move of at least the threshold within the vertical tolerance, right for the same to the right |
| SwipeGesture.TapFiresNothing | lib/useSwipe.ts:70 | a touch that does not move fires nothing |
| SwipeGesture.ClassifyMirror | lib/useSwipe.ts:70-76 | mirroring the move swaps left and right |
| SwipeGesture.Swipe.TouchStart | lib/useSwipe.ts:47-53 | records the start and last point and starts tracking |
| SwipeGesture.Swipe.TouchMove | lib/useSwipe.ts:55-59 | while tracking, records the last point; otherwise nothing |
| SwipeGesture.Swipe.TouchEnd | lib/useSwipe.ts:61-77 | stops tracking and fires the classification of the move, or nothing when not tracking |
| SwipeGesture.TapThenEndTwice | lib/useSwipe.ts:47-77 | a tap fires nothing and a second touch end fires nothing |
| TodosRoute.TodayStr | app/api/todos/route.ts:11-14 | the server's today is a 10-character date that parses back to the same day |
| TodosRoute.TodaySelects | app/api/todos/route.ts:27-36 | today with overdue: open tasks dated on or before today; without: tasks dated today |
| TodosRoute.InboxSelects | app/api/todos/route.ts:37-38 | the inbox: undated open tasks |
| TodosRoute.NoParamsSelectAll | app/api/todos/route.ts:25-47 | no filter, date or month selects everything |
| TodosRoute.GetQuery | app/api/todos/route.ts:25-47 | the query asks for open rows exactly for the inbox and for today with overdue, and has no filter exactly when no filter, date or month is given |
| TodosRoute.NewerFirstIsTotalPreorder | app/api/todos/route.ts:49 | ordering by created_at descending orders all rows consistently |
| TodosRoute.Answer | app/api/todos/route.ts:49 | the answer is no longer than the table and newest first |
| TodosRoute.AnswerRows | app/api/todos/route.ts:25-49 | the answer holds each selected row as often as the table does, and no other row |
| TodosRoute.DateBeatsMonth | app/api/todos/route.ts:39-40 | a date parameter selects exactly that date, whatever the month |
| TodosRoute.MonthSelects | app/api/todos/route.ts:41-46 | a month selects dates from its first to its end date as strings |
| TodosRoute.MonthEndIsLastDay | app/api/todos/route.ts:42-45 | the month's end date is its last calendar day, zero-padded |
| TodosRoute.LastDayOfMonth | app/api/todos/route.ts:44 | new Date(y, m, 0).getDate() is the last day of month m |
| TodosRoute.MonthEnd | app/api/todos/route.ts:42-45 | the end date is the month followed by "-" and the day text |
| TodosRoute.Post | app/api/todos/route.ts:59-86 | 400 with "テキストは必須です" exactly for a missing, falsy or blank text; 500 exactly for a truthy text that is not a string (its trim throws); an insert exactly for a non-blank string, of the trimmed text with the date or null and the priority or "none" |
| CalendarView.Calendar.constructor | components/CalendarView.tsx:124 | no day is selected at first |
| EnvironmentEngine.FogPool.constructor | components/seasonal/EnvironmentEngine.ts:199 | the module's fog blob list starts empty |
| ParticleEngine.Particle.constructor | components/seasonal/ParticleEngine.ts:50-220 | a new particle object holds the particle createParticle builds from the draws |
| QuickInput.Form.constructor | components/QuickInput.tsx:29-33 | the form starts with empty text, no date, the inbox chip, no priority and an empty placeholder |
| SeasonalBackground.Background.constructor | components/seasonal/SeasonalBackground.tsx:126-132 | the refs start with no particles, clock, wind and fade at 0, no term and size multiplier 1 |
| TaskDetail.Detail.constructor | components/TaskDetail.tsx:26-30 | the editor starts with empty text, no priority, no date, no delete prompt and no changes |
| SwipeGesture.Swipe.constructor | lib/useSwipe.ts:18-45 | a missing threshold is 50 and a missing vertical tolerance 100; the start and last positions are 0 and nothing is being tracked |
| Sekki.Lookup | lib/sekki.ts:529-531 | sekkiByName finds only a term of the table, under its own name |
| Sekki.LookupBelow | lib/sekki.ts:529-531 | the same for a prefix of the table |
| Sekki.KnownAt | lib/sekki.ts:529-531 | a name the table holds is found |
| Sekki.KnownBelow | lib/sekki.ts:529-531 | a name at index k is found in any prefix longer than k |
| Sekki.OrderHead | lib/sekki.ts:521-522 | the calendar order opens with the table's last two terms, 小寒 and 大寒 |
| Sekki.OrderTail | lib/sekki.ts:521-526 | the rest of the calendar order is the table from 立春 onward |
| Sekki.KnowsRotation | lib/sekki.ts:521-531 | a rotation of the table's names is all known to the lookup |
| Sekki.OrderNamesKnown | lib/sekki.ts:521-531 | all 24 names in the calendar order are in the table, so buildTimeline never skips one |
| Sekki.NominalStartsValid | lib/sekki.ts:69-512 | every term's nominal start month and day form a real date |
| Sekki.GetSekkiDate | lib/sekki.ts:537-547 | a date in the exact-date table wins |
| Sekki.SekkiDateFallback | lib/sekki.ts:537-547 | without a table date: the nominal start of a known term, else 1 January |
| Sekki.NotLaterIsTotalPreorder | lib/sekki.ts:572 | the timeline comparator orders all entries consistently |
| Sekki.YearEntries | lib/sekki.ts:561-569 | one year contributes at most one entry per name |
| Sekki.YearEntriesLength | lib/sekki.ts:561-569 | with every name known, exactly one entry per name |
| Sekki.EntriesSplit | lib/sekki.ts:560 | the three years are pushed one after the other |
| Sekki.TimelineShape | lib/sekki.ts:554-574 | the timeline has 3 * 24 entries, is sorted by start time and is a permutation of the three years' entries |
| Sekki.YearEntriesStep | lib/sekki.ts:561-569 | one more name appends its entry, or nothing for an unknown name |
| Sekki.PushYear | lib/sekki.ts:561-569 | the inner loop appends the year's entries |
| Sekki.BuildTimeline | lib/sekki.ts:554-574 | the built timeline equals the reference timeline |
| Sekki.SekkiTimeline | lib/sekki.ts:554-574 | the real tables give 72 sorted entries |
| Sekki.StartedCount | lib/sekki.ts:588-594 | the loop stops at the first entry not yet started; all before it have started |
| Sekki.CurrentIndex | lib/sekki.ts:586-594 | the current index is inside the timeline |
| Sekki.CurrentIsLatestStarted | lib/sekki.ts:580-597 | the current term is the latest that has started (or the first when none has), and every later one starts in the future |
| Sekki.CurrentEntry | lib/sekki.ts:586-594 | the loop picks the entry at the current index |
| Sekki.GetCurrentSekki | lib/sekki.ts:584-597 | getCurrentSekki returns the current entry's term |
| Sekki.Progress | lib/sekki.ts:632-649 | the progress is clamped to [0, 1] |
| Sekki.ProgressWindow | lib/sekki.ts:610-649 | 0 up to three days before the next start, 1 from three days after it, linear between, one half at the start itself |
| Sekki.ProgressMonotone | lib/sekki.ts:636-649 | progress never falls as time passes |
| Sekki.NextIndex | lib/sekki.ts:628 | the next index follows the current one, or stays on the last entry |
| Sekki.TransitionOf | lib/sekki.ts:613-651 | the transition's progress lies in [0, 1] |
| Sekki.ProgressBelowHalf | lib/sekki.ts:599-651 | while a later entry exists, the next term has not started, so the progress stays below one half |
| Sekki.TransitionAt | lib/sekki.ts:619-650 | the loop computes the reference transition |
| Sekki.GetSekkiTransition | lib/sekki.ts:613-651 | getSekkiTransition returns the transition of the real timeline at the moment |
| Sekki.BlendAngle | lib/sekki.ts:758-761 | the rounded angle lies between the two and equals each at its end |
| Sekki.InterpolatedStyle | lib/sekki.ts:724-780 | progress 0 gives the current term's style, 1 the next term's, anything between a blend |
| Sekki.BlendedStyleEnds | lib/sekki.ts:747-779 | the blend at 0 and at 1 agrees with the end styles, up to normalised hex letters |
| Sekki.GetInterpolatedSekkiStyle | lib/sekki.ts:724-780 | the style of the current transition |
| SekkiColor.BlendBetween | lib/sekki.ts:674 | a + (b - a) * t lies between a and b for t in [0, 1], and equals each at its end |
| SekkiColor.BlendChannel | lib/sekki.ts:674-676 | the rounded blend of two channels exists exactly when both parsed, lies between them and equals each at its end |
| SekkiColor.Substring | lib/sekki.ts:665-667 | substring(from, to) is the slice when in range, and never longer than asked |
| SekkiColor.ParseChannels | lib/sekki.ts:660-669 | each channel parseInt reads from two characters lies between -15 ("-f") and 255 |
| SekkiColor.ParseHexShort | lib/sekki.ts:665-667 | parseInt of at most two hex digits is below 256 |
| SekkiColor.Digits6 | lib/sekki.ts:661-664 | a #RGB, #RRGGBB or #RRGGBBAA colour yields six hex digits: the short form doubled, an alpha pair dropped |
| SekkiColor.NormalizedHex | lib/sekki.ts:678-679 | the lower-case six-digit form of a colour has six characters |
| SekkiColor.ExpandWellFormed | lib/sekki.ts:661-664 | the three-digit form is doubled digit by digit |
| SekkiColor.ParseWellFormed | lib/sekki.ts:660-669 | a well-formed colour parses to the values of its three digit pairs |
| SekkiColor.PairAt | lib/sekki.ts:665-667 | parseInt(h.substring(i, i + 2), 16), when a number, lies between -15 and 255 |
| SekkiColor.PairOfDigits | lib/sekki.ts:665-667 | two hexadecimal digits at i read as their pair value |
| SekkiColor.ParseInt16Short | lib/sekki.ts:665-667 | parseInt(s, 16) of at most two characters, whatever they are, lies between -15 and 255 |
| SekkiColor.UnsignedHexShort | lib/sekki.ts:665-667 | the digits after an optional "0x" in at most two characters are below 256, below 16 for one character |
| SekkiColor.HexOut | lib/sekki.ts:678 | toHex prints a two-character value in two characters and NaN as "NaN" |
| SekkiColor.HexOutOfPair | lib/sekki.ts:678 | printing a parsed pair gives the pair in lower case |
| SekkiColor.HexOutWellFormed | lib/sekki.ts:660-679 | parsing then printing a well-formed colour gives its normalised digits |
| SekkiColor.PrintDigits | lib/sekki.ts:678-679 | printing three parsed pairs gives the six digits in lower case |
| SekkiColor.LerpColorAtZero | lib/sekki.ts:657-680 | at t <= 0 the result is the first colour, reprinted |
| SekkiColor.LerpColorAtOne | lib/sekki.ts:657-680 | at t >= 1 the result is the second colour, reprinted |
| SekkiColor.LerpColorEnds | lib/sekki.ts:657-680 | at the ends lerpColor gives the normalised end colour |
| SekkiColor.LerpColor | lib/sekki.ts:657-680 | the output is "#" and at least six characters, exactly seven in all when every channel of both colours reads as a number |
| SekkiColor.HexOutRoundTrip | lib/sekki.ts:665-678 | every channel value parseInt can read from two characters prints in two characters and reads back as itself |
| SekkiColor.ParseChannelsOfHexOut | lib/sekki.ts:660-679 | three printed channels parse back to themselves |
| SekkiColor.ChannelsOfPairs | lib/sekki.ts:660-669 | "#" and three pairs that parseInt reads as r, g and b has the channels r, g and b |
| SekkiColor.ThreePairs | lib/sekki.ts:665-667 | the three substrings cut the three pairs back out |
| SekkiColor.ChannelsOfSix | lib/sekki.ts:660-669 | after "#" is removed, six characters are read pair by pair |
| SekkiColor.LerpColorChannelsBetween | lib/sekki.ts:657-680 | the printed blend reads back as the channel-wise blend of the inputs |
| SekkiColor.LeadingSpaces | lib/sekki.ts:691 | `\s*` takes the longest run of spaces |
| SekkiColor.LeadingDigits | lib/sekki.ts:691 | `\d+` takes the longest run of digits |
| SekkiColor.LeadingAlpha | lib/sekki.ts:691 | `[\d.]+` takes the longest run of digits and dots |
| SekkiColor.SkipSpaces | lib/sekki.ts:691 | skipping spaces never lengthens the text |
| SekkiColor.CommaField | lib/sekki.ts:691 | a digits-then-comma field is non-empty digits followed by a shorter rest |
| SekkiColor.LastFields | lib/sekki.ts:691 | the last channel is digits and the optional alpha is a non-empty run of digits and dots |
| SekkiColor.MatchAt | lib/sekki.ts:690-692 | a match at a position has the shape the regular expression demands |
| SekkiColor.FirstMatch | lib/sekki.ts:690-693 | the first match anywhere in the text has that shape |
| SekkiColor.ParseDecimal | lib/sekki.ts:698 | parseFloat of the alpha text is non-negative |
| SekkiColor.ParseRgba | lib/sekki.ts:689-700 | the parsed alpha is non-negative; no match gives (0, 0, 0, 1) |
| SekkiColor.BlendAlpha | lib/sekki.ts:708 | the alpha blend, rounded to thousandths, exists exactly when both alphas do |
| SekkiColor.LeadingDigitsOf | lib/sekki.ts:691 | digits followed by a non-digit are taken whole |
| SekkiColor.LeadingAlphaOf | lib/sekki.ts:691 | an alpha run followed by something else is taken whole |
| SekkiColor.NoSpaces | lib/sekki.ts:691 | text starting with a digit, comma or bracket has no spaces to skip |
| SekkiColor.CommaFieldOf | lib/sekki.ts:691 | "d,rest" splits into d and rest |
| SekkiColor.LastFieldsOf | lib/sekki.ts:691 | "d,a)" gives the blue channel d and alpha a |
| SekkiColor.MatchPieces | lib/sekki.ts:690-692 | "rgba(R,G,B,A)" matches with exactly those four groups |
| SekkiColor.MatchAtOf | lib/sekki.ts:690-692 | fields found in order after "rgba(" make the first match |
| SekkiColor.RgbaPrefix | lib/sekki.ts:691 | "rgba(" + body starts with rgb, a and a bracket |
| SekkiColor.MatchFormatted | lib/sekki.ts:690-710 | a printed rgba string matches with its printed channels and alpha |
| SekkiColor.ThousandthsShape | lib/sekki.ts:708-710 | a printed alpha starts with a digit and has only digits and dots |
| SekkiColor.DecimalOfDigits | lib/sekki.ts:695-698 | one to three digits read as their decimal value |
| SekkiColor.ParseWhole | lib/sekki.ts:698 | parseFloat of a whole number is that number |
| SekkiColor.ParseFraction | lib/sekki.ts:698 | parseFloat of w.f is w plus the fraction f |
| SekkiColor.ParseDecimalDot | lib/sekki.ts:698 | parseFloat stops after the digits following the first dot |
| SekkiColor.ParseThousandths | lib/sekki.ts:698-708 | parseFloat reads a printed alpha back exactly |
| SekkiColor.ThousandthsFraction | lib/sekki.ts:708 | the same for an alpha with a fractional part |
| SekkiColor.ThousandthsWhole | lib/sekki.ts:708 | the same for a whole alpha |
| SekkiColor.MilliOf | lib/sekki.ts:708 | k thousandths is its whole part plus its remainder over 1000 |
| SekkiColor.FractionText | lib/sekki.ts:708 | toFixed(3) then Number drops trailing zeros, leaving 1 to 3 digits |
| SekkiColor.FractionTextValue | lib/sekki.ts:708 | the printed fraction reads back as the same thousandths |
| SekkiColor.FractionOfDigits | lib/sekki.ts:708 | dropping trailing zero digits keeps the fraction's value |
| SekkiColor.ParseFormatted | lib/sekki.ts:689-710 | parsing a printed rgba string gives back its channels and alpha |
| SekkiColor.LerpRgbaOf | lib/sekki.ts:686-711 | lerpRgba prints the channel blends and the rounded alpha blend of the parsed inputs |
| SekkiColor.LerpRgba | lib/sekki.ts:686-711 | the output is "rgba(" ... ")" |
| SekkiColor.BlendAlphaEnd | lib/sekki.ts:708 | at each end the alpha blend is that end's alpha |
| SekkiColor.LerpRgbaEnds | lib/sekki.ts:686-711 | a printed rgba string is returned unchanged at its own end of the blend |
| SekkiColor.LerpRgbaReadBack | lib/sekki.ts:686-711 | the output reads back as the blended channels and alpha |
| SeasonalBackground.SizeRange | components/seasonal/SeasonalBackground.tsx:44-53 | every type's size range, snow's for unknown types, is positive and non-empty |
| SeasonalBackground.SpeedRange | components/seasonal/SeasonalBackground.tsx:55-64 | every type's speed range, snow's for unknown types, is positive and non-empty |
| SeasonalBackground.UnknownTypeIsSnow | components/seasonal/SeasonalBackground.tsx:176-177 | an unknown type takes snow's ranges |
| SeasonalBackground.AnimationsCoverTerms | components/seasonal/SeasonalBackground.tsx:11-40 | every one of the 24 terms has an animation with types, colours and a count |
| SeasonalBackground.PickModeForType | components/seasonal/SeasonalBackground.tsx:101-114 | bubbles rise, fireflies wander, petals, leaves and seeds swirl exactly when the draw is below one half, everything else falls |
| SeasonalBackground.Rand | components/seasonal/SeasonalBackground.tsx:84-86 | rand(min, max) lies in [min, max) |
| SeasonalBackground.HexToRgba | components/seasonal/SeasonalBackground.tsx:88-99 | a colour starting with "rgb" is returned as it is; anything else becomes rgba of three bytes, whatever parseInt makes of it |
| SeasonalBackground.HexValueOfSix | components/seasonal/SeasonalBackground.tsx:91-94 | six hex digits are the three byte values in base 256 |
| SeasonalBackground.ParseSix | components/seasonal/SeasonalBackground.tsx:91-94 | parseInt of six hex digits is that value |
| SeasonalBackground.Bytes | components/seasonal/SeasonalBackground.tsx:95-97 | the shifts and masks take the three bytes back out |
| SeasonalBackground.HexToRgbaOfHex | components/seasonal/SeasonalBackground.tsx:88-99 | a #RGB or #RRGGBB colour prints as rgba of its three channels |
| SeasonalBackground.SixDigitBytes | components/seasonal/SeasonalBackground.tsx:95-97 | the shifts and masks of the value of six digits give their three pairs |
| SeasonalBackground.SevenCharHex | components/seasonal/SeasonalBackground.tsx:90-94 | "#" and six hexadecimal digits is a well-formed colour standing for those six |
| SeasonalBackground.ExpandedDigits | components/seasonal/SeasonalBackground.tsx:92 | the three-digit form is doubled digit by digit |
| SeasonalBackground.HexDigitBound | components/seasonal/SeasonalBackground.tsx:95-97 | a digit pair is below 256 |
| SeasonalBackground.HexToRgbaRoundTrip | components/seasonal/SeasonalBackground.tsx:88-99 | printing three bytes as #rrggbb and converting gives rgba of the same bytes |
| SeasonalBackground.PrintedHex | components/seasonal/SeasonalBackground.tsx:88-99 | a printed #rrggbb is a well-formed colour with those digits |
| SeasonalBackground.ByteDigits | components/seasonal/SeasonalBackground.tsx:95-97 | a byte's two hex digits read back as the byte |
| SeasonalBackground.HexToRgbaShort | components/seasonal/SeasonalBackground.tsx:92 | #abc converts like #aabbcc |
| SeasonalBackground.SameDigitsSameRgba | components/seasonal/SeasonalBackground.tsx:90-97 | two colours standing for the same six digits convert alike |
| SeasonalBackground.NegatedDigits | components/seasonal/SeasonalBackground.tsx:91-94 | "#-" and six digits: parseInt reads the negated value |
| SeasonalBackground.NegatedValue | components/seasonal/SeasonalBackground.tsx:91-97 | a colour parseInt reads as -n gives the three low bytes of 2^24 - n |
| SeasonalBackground.HexToRgbaOfValue | components/seasonal/SeasonalBackground.tsx:91-98 | a colour parseInt reads as v gives the three low bytes of v |
| SeasonalBackground.TwosComplementBytes | components/seasonal/SeasonalBackground.tsx:95-97 | the three low bytes of -v and of 2^24 - v agree |
| SeasonalBackground.HexToRgbaPadded | components/seasonal/SeasonalBackground.tsx:90-94 | white space after the "#" is skipped by parseInt unless it changes the short form |
| SeasonalBackground.PickFrom | components/seasonal/SeasonalBackground.tsx:175 | picking at floor(random * length) gives a list element |
| SeasonalBackground.Spread | components/seasonal/SeasonalBackground.tsx:183-184 | random * n lies in [0, n] |
| SeasonalBackground.UnitScale | components/seasonal/SeasonalBackground.tsx:183-184 | a unit draw scales n into [0, n] |
| SeasonalBackground.ParticleSize | components/seasonal/SeasonalBackground.tsx:178 | the size lies in the type's range times depth and size multiplier, and is positive |
| SeasonalBackground.ScaleBounds | components/seasonal/SeasonalBackground.tsx:178 | scaling by a positive factor keeps the range order |
| SeasonalBackground.MakeParticle | components/seasonal/SeasonalBackground.tsx:167-196 | a new particle has a listed type and colour, lies on the canvas, keeps its layer, and takes its mode and size from the draws |
| SeasonalBackground.BaseCount | components/seasonal/SeasonalBackground.tsx:345-348 | the desktop count is the configured one; the mobile count is at most 90 and at most floor(count * 1.2) |
| SeasonalBackground.Layers | components/seasonal/SeasonalBackground.tsx:352-356 | three layers, each with positive depth |
| SeasonalBackground.LayersTotal | components/seasonal/SeasonalBackground.tsx:352-363 | the layer counts add up to the pool size |
| SeasonalBackground.PoolSizeBounds | components/seasonal/SeasonalBackground.tsx:346-356 | the pool holds between base * 1.15 - 3 and base * 1.15 particles, at most 103 on mobile |
| SeasonalBackground.FloorMonotone | components/seasonal/SeasonalBackground.tsx:347 | Math.floor never reverses order |
| SeasonalBackground.Run | components/seasonal/SeasonalBackground.tsx:360-362 | a layer's run has its count of particles, all properly spawned |
| SeasonalBackground.Pool | components/seasonal/SeasonalBackground.tsx:358-363 | the pool holds the total of the layer counts |
| SeasonalBackground.PoolSpawned | components/seasonal/SeasonalBackground.tsx:358-363 | every particle in the pool is properly spawned |
| SeasonalBackground.RunSnoc | components/seasonal/SeasonalBackground.tsx:360-362 | one more turn of the inner loop appends one new particle |
| SeasonalBackground.PoolSnoc | components/seasonal/SeasonalBackground.tsx:359-363 | one more layer appends its run |
| SeasonalBackground.PushRun | components/seasonal/SeasonalBackground.tsx:360-362 | the inner loop appends the layer's run |
| SeasonalBackground.BuildPool | components/seasonal/SeasonalBackground.tsx:358-364 | the nested loops build the reference pool |
| SeasonalBackground.Move | components/seasonal/SeasonalBackground.tsx:398-432 | moving keeps layer, size, rotation speed, colour, type and mode, and rising and falling particles keep their vertical speed |
| SeasonalBackground.RiseNeverDescends | components/seasonal/SeasonalBackground.tsx:419-425 | a rising particle never moves down |
| SeasonalBackground.SwirlNeverRises | components/seasonal/SeasonalBackground.tsx:402-408 | a swirling particle never moves up, and its speeds stay in their bands |
| SeasonalBackground.NonNegProduct | components/seasonal/SeasonalBackground.tsx:404-406 | the swirl's scaled products are non-negative |
| SeasonalBackground.FallNeverRises | components/seasonal/SeasonalBackground.tsx:426-432 | a falling particle with non-negative speed never moves up |
| SeasonalBackground.Wrap | components/seasonal/SeasonalBackground.tsx:435-446 | wrapping keeps everything but position (and the bottom's new vx) and puts the particle back in view; a particle in view is left alone |
| SeasonalBackground.WrapIdempotent | components/seasonal/SeasonalBackground.tsx:435-446 | wrapping twice is wrapping once |
| SeasonalBackground.WrapBottom | components/seasonal/SeasonalBackground.tsx:436-440 | below the bottom: back to the top at a random x with a small new vx |
| SeasonalBackground.WrapTop | components/seasonal/SeasonalBackground.tsx:441-444 | a rising particle above the top goes back to the bottom at a random x |
| SeasonalBackground.Step | components/seasonal/SeasonalBackground.tsx:397-447 | a frame's move and wrap keeps the particle's identity and leaves it in view |
| SeasonalBackground.StepAll | components/seasonal/SeasonalBackground.tsx:397-451 | a frame keeps the number of particles and each one's identity, and leaves every one in view |
| SeasonalBackground.DeltaTime | components/seasonal/SeasonalBackground.tsx:324-325 | the first frame has dt 0; later ones the elapsed time capped at 50 ms |
| SeasonalBackground.Fade | components/seasonal/SeasonalBackground.tsx:386-388 | the fade-in alpha grows by dt / 800 up to 1 and never passes 1 |
| SeasonalBackground.FadeLinear | components/seasonal/SeasonalBackground.tsx:386-388 | after n frames of dt the alpha is min(1, n * dt / 800) |
| SeasonalBackground.FadeComplete | components/seasonal/SeasonalBackground.tsx:386-388 | 50 frames of at least 16 ms complete the fade |
| SeasonalBackground.Background.Mount | components/seasonal/SeasonalBackground.tsx:460-466 | mounting resets the clock and requests one frame |
| SeasonalBackground.Background.OnVisibilityChange | components/seasonal/SeasonalBackground.tsx:471-475 | becoming visible resets the clock; hiding changes nothing |
| SeasonalBackground.Background.StepParticles | components/seasonal/SeasonalBackground.tsx:394-451 | the particle loop replaces the particles by their stepped versions |
| SeasonalBackground.Background.Rebuild | components/seasonal/SeasonalBackground.tsx:338-383 | a new term restarts the fade and, when it has an animation, rebuilds the pool with no wind and the device's size multiplier |
| SeasonalBackground.Background.Animate | components/seasonal/SeasonalBackground.tsx:304-456 | a frame always requests the next one; a hidden or canvas-less frame changes nothing else; otherwise the clock, term, fade, wind and particles are updated and every particle ends in view |
| SeasonalBackground.ConfigsUsable | components/seasonal/SeasonalBackground.tsx:11-40 | every configured animation has types, colours and a count |
| ParticleEngine.KindOf | components/seasonal/ParticleEngine.ts:79-205 | a type outside the eight named ones takes the generic branch, and only such a type does |
| ParticleEngine.Rand | components/seasonal/ParticleEngine.ts:40-42 | rand(min, max) lies in [min, max) |
| ParticleEngine.Pick | components/seasonal/ParticleEngine.ts:44-46 | picking from an empty list gives nothing; otherwise an element of the list |
| ParticleEngine.PickColor | components/seasonal/ParticleEngine.ts:89 | without configured colours a default colour is picked; with them, one of them |
| ParticleEngine.DepthFactor | components/seasonal/ParticleEngine.ts:57-58 | the depth factor lies in [0.3, 1) |
| ParticleEngine.Scaled | components/seasonal/ParticleEngine.ts:81-84 | a size drawn from a positive range and scaled by depth is positive and below the range's top |
| ParticleEngine.ScaledBounds | components/seasonal/ParticleEngine.ts:81-84 | scaling by a depth factor in [0.3, 1) keeps a value within [min * 0.3, max) |
| ParticleEngine.BaseParticle | components/seasonal/ParticleEngine.ts:56-77 | a fresh base particle has no age, its drawn depth, its type and a lifetime in [300, 800) |
| ParticleEngine.Drifting | components/seasonal/ParticleEngine.ts:80-140 | sakura, snow and leaf particles start fresh at the drawn canvas point, with a colour when none is configured |
| ParticleEngine.RainParticle | components/seasonal/ParticleEngine.ts:111-125 | rain starts fresh at the drawn point and does not spin |
| ParticleEngine.GoldParticle | components/seasonal/ParticleEngine.ts:141-156 | gold starts fresh, does not spin, and lives 200 to 500 |
| ParticleEngine.StarParticle | components/seasonal/ParticleEngine.ts:157-173 | a star is placed in the upper 70% of the canvas, motionless and not spinning |
| ParticleEngine.SparkleParticle | components/seasonal/ParticleEngine.ts:174-188 | a sparkle starts invisible and motionless at the drawn point |
| ParticleEngine.CrystalParticle | components/seasonal/ParticleEngine.ts:189-203 | a crystal starts invisible and motionless at the drawn point |
| ParticleEngine.GenericParticle | components/seasonal/ParticleEngine.ts:205-218 | an unknown type starts fresh at the drawn point |
| ParticleEngine.CreateParticle | components/seasonal/ParticleEngine.ts:50-220 | per type: sparkles and crystals start invisible, rain, gold and stars do not spin, fixed types do not move, stars sit in the upper 70% and the rest at the drawn point |
| ParticleEngine.CreatedOnCanvas | components/seasonal/ParticleEngine.ts:60-62 | every new particle lies on the canvas, a star in its upper 70% |
| ParticleEngine.DrawScale | components/seasonal/ParticleEngine.ts:61-62 | a unit draw scales n into [0, n] |
| ParticleEngine.UnknownTypesAlike | components/seasonal/ParticleEngine.ts:205-218 | two unknown types create the same particle up to its type name |
| ParticleEngine.Motion | components/seasonal/ParticleEngine.ts:236-345 | a type's motion keeps age, lifetime, base size and opacity, depth, phase, colour, type and spin speed, and fixed types stay put |
| ParticleEngine.CycleProgress | components/seasonal/ParticleEngine.ts:310 | a sparkle's cycle progress lies in [0, 1) |
| ParticleEngine.CycleBounds | components/seasonal/ParticleEngine.ts:310 | the remainder of the age by the lifetime, divided by it, lies in [0, 1) |
| ParticleEngine.Rising | components/seasonal/ParticleEngine.ts:311-312 | the first 30% of a cycle ramps from 0 up to at most 1 |
| ParticleEngine.Falling | components/seasonal/ParticleEngine.ts:316-317 | the last 30% of a cycle ramps down to 0 |
| ParticleEngine.Shrinking | components/seasonal/ParticleEngine.ts:333 | the crystal's last 30% shrinks it to no less than 70% |
| ParticleEngine.Share | components/seasonal/ParticleEngine.ts:311-317 | a unit share of a non-negative amount is at most that amount |
| ParticleEngine.Envelope | components/seasonal/ParticleEngine.ts:311-318 | the fade envelope is between 0 and the base, full in the middle of the cycle and 0 at either end |
| ParticleEngine.CrystalSize | components/seasonal/ParticleEngine.ts:325-334 | a crystal's size is between 0 and its base, and at least 70% of it after the growing phase |
| ParticleEngine.WrapEdges | components/seasonal/ParticleEngine.ts:348-363 | wrapping changes only the position, keeps the particle within the canvas plus margins and sends one below the bottom to the top |
| ParticleEngine.Loop | components/seasonal/ParticleEngine.ts:371-381 | a looping particle past its lifetime restarts with no age, a sparkle at a new point; everything else is unchanged |
| ParticleEngine.Updated | components/seasonal/ParticleEngine.ts:224-384 | an update keeps lifetime, base size and opacity, type, depth, colour and phase |
| ParticleEngine.LifeAdvances | components/seasonal/ParticleEngine.ts:234-381 | age grows by dt, except that a looping particle past its lifetime restarts at 0 |
| ParticleEngine.OnlyEphemeralDie | components/seasonal/ParticleEngine.ts:365-383 | an update reports death exactly for crystal and gold particles past their lifetime |
| ParticleEngine.FixedTypesStay | components/seasonal/ParticleEngine.ts:348-381 | stars, sparkles and crystals do not move, except a sparkle that restarts at a new point |
| ParticleEngine.WrapBounds | components/seasonal/ParticleEngine.ts:348-363 | a moving particle ends within the canvas plus its margin |
| ParticleEngine.RainKeepsCourse | components/seasonal/ParticleEngine.ts:267-275 | rain keeps its vertical speed and its rotation |
| ParticleEngine.SparkleEnvelope | components/seasonal/ParticleEngine.ts:308-320 | a sparkle's opacity stays between 0 and its base |
| ParticleEngine.CrystalEnvelope | components/seasonal/ParticleEngine.ts:322-336 | within its lifetime a crystal's opacity and size stay between 0 and their bases |
| ParticleEngine.FreshFadersHidden | components/seasonal/ParticleEngine.ts:174-203 | a sparkle or crystal as createParticle returns it, before any update, is not drawn |
| ParticleEngine.Particle.Move | components/seasonal/ParticleEngine.ts:236-345 | the particle's state becomes its type's motion of the old state |
| ParticleEngine.Particle.WrapAround | components/seasonal/ParticleEngine.ts:348-363 | the particle's state becomes the wrapped old state |
| ParticleEngine.Particle.Restart | components/seasonal/ParticleEngine.ts:371-381 | the particle's state becomes the looped old state |
| ParticleEngine.Particle.Update | components/seasonal/ParticleEngine.ts:224-384 | updateParticle: the new state is the reference update of the old one, and the result says whether the particle is still alive |
| EnvironmentEngine.FlareProgress | components/seasonal/EnvironmentEngine.ts:53-55 | the position within the flare interval lies in [0, 1) |
| EnvironmentEngine.FadeIn | components/seasonal/EnvironmentEngine.ts:73-74 | the first 20% of the active phase ramps from 0 up to at most 1 |
| EnvironmentEngine.FadeOut | components/seasonal/EnvironmentEngine.ts:75-76 | the last 20% of the active phase ramps down to 0 |
| EnvironmentEngine.Part | components/seasonal/EnvironmentEngine.ts:72-77 | a unit part of a non-negative opacity is at most that opacity, and a zero part is 0 |
| EnvironmentEngine.PartMonotone | components/seasonal/EnvironmentEngine.ts:72-77 | a larger share gives a larger part of the opacity |
| EnvironmentEngine.FlareAlpha | components/seasonal/EnvironmentEngine.ts:72-77 | the flare's alpha is between 0 and the configured opacity, the full opacity in the middle 60% and 0 at either end |
| EnvironmentEngine.FlareSymmetric | components/seasonal/EnvironmentEngine.ts:72-77 | the fade out mirrors the fade in |
| EnvironmentEngine.FlareFadesIn | components/seasonal/EnvironmentEngine.ts:73-74 | the alpha never decreases during the fade in |
| EnvironmentEngine.ActiveProgress | components/seasonal/EnvironmentEngine.ts:60 | the active phase's progress lies in [0, 1] |
| EnvironmentEngine.DrawFlare | components/seasonal/EnvironmentEngine.ts:46-98 | no flare is drawn exactly when the interval is past 60%; a drawn flare's alpha is within the opacity and its centre within the box from (-0.3w, -0.1h) to (1.3w, 0.5h) |
| EnvironmentEngine.FlareOnDiagonal | components/seasonal/EnvironmentEngine.ts:46-98 | a drawn flare sits on the diagonal from (-0.3w, -0.1h) to (1.3w, 0.5h) at one active progress t in [0, 1], with the flare alpha of that same t |
| EnvironmentEngine.BreathingAlpha | components/seasonal/EnvironmentEngine.ts:145-148 | the breathing alpha stays within the opacity range, at its ends when the sine is at its extremes |
| EnvironmentEngine.Scatter | components/seasonal/EnvironmentEngine.ts:211-214 | a unit draw scales k into [0, k) |
| EnvironmentEngine.NewBlob | components/seasonal/EnvironmentEngine.ts:210-215 | a new fog blob has its radius in the size range and lies in [0, 1.5w) by [0, h) |
| EnvironmentEngine.Resized | components/seasonal/EnvironmentEngine.ts:209-218 | after the top-up and trim the pool holds exactly count blobs, the old ones first and then new ones from the draws |
| EnvironmentEngine.NewBlobsSized | components/seasonal/EnvironmentEngine.ts:209-216 | every blob added has its radius within the size range |
| EnvironmentEngine.ResizedStable | components/seasonal/EnvironmentEngine.ts:209-218 | resizing to the same count again, on any canvas, changes nothing |
| EnvironmentEngine.BlobScreenX | components/seasonal/EnvironmentEngine.ts:225 | a blob's drifted x lies in [-0.25w, 1.25w) |
| EnvironmentEngine.FogPool.Maintain | components/seasonal/EnvironmentEngine.ts:199-218 | the persistent blob list becomes the resized list of the old one |
| EnvironmentEngine.GrowthProgress | components/seasonal/EnvironmentEngine.ts:251 | growth lies in [0, 1] and is complete in the last 10 s of every 30 s cycle |
| EnvironmentEngine.GrowthHeld | components/seasonal/EnvironmentEngine.ts:251 | growth is held at 1 from 20 s to 30 s in every cycle |
| EnvironmentEngine.Corners | components/seasonal/EnvironmentEngine.ts:262-267 | frost grows from the four corners |
| EnvironmentEngine.ArmAngle | components/seasonal/EnvironmentEngine.ts:271 | every arm lies within 45 degrees of its corner's base angle |
| EnvironmentEngine.ArmSpread | components/seasonal/EnvironmentEngine.ts:271 | the arm offset lies strictly between -pi/4 and pi/4 |
| EnvironmentEngine.CornerArms | components/seasonal/EnvironmentEngine.ts:270-273 | a corner has armCount arms, all starting at the corner with the full length and depth 0 and spread around its base angle |
| EnvironmentEngine.Fan | components/seasonal/EnvironmentEngine.ts:269-274 | four corners give 4 * armCount top-level branches, all with the full length and depth 0 |
| EnvironmentEngine.FanSnoc | components/seasonal/EnvironmentEngine.ts:269-274 | one more corner appends its arms |
| EnvironmentEngine.TopLevelBranches | components/seasonal/EnvironmentEngine.ts:252-274 | no branch is drawn while the length is below 2; otherwise 4 * armCount branches at depth 0 |
| EnvironmentEngine.Arms | components/seasonal/EnvironmentEngine.ts:270-273 | the arm loop issues the corner's arms in order |
| EnvironmentEngine.FanOut | components/seasonal/EnvironmentEngine.ts:269-274 | the corner loop issues every corner's arms in order |
| EnvironmentEngine.StrokeAlpha | components/seasonal/EnvironmentEngine.ts:259 | the global alpha lies between half and the whole opacity |
| EnvironmentEngine.CrystalGrowth | components/seasonal/EnvironmentEngine.ts:244-277 | nothing is drawn exactly when the length is below 2; otherwise the alpha is within [opacity/2, opacity] and the branch calls are the top-level branches |
| EnvironmentEngine.SubBranches | components/seasonal/EnvironmentEngine.ts:298-311 | a branch has four children, or two at the last level, each one level deeper and at most half as long |
| EnvironmentEngine.OwnStroke | components/seasonal/EnvironmentEngine.ts:290-296 | a branch's own stroke starts at its point with its length and depth |
| EnvironmentEngine.Strokes | components/seasonal/EnvironmentEngine.ts:279-312 | a branch draws nothing exactly when it is too deep or shorter than 3; otherwise its own stroke comes first |
| EnvironmentEngine.ForestAppend | components/seasonal/EnvironmentEngine.ts:304-311 | the strokes of consecutive sibling branches concatenate |
| EnvironmentEngine.ForestSingle | components/seasonal/EnvironmentEngine.ts:304-311 | a single sibling draws what the branch draws |
| EnvironmentEngine.StrokesBounded | components/seasonal/EnvironmentEngine.ts:279-312 | every stroke lies between the branch's depth and maxDepth, is at least 3 long and no longer than the branch, and deeper strokes are at most half as long |
| EnvironmentEngine.ForestBounded | components/seasonal/EnvironmentEngine.ts:304-311 | the strokes of siblings at one depth stay within that depth plus the remaining levels, at least 3 long and within the siblings' cap |
| EnvironmentEngine.Pow4 | components/seasonal/EnvironmentEngine.ts:304-311 | a power of four is at least 1 |
| EnvironmentEngine.StrokeCount | components/seasonal/EnvironmentEngine.ts:279-312 | a branch with k levels left draws fewer than 4^k strokes |
| EnvironmentEngine.ForestCount | components/seasonal/EnvironmentEngine.ts:304-311 | n siblings with k levels left draw at most n * (4^k - 1) strokes |
| EnvironmentEngine.ColorWithAlpha | components/seasonal/EnvironmentEngine.ts:316-332 | a colour other than #RRGGBB or #RGB is returned verbatim, and a hex colour becomes rgba with the given alpha |
| EnvironmentEngine.Hex6 | components/seasonal/EnvironmentEngine.ts:318-322 | a printed colour is # followed by six digits |
| EnvironmentEngine.Hex6RoundTrip | components/seasonal/EnvironmentEngine.ts:318-322 | #rrggbb of three bytes converts to rgba of the same bytes |
| EnvironmentEngine.HexByteParsed | components/seasonal/EnvironmentEngine.ts:319-321 | a byte's two hex digits parse back to the byte |
| EnvironmentEngine.DoubledDigit | components/seasonal/EnvironmentEngine.ts:325-327 | a doubled hex digit parses to 17 times its value |
| EnvironmentEngine.ShortHexValue | components/seasonal/EnvironmentEngine.ts:324-329 | #abc gives each channel 17 times its digit |
| EnvironmentEngine.ShortHexExpands | components/seasonal/EnvironmentEngine.ts:318-329 | #abc and #aabbcc give the same colour |

## Left out

- Floating point: every number is an exact real or integer. IEEE rounding, NaN and Infinity are not modelled, except where a NaN from `parseInt` reaches an output string; there it is an Option `None`. Divisions that would give NaN or Infinity in the source carry a requirement that the divisor is non-zero. Examples are a zero canvas height, particle lifetime, flare interval or breathing period.
- The printing of non-integral numbers: `hexToRgba` takes the alpha's text as a parameter. `colorWithAlpha` returns its channels and alpha as a value rather than as the `rgba()` string. Only `lerpRgba`'s three-decimal alpha is printed, and only there is its text modelled.
- Canvas painting: gradients, ellipses, strokes, the per-type particle renderers and `drawParticle` (components/seasonal/SeasonalBackground.tsx:200-300). Only the draw-or-skip decisions are modelled. The heat-haze and wave-line effects of components/seasonal/EnvironmentEngine.ts:102-194 only paint, so they are not part of this model.
- `Math.random`, `Math.sin` and `Math.cos` are parameters with their ranges stated. Particle trajectories are not proved; only lifecycle, bounds and wrap properties are.
- ParticleEngine.Motion: the per-type movement formulas are modelled, but the contract states only what motion keeps and that fixed types stay put, not where a particle goes.
- EnvironmentEngine.Strokes: the fractal recursion is modelled as the list of strokes in call order, with the sibling calls folded through a list of branches. The angles and endpoints come from the `cos`/`sin` parameters and are not bounded.
- The wind timer of the seasonal background: the `setInterval` and nested `requestAnimationFrame` easing (components/seasonal/SeasonalBackground.tsx:366-381). The frame step reads the wind as a field and resets it on a rebuild. Resize handling, CSS custom properties and the `requestAnimationFrame` scheduling are also out. A frame's request for the next one is counted in a field instead.
- SeasonalBackground.MakeParticle: it requires a non-empty list of types and colours. Every configured animation has both (`ConfigsUsable`), so the source's empty-list `undefined` pick is not modelled.
- EnvironmentEngine.FogPool.Maintain: the fog count is a natural number. A negative or fractional `count`, which would make the JavaScript length assignment throw, is not modelled.
- EnvironmentEngine.CrystalGrowth: `armCount` is a natural number. A negative or fractional arm count is not modelled.
- String lengths count characters. JavaScript counts UTF-16 code units, which differs only outside the Basic Multilingual Plane.
- Time zones and daylight saving: local time is taken to have 24-hour days. Every day is 86 400 000 ms.
- Network, database and authentication: the `fetch` calls of the views, the Supabase client, and the awaited query execution in app/api/todos/route.ts. The GET route is modelled as the query it builds, a list of filters with their meaning as a predicate on a row, and as the answer a table of rows gives to it: the selected rows, newest first (`TodosRoute.Answer`). Error responses of the database, authentication, middleware and the icon script are not part of this model.
- TodosRoute.Answer: rows with equal `created_at` come back in table order; the database leaves their order unspecified, so the model fixes one of the orders it may return.
- Js.NumberOf: `Number` is modelled for its integer forms only: white space around the text, an empty text, a sign before decimal digits, and "0x", "0o" or "0b" digits. Fractions ("3.0"), exponents ("1e1"), "Infinity" and the other forms of a numeric literal read as NaN (None) in the model although JavaScript reads them as numbers.
- CalendarView.ParseYearMonth: through `Js.NumberOf`, a year or month written with a fraction or an exponent (such as "2024.0-03") reads as NaN here and as a number in JavaScript.
- TodosRoute.MonthEnd: the same narrowing of `Number` applies to the month parameter's two pieces.
- SeasonalBackground.HexToRgba: `parseInt` gives an exact integer here. For more than 13 hexadecimal digits JavaScript rounds it to a double before `>>` and `&`, which is not modelled.
- Civil.ParseIsoDate: expanded years (a sign and six digits) and the other strings that V8's fallback parser accepts read as an Invalid Date (None) here.
- Civil.MakeDate: a JavaScript Date holds only 8.64e15 ms either side of the epoch, about years -271 821 to 275 760. Beyond that, `new Date(y, m, d)` is an Invalid Date and its getters give NaN. Years are unbounded here, so every Date built is a real date.
- Civil.Carry: the same range limit applies to the day overflow; a carry past the Date range gives a real date here and an Invalid Date in JavaScript.
- TodosRoute.MonthEnd: for a month beyond the Date range (such as "300000-01"), JavaScript's last day is NaN and the end date ends in "-NaN"; the model prints the month's last calendar day.
- CalendarView.GetMonthGrid: for a month beyond the Date range, JavaScript's Dates are invalid and its loops push no cells; the model builds that month's grid.
- The exact-date table data/sekki-dates.json is not part of this model. It is a parameter (a map from year to term name to date).
- React rendering and markup: the calendar dots and overflow marker are modelled as values, not as markup. Pure presentation components (layout, login page, tab bar, task card, bottom sheet, progress ring) are not part of this model.
