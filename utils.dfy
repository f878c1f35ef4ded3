/**
 * The small helpers of the task list: the greeting and the input
 * placeholder chosen by the hour, "YYYY-MM-DD" formatting, the overdue test
 * and label, and the class-name joiner cn. The clock is a parameter: the
 * hour of the day, or the local time `now`.
 */
module Utils {
  import opened Js
  import opened Civil

  // ---------------------------------------------------------------------
  // Texts by the hour
  // ---------------------------------------------------------------------

  const MORNING_GREETING: string := "おはよう、"
  const LATER_GREETING: string := "おつかれさま、"

  predicate IsMorning(hour: int)
  {
    5 <= hour <= 10
  }

  /** getGreeting: the morning greeting from 5:00 to 10:59, the other one at every other hour. */
  function Greeting(name: string, hour: int): (g: string)
    ensures g == MORNING_GREETING + name <==> IsMorning(hour)
    ensures g == LATER_GREETING + name <==> !IsMorning(hour)
  {
    assert (MORNING_GREETING + name)[1] != (LATER_GREETING + name)[1];
    if IsMorning(hour) then MORNING_GREETING + name else LATER_GREETING + name
  }

  const MORNING_PLACEHOLDER: string := "今日やることを書いてみよう"
  const AFTERNOON_PLACEHOLDER: string := "午後もがんばろう"
  const EVENING_PLACEHOLDER: string := "明日の準備をしておこう"

  /** getPlaceholder: three texts for 5..10, 11..16 and the remaining hours. */
  function Placeholder(hour: int): (p: string)
    ensures p == MORNING_PLACEHOLDER <==> 5 <= hour <= 10
    ensures p == AFTERNOON_PLACEHOLDER <==> 11 <= hour <= 16
    ensures p == EVENING_PLACEHOLDER <==> hour < 5 || hour > 16
  {
    if 5 <= hour <= 10 then MORNING_PLACEHOLDER
    else if 11 <= hour <= 16 then AFTERNOON_PLACEHOLDER
    else EVENING_PLACEHOLDER
  }

  // ---------------------------------------------------------------------
  // formatDate
  // ---------------------------------------------------------------------

  /** String(n).padStart(2, "0"). */
  function Pad2(n: nat): string
  {
    PadStart2(NatToDecimal(n))
  }

  /** formatDate: `${year}-${month + 1}-${day}` with month and day padded to two digits. */
  function FormatDate(d: ValidDate): (s: string)
    ensures 1000 <= d.year <= 9999 ==> |s| == 10 && s[4] == '-' && s[7] == '-'
  {
    FourDigits(d.year);
    TwoDigits(d.month + 1);
    TwoDigits(d.day);
    IntToDecimal(d.year) + "-" + Pad2(d.month + 1) + "-" + Pad2(d.day)
  }

  /** A number of four digits prints as four digits. */
  lemma FourDigits(n: int)
    ensures 1000 <= n <= 9999 ==> |IntToDecimal(n)| == 4
  {
    if 1000 <= n <= 9999 {
      assert |NatToDecimal(n / 10)| == 3 by {
        assert |NatToDecimal(n / 100)| == 2;
      }
    }
  }

  /** Two printed digits read back as their number. */
  lemma TwoDigitsValue(n: nat)
    requires n < 100
    ensures AllDigits(Pad2(n)) && DecimalValue(Pad2(n)) == n
  {
    TwoDigits(n);
    var s := Pad2(n);
    var hi, lo := DigitChar(n / 10), DigitChar(n % 10);
    assert s == [hi, lo];
    assert s[..1] == [hi];
    assert DecimalValue(s[..1]) == n / 10 by {
      assert s[..1][..0] == [];
    }
    assert DecimalValue(s) == DecimalValue(s[..1]) * 10 + DigitValue(lo);
  }

  /** A formatted date is the year's four digits, '-', the month's two, '-', the day's two. */
  lemma FormatDateFields(d: ValidDate)
    requires 1000 <= d.year <= 9999
    ensures var s := FormatDate(d);
            && |s| == 10 && s[4] == '-' && s[7] == '-'
            && s[..4] == NatToDecimal(d.year) && s[5..7] == Pad2(d.month + 1) && s[8..] == Pad2(d.day)
  {
    FourDigits(d.year);
    TwoDigits(d.month + 1);
    TwoDigits(d.day);
    ParseParts(FormatDate(d), IntToDecimal(d.year), Pad2(d.month + 1), Pad2(d.day));
  }

  /** Reading a formatted date back, as new Date(s + "T00:00:00") does, gives the date again. */
  lemma FormatDateRoundTrip(d: ValidDate)
    requires 1000 <= d.year <= 9999
    ensures ParseIsoDate(FormatDate(d)) == Some(d)
  {
    var s := FormatDate(d);
    FormatDateFields(d);
    DecimalRoundTrip(d.year);
    TwoDigitsValue(d.month + 1);
    TwoDigitsValue(d.day);
    assert DecimalValue(s[..4]) == d.year && DecimalValue(s[5..7]) == d.month + 1 && DecimalValue(s[8..]) == d.day;
    assert Carry(d.year, d.month, d.day) == d;
  }

  /** A string made of four digits, '-', two digits, '-', two digits parses field by field. */
  lemma ParseParts(s: string, y: string, m: string, dd: string)
    requires |y| == 4 && |m| == 2 && |dd| == 2
    requires s == y + "-" + m + "-" + dd
    ensures s[..4] == y && s[5..7] == m && s[8..] == dd
    ensures |s| == 10 && s[4] == '-' && s[7] == '-'
  {
  }

  // ---------------------------------------------------------------------
  // Overdue
  // ---------------------------------------------------------------------

  /**
   * isOverdue: the date string, read as local midnight, is before today's
   * midnight. An unreadable string is an Invalid Date, and a comparison
   * with NaN is false.
   */
  predicate IsOverdue(dateStr: string, now: LocalTime)
    ensures IsOverdue(dateStr, now) <==>
              ParseIsoDate(dateStr).Some? && DayNumber(ParseIsoDate(dateStr).value) < DayNumber(now.date)
  {
    match ParseIsoDate(dateStr)
    case None => false
    case Some(target) => MidnightMs(target) < MidnightMs(now.date)
  }

  /** Today's own date string is not overdue. */
  lemma TodayNotOverdue(now: LocalTime)
    requires 1000 <= now.date.year <= 9999
    ensures !IsOverdue(FormatDate(now.date), now)
  {
    FormatDateRoundTrip(now.date);
  }

  const YESTERDAY_LABEL: string := "昨日から持ち越し"
  const DAYS_AGO_SUFFIX: string := "日前から持ち越し"

  /**
   * Math.floor((today - target) / 86 400 000): whole days between the two
   * midnights, or NaN (None) for an unreadable date string.
   */
  function DiffDays(dateStr: string, now: LocalTime): (n: Option<int>)
    ensures n.Some? <==> ParseIsoDate(dateStr).Some?
    ensures n.Some? ==> n.value == DayNumber(now.date) - DayNumber(ParseIsoDate(dateStr).value)
  {
    match ParseIsoDate(dateStr)
    case None => None
    case Some(target) =>
      var diffMs := MidnightMs(now.date) - MidnightMs(target);
      assert diffMs == (DayNumber(now.date) - DayNumber(target)) * MS_PER_DAY;
      Some(diffMs / MS_PER_DAY)
  }

  /**
   * getOverdueLabel: "" for a date today or later, the yesterday label for
   * one day, `${n}日前から持ち越し` for more; an unreadable date prints
   * NaN days.
   */
  function OverdueLabel(dateStr: string, now: LocalTime): (text: string)
    ensures text == "" <==> DiffDays(dateStr, now).Some? && DiffDays(dateStr, now).value <= 0
    ensures text == YESTERDAY_LABEL <==> DiffDays(dateStr, now) == Some(1)
    ensures DiffDays(dateStr, now).Some? && DiffDays(dateStr, now).value >= 2 ==>
              text == NatToDecimal(DiffDays(dateStr, now).value) + DAYS_AGO_SUFFIX
    ensures DiffDays(dateStr, now).None? ==> text == "NaN" + DAYS_AGO_SUFFIX
  {
    match DiffDays(dateStr, now)
    case None => "NaN" + DAYS_AGO_SUFFIX
    case Some(n) =>
      if n <= 0 then ""
      else if n == 1 then YESTERDAY_LABEL
      else
        assert (NatToDecimal(n) + DAYS_AGO_SUFFIX)[|NatToDecimal(n)|] == '日';
        assert YESTERDAY_LABEL[0] == '昨';
        NatToDecimal(n) + DAYS_AGO_SUFFIX
  }

  /** For a readable date the label is shown exactly when the date is overdue. */
  lemma LabelIffOverdue(dateStr: string, now: LocalTime)
    requires ParseIsoDate(dateStr).Some?
    ensures OverdueLabel(dateStr, now) != "" <==> IsOverdue(dateStr, now)
  {
  }

  /** An unreadable date is not overdue, yet gets a label. */
  lemma UnreadableDateLabel(dateStr: string, now: LocalTime)
    requires ParseIsoDate(dateStr).None?
    ensures !IsOverdue(dateStr, now) && OverdueLabel(dateStr, now) == "NaN" + DAYS_AGO_SUFFIX
  {
  }

  // ---------------------------------------------------------------------
  // cn
  // ---------------------------------------------------------------------

  /** A cn argument: a class string, or false/null/undefined (None). */
  type ClassArg = Option<string>

  /** The arguments filter(Boolean) keeps, in their order. */
  function Kept(classes: seq<ClassArg>): (kept: seq<string>)
    ensures |kept| <= |classes|
    ensures forall k | 0 <= k < |kept| :: kept[k] != ""
  {
    if classes == [] then []
    else if classes[0].Some? && classes[0].value != "" then [classes[0].value] + Kept(classes[1..])
    else Kept(classes[1..])
  }

  /** Array#join with a one-character separator. */
  function Join(parts: seq<string>, sep: char): (s: string)
  {
    if parts == [] then ""
    else if |parts| == 1 then parts[0]
    else parts[0] + [sep] + Join(parts[1..], sep)
  }

  /** cn: the truthy arguments joined with single spaces. */
  function Cn(classes: seq<ClassArg>): (s: string)
    ensures s == "" <==> Kept(classes) == []
  {
    JoinEmpty(Kept(classes), ' ');
    Join(Kept(classes), ' ')
  }

  /** A join of non-empty parts is empty only when there are no parts. */
  lemma JoinEmpty(parts: seq<string>, sep: char)
    requires forall k | 0 <= k < |parts| :: parts[k] != ""
    ensures Join(parts, sep) == "" <==> parts == []
  {
    if |parts| >= 2 {
      assert |Join(parts, sep)| >= |parts[0]|;
    }
  }

  /** Splitting a join at the separator gives the parts back, when none contains it. */
  lemma {:induction false} SplitJoin(parts: seq<string>, sep: char)
    requires |parts| >= 1
    requires forall k | 0 <= k < |parts| :: sep !in parts[k]
    ensures Split(Join(parts, sep), sep) == parts
  {
    if |parts| == 1 {
      SplitWithout(parts[0], sep);
    } else {
      SplitJoin(parts[1..], sep);
      SplitOnFirst(parts[0], sep, Join(parts[1..], sep));
    }
  }

  /**
   * The output of cn, split at spaces, is exactly the truthy arguments in
   * their order, when no argument contains a space.
   */
  lemma CnSplits(classes: seq<ClassArg>)
    requires Kept(classes) != []
    requires forall k | 0 <= k < |classes| :: classes[k].Some? ==> ' ' !in classes[k].value
    ensures Split(Cn(classes), ' ') == Kept(classes)
  {
    KeptFrom(classes);
    SplitJoin(Kept(classes), ' ');
  }

  /** Every kept class is one of the arguments. */
  lemma {:induction false} KeptFrom(classes: seq<ClassArg>)
    ensures forall k | 0 <= k < |Kept(classes)| :: Some(Kept(classes)[k]) in classes
  {
    if classes != [] {
      KeptFrom(classes[1..]);
      forall k | 0 <= k < |Kept(classes)|
        ensures Some(Kept(classes)[k]) in classes
      {
        if classes[0].Some? && classes[0].value != "" {
          if k > 0 {
            assert Some(Kept(classes[1..])[k - 1]) in classes[1..];
          }
        } else {
          assert Some(Kept(classes[1..])[k]) in classes[1..];
        }
      }
    }
  }

  /** cn of two argument lists: the two outputs joined by one space, or either alone. */
  lemma {:induction false} CnAppend(a: seq<ClassArg>, b: seq<ClassArg>)
    ensures Cn(a + b) == if Cn(a) == "" then Cn(b) else if Cn(b) == "" then Cn(a) else Cn(a) + " " + Cn(b)
  {
    KeptAppend(a, b);
    JoinAppend(Kept(a), Kept(b), ' ');
  }

  lemma {:induction false} KeptAppend(a: seq<ClassArg>, b: seq<ClassArg>)
    ensures Kept(a + b) == Kept(a) + Kept(b)
  {
    if a != [] {
      assert (a + b)[1..] == a[1..] + b;
      KeptAppend(a[1..], b);
    } else {
      assert a + b == b;
    }
  }

  lemma {:induction false} JoinAppend(x: seq<string>, y: seq<string>, sep: char)
    ensures Join(x + y, sep) ==
              if x == [] then Join(y, sep) else if y == [] then Join(x, sep) else Join(x, sep) + [sep] + Join(y, sep)
  {
    if x == [] {
      assert x + y == y;
    } else if y == [] {
      assert x + y == x;
    } else if |x| == 1 {
      assert (x + y)[1..] == y;
    } else {
      assert (x + y)[1..] == x[1..] + y;
      JoinAppend(x[1..], y, sep);
    }
  }
}
