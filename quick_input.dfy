/**
 * The quick-add bar: its text, the chosen date with the chip that chose
 * it, and the priority. The component's state hooks are the fields of a
 * Form object; the onAdd callback is the result of Submit. The clock is a
 * parameter.
 */
module QuickInput {
  import opened Js
  import opened Civil
  import opened Utils

  /** The priority the bar can hold. */
  datatype Priority = NoPriority | Low | Medium | High

  /** The string onAdd receives for a priority. */
  function PriorityName(p: Priority): string
  {
    match p
    case NoPriority => "none"
    case Low => "low"
    case Medium => "medium"
    case High => "high"
  }

  /** PRIORITY_CYCLE. */
  const PRIORITY_CYCLE: seq<Priority> := [NoPriority, Low, Medium, High]

  /** PRIORITY_CYCLE.indexOf(p). */
  function CycleIndex(p: Priority): (i: nat)
    ensures i < |PRIORITY_CYCLE| && PRIORITY_CYCLE[i] == p
  {
    match p
    case NoPriority => 0
    case Low => 1
    case Medium => 2
    case High => 3
  }

  /** cyclePriority's update: the entry after p in the cycle, wrapping round. */
  function NextPriority(p: Priority): (q: Priority)
    ensures CycleIndex(q) == (CycleIndex(p) + 1) % 4
  {
    PRIORITY_CYCLE[(CycleIndex(p) + 1) % |PRIORITY_CYCLE|]
  }

  /** Four presses bring every priority back; fewer never do. */
  lemma CycleOfFour(p: Priority)
    ensures NextPriority(NextPriority(NextPriority(NextPriority(p)))) == p
    ensures NextPriority(p) != p
    ensures NextPriority(NextPriority(p)) != p
    ensures NextPriority(NextPriority(NextPriority(p))) != p
  {
  }

  /** The order of the presses: none, low, medium, high, none. */
  lemma CycleOrder()
    ensures NextPriority(NoPriority) == Low && NextPriority(Low) == Medium
    ensures NextPriority(Medium) == High && NextPriority(High) == NoPriority
  {
  }

  const PLACEHOLDER_MORNING: string := "今日やること何がある？"
  const PLACEHOLDER_AFTERNOON: string := "午後のタスクを追加"
  const PLACEHOLDER_EVENING: string := "明日の自分に申し送り"

  /** getPlaceholderByTime: three texts for 5..10, 11..16 and the remaining hours. */
  function PlaceholderByTime(hour: int): (p: string)
    ensures p == PLACEHOLDER_MORNING <==> 5 <= hour <= 10
    ensures p == PLACEHOLDER_AFTERNOON <==> 11 <= hour <= 16
    ensures p == PLACEHOLDER_EVENING <==> hour < 5 || hour > 16
  {
    if 5 <= hour <= 10 then PLACEHOLDER_MORNING
    else if 11 <= hour <= 16 then PLACEHOLDER_AFTERNOON
    else PLACEHOLDER_EVENING
  }

  /** The chip that chose the date. */
  datatype Chip = Inbox | Today | Tomorrow | Pick

  /** What onAdd receives. */
  datatype Added = Added(text: string, date: Option<string>, priority: string)

  /** The day after today, as new Date(today) with setDate(getDate() + 1) makes it. */
  function TomorrowOf(today: ValidDate): (d: ValidDate)
    ensures DayNumber(d) == DayNumber(today) + 1
  {
    DayNumberNext(today);
    SetDate(today, today.day + 1)
  }

  class Form {
    var text: string
    var selectedDate: Option<string>
    var activeChip: Chip
    var priority: Priority
    var placeholder: string

    /** The initial state: no text, the inbox, no priority, no placeholder yet. */
    constructor()
      ensures text == "" && selectedDate == None && activeChip == Inbox
      ensures priority == NoPriority && placeholder == ""
    {
      text, selectedDate, activeChip := "", None, Inbox;
      priority, placeholder := NoPriority, "";
    }

    /** The mount effect: the placeholder for the hour. */
    method Mount(hour: int)
      modifies this
      ensures placeholder == PlaceholderByTime(hour)
      ensures text == old(text) && selectedDate == old(selectedDate)
      ensures activeChip == old(activeChip) && priority == old(priority)
    {
      placeholder := PlaceholderByTime(hour);
    }

    /** The input's onChange. */
    method SetText(value: string)
      modifies this
      ensures text == value
      ensures selectedDate == old(selectedDate) && activeChip == old(activeChip)
      ensures priority == old(priority) && placeholder == old(placeholder)
    {
      text := value;
    }

    /**
     * handleDateChip: the inbox clears the date, today and tomorrow set
     * their formatted dates, and pick only opens the date picker.
     */
    method DateChip(chip: Chip, today: ValidDate)
      modifies this
      ensures chip == Inbox ==> selectedDate == None && activeChip == Inbox
      ensures chip == Today ==> selectedDate == Some(FormatDate(today)) && activeChip == Today
      ensures chip == Tomorrow ==> selectedDate == Some(FormatDate(TomorrowOf(today))) && activeChip == Tomorrow
      ensures chip == Pick ==> selectedDate == old(selectedDate) && activeChip == old(activeChip)
      ensures text == old(text) && priority == old(priority) && placeholder == old(placeholder)
    {
      match chip
      case Inbox =>
        selectedDate := None;
        activeChip := Inbox;
      case Today =>
        selectedDate := Some(FormatDate(today));
        activeChip := Today;
      case Tomorrow =>
        var tomorrow := SetDate(today, today.day + 1);
        selectedDate := Some(FormatDate(tomorrow));
        activeChip := Tomorrow;
      case Pick =>
    }

    /** handleDatePickerChange: an empty value is ignored, any other is the date, chosen by pick. */
    method DatePickerChange(value: string)
      modifies this
      ensures value == "" ==> selectedDate == old(selectedDate) && activeChip == old(activeChip)
      ensures value != "" ==> selectedDate == Some(value) && activeChip == Pick
      ensures text == old(text) && priority == old(priority) && placeholder == old(placeholder)
    {
      if value != "" {
        selectedDate := Some(value);
        activeChip := Pick;
      }
    }

    /** cyclePriority. */
    method CyclePriority()
      modifies this
      ensures priority == NextPriority(old(priority))
      ensures text == old(text) && selectedDate == old(selectedDate)
      ensures activeChip == old(activeChip) && placeholder == old(placeholder)
    {
      var idx := CycleIndex(priority);
      priority := PRIORITY_CYCLE[(idx + 1) % |PRIORITY_CYCLE|];
    }

    /**
     * handleSubmit: blank text adds nothing and changes nothing; otherwise
     * the trimmed text is added with the date and the priority, and the
     * text and the priority are reset while the date and the chip stay.
     */
    method Submit() returns (added: Option<Added>)
      modifies this
      ensures AllSpace(old(text)) ==> added == None && text == old(text) && priority == old(priority)
      ensures !AllSpace(old(text)) ==>
                added == Some(Added(Trim(old(text)), old(selectedDate), PriorityName(old(priority))))
                && text == "" && priority == NoPriority
      ensures selectedDate == old(selectedDate) && activeChip == old(activeChip)
      ensures placeholder == old(placeholder)
    {
      var trimmed := Trim(text);
      TrimEmptyIffAllSpace(text);
      if trimmed == "" {
        return None;
      }
      added := Some(Added(trimmed, selectedDate, PriorityName(priority)));
      text := "";
      priority := NoPriority;
    }

    /** handleKeyDown: Enter submits, except while an input method is composing. */
    method KeyDown(key: string, isComposing: bool) returns (added: Option<Added>)
      modifies this
      ensures key != "Enter" || isComposing ==>
                added == None && text == old(text) && priority == old(priority)
      ensures key == "Enter" && !isComposing && AllSpace(old(text)) ==>
                added == None && text == old(text) && priority == old(priority)
      ensures key == "Enter" && !isComposing && !AllSpace(old(text)) ==>
                added == Some(Added(Trim(old(text)), old(selectedDate), PriorityName(old(priority))))
                && text == "" && priority == NoPriority
      ensures selectedDate == old(selectedDate) && activeChip == old(activeChip)
      ensures placeholder == old(placeholder)
    {
      added := None;
      if key == "Enter" && !isComposing {
        added := Submit();
      }
    }
  }

  /** A submitted text is never blank, and a second submit right after adds nothing. */
  method SubmitTwice(form: Form) returns (first: Option<Added>, second: Option<Added>)
    modifies form
    ensures first.Some? ==> Trim(first.value.text) == first.value.text && first.value.text != ""
    ensures second == None
  {
    first := form.Submit();
    if first.Some? {
      TrimOfTrim(old(form.text));
      TrimEmptyIffAllSpace(old(form.text));
    }
    second := form.Submit();
  }

  /** Trimming twice is trimming once. */
  lemma TrimOfTrim(s: string)
    ensures Trim(Trim(s)) == Trim(s)
  {
    TrimShape(s);
    var t := Trim(s);
    if t != [] {
      assert TrimStart(t) == t;
      assert TrimEnd(t) == t;
    }
  }
}
