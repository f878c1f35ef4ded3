/**
 * The task detail sheet: an editable copy of a task's text, priority and
 * date, a flag for unsaved edits, and the save that sends only the fields
 * that differ. The component's state hooks are the fields of a Detail
 * object; the onUpdate, onClose and onDelete callbacks are what its methods
 * return. The clock is a parameter.
 */
module TaskDetail {
  import opened Js
  import opened Civil
  import opened Tasks
  import opened Utils

  /** Partial<Task> with the fields handleSave can set; None is an absent key. */
  datatype Updates = Updates(
    text: Option<string>,
    priority: Option<string>,
    date: Option<Option<string>>,
    updatedAt: Option<int>)

  /** Object.keys(updates).length > 0. */
  predicate HasKeys(u: Updates)
  {
    u.text.Some? || u.priority.Some? || u.date.Some? || u.updatedAt.Some?
  }

  /** The callbacks a save or a backdrop click makes: onUpdate(id, updates) if any, then onClose if closed. */
  datatype SaveOutcome = SaveOutcome(update: Option<(string, Updates)>, closed: bool)

  /** The edited fields that differ from the task's, without the timestamp. */
  function Diff(task: Task, trimmed: string, priority: string, date: Option<string>): (u: Updates)
    ensures u.text.Some? <==> trimmed != task.text
    ensures u.priority.Some? <==> priority != task.priority
    ensures u.date.Some? <==> date != task.date
    ensures u.updatedAt.None?
    ensures u.text.Some? ==> u.text.value == trimmed
    ensures u.priority.Some? ==> u.priority.value == priority
    ensures u.date.Some? ==> u.date.value == date
  {
    Updates(
      if trimmed != task.text then Some(trimmed) else None,
      if priority != task.priority then Some(priority) else None,
      if date != task.date then Some(date) else None,
      None)
  }

  /**
   * What handleSave does: nothing without a task or with blank text;
   * otherwise onUpdate with the differing fields and the time, when any
   * field differs, and onClose. `now` is the time in milliseconds that
   * `new Date().toISOString()` prints.
   */
  function SaveOf(task: Option<Task>, text: string, priority: string, date: Option<string>, now: int): (o: SaveOutcome)
    ensures o.closed <==> task.Some? && !AllSpace(text)
    ensures o.update.Some? <==>
              task.Some? && !AllSpace(text)
              && (Trim(text) != task.value.text || priority != task.value.priority || date != task.value.date)
    ensures o.update.Some? ==> o.update.value.0 == task.value.id
    ensures o.update.Some? ==> o.update.value.1 == Diff(task.value, Trim(text), priority, date).(updatedAt := Some(now))
  {
    TrimEmptyIffAllSpace(text);
    if task.None? || Trim(text) == "" then SaveOutcome(None, false)
    else
      var d := Diff(task.value, Trim(text), priority, date);
      if HasKeys(d) then SaveOutcome(Some((task.value.id, d.(updatedAt := Some(now)))), true)
      else SaveOutcome(None, true)
  }

  /** Saving the task's own values unchanged only closes the sheet. */
  lemma SaveUnchanged(task: Task, now: int)
    requires !AllSpace(task.text) && Trim(task.text) == task.text
    ensures SaveOf(Some(task), task.text, task.priority, task.date, now) == SaveOutcome(None, true)
  {
    TrimEmptyIffAllSpace(task.text);
  }

  /** The chip dates: today, tomorrow and a week from today. */
  function DaysAfter(today: ValidDate, n: nat): (d: ValidDate)
    ensures DayNumber(d) == DayNumber(today) + n
  {
    DayNumberOfCarry(today.year, today.month, today.day + n);
    DayNumberOfCarry(today.year, today.month, today.day);
    SetDate(today, today.day + n)
  }

  /** dateLabel: "YYYY-MM-DD".slice(5) with its first '-' made '/'; no label for a null or empty date. */
  function DateLabel(date: Option<string>): (shown: Option<string>)
    ensures shown.Some? <==> date.Some? && date.value != ""
  {
    if date.None? || date.value == "" then None
    else
      var s := date.value;
      Some(ReplaceFirst(if |s| <= 5 then "" else s[5..], '-', "/"))
  }

  /** The label of a formatted date is its month and day as "MM/DD". */
  lemma DateLabelOfFormatted(d: ValidDate)
    requires 1000 <= d.year <= 9999
    ensures DateLabel(Some(FormatDate(d))) == Some(Pad2(d.month + 1) + "/" + Pad2(d.day))
  {
    var y, m, dd := IntToDecimal(d.year), Pad2(d.month + 1), Pad2(d.day);
    assert FormatDate(d) == y + "-" + m + "-" + dd;
    assert |y| == 4 by {
      FourDigits(d.year);
    }
    assert '-' !in m by {
      TwoDigits(d.month + 1);
    }
    DateLabelOfParts(FormatDate(d), y, m, dd);
  }

  /** The label of y + "-" + m + "-" + dd, with a four-character y and no '-' in m. */
  lemma DateLabelOfParts(s: string, y: string, m: string, dd: string)
    requires |y| == 4 && '-' !in m && s == y + "-" + m + "-" + dd
    ensures DateLabel(Some(s)) == Some(m + "/" + dd)
  {
    assert s[5..] == m + "-" + dd;
    ReplaceFirstAfter(m, dd);
  }

  /** Replacing the first '-' of m + "-" + dd, when m has none. */
  lemma {:induction false} ReplaceFirstAfter(m: string, dd: string)
    requires '-' !in m
    ensures ReplaceFirst(m + "-" + dd, '-', "/") == m + "/" + dd
  {
    if m != [] {
      assert (m + "-" + dd)[1..] == m[1..] + "-" + dd;
      ReplaceFirstAfter(m[1..], dd);
    }
  }

  class Detail {
    var text: string
    var priority: string
    var date: Option<string>
    var showDeleteConfirm: bool
    var hasChanges: bool

    constructor()
      ensures text == "" && priority == "none" && date == None
      ensures !showDeleteConfirm && !hasChanges
    {
      text, priority, date := "", "none", None;
      showDeleteConfirm, hasChanges := false, false;
    }

    /** The sync effect: a loaded task's fields are copied and nothing counts as edited. */
    method Load(task: Option<Task>)
      modifies this
      ensures task.Some? ==> text == task.value.text && priority == task.value.priority
                             && date == task.value.date && !hasChanges
      ensures task.None? ==> text == old(text) && priority == old(priority)
                             && date == old(date) && hasChanges == old(hasChanges)
      ensures showDeleteConfirm == old(showDeleteConfirm)
    {
      if task.Some? {
        text := task.value.text;
        priority := task.value.priority;
        date := task.value.date;
        hasChanges := false;
      }
    }

    /** handleTextChange. */
    method TextChange(value: string)
      modifies this
      ensures text == value && hasChanges
      ensures priority == old(priority) && date == old(date) && showDeleteConfirm == old(showDeleteConfirm)
    {
      text := value;
      hasChanges := true;
    }

    /** handlePriorityChange. */
    method PriorityChange(p: string)
      modifies this
      ensures priority == p && hasChanges
      ensures text == old(text) && date == old(date) && showDeleteConfirm == old(showDeleteConfirm)
    {
      priority := p;
      hasChanges := true;
    }

    /** handleDateChip: one of the chip dates, or null for the inbox. */
    method DateChip(newDate: Option<string>)
      modifies this
      ensures date == newDate && hasChanges
      ensures text == old(text) && priority == old(priority) && showDeleteConfirm == old(showDeleteConfirm)
    {
      date := newDate;
      hasChanges := true;
    }

    /** handleDatePickerChange: an empty value is ignored. */
    method DatePickerChange(value: string)
      modifies this
      ensures value != "" ==> date == Some(value) && hasChanges
      ensures value == "" ==> date == old(date) && hasChanges == old(hasChanges)
      ensures text == old(text) && priority == old(priority) && showDeleteConfirm == old(showDeleteConfirm)
    {
      if value != "" {
        date := Some(value);
        hasChanges := true;
      }
    }

    /** handleSave: the updates object is filled field by field. */
    method Save(task: Option<Task>, now: int) returns (outcome: SaveOutcome)
      ensures outcome == SaveOf(task, text, priority, date, now)
    {
      if task.None? {
        return SaveOutcome(None, false);
      }
      var trimmed := Trim(text);
      if trimmed == "" {
        return SaveOutcome(None, false);
      }
      var t := task.value;
      var updates := Updates(None, None, None, None);
      if trimmed != t.text {
        updates := updates.(text := Some(trimmed));
      }
      if priority != t.priority {
        updates := updates.(priority := Some(priority));
      }
      if date != t.date {
        updates := updates.(date := Some(date));
      }
      outcome := SaveOutcome(None, true);
      if HasKeys(updates) {
        updates := updates.(updatedAt := Some(now));
        outcome := SaveOutcome(Some((t.id, updates)), true);
      }
    }

    /** handleDelete: ask for confirmation. */
    method Delete()
      modifies this
      ensures showDeleteConfirm
      ensures text == old(text) && priority == old(priority) && date == old(date) && hasChanges == old(hasChanges)
    {
      showDeleteConfirm := true;
    }

    /** confirmDelete: onDelete(id), hide the confirmation, onClose; nothing without a task. */
    method ConfirmDelete(task: Option<Task>) returns (deleted: Option<string>, closed: bool)
      modifies this
      ensures task.None? ==> deleted == None && !closed && showDeleteConfirm == old(showDeleteConfirm)
      ensures task.Some? ==> deleted == Some(task.value.id) && closed && !showDeleteConfirm
      ensures text == old(text) && priority == old(priority) && date == old(date) && hasChanges == old(hasChanges)
    {
      if task.None? {
        return None, false;
      }
      deleted := Some(task.value.id);
      showDeleteConfirm := false;
      closed := true;
    }

    /** handleBackdropClick: a click on the backdrop itself saves unsaved edits, or just closes. */
    method BackdropClick(task: Option<Task>, onBackdrop: bool, now: int) returns (outcome: SaveOutcome)
      ensures !onBackdrop ==> outcome == SaveOutcome(None, false)
      ensures onBackdrop && hasChanges ==> outcome == SaveOf(task, text, priority, date, now)
      ensures onBackdrop && !hasChanges ==> outcome == SaveOutcome(None, true)
    {
      outcome := SaveOutcome(None, false);
      if onBackdrop {
        if hasChanges {
          outcome := Save(task, now);
        } else {
          outcome := SaveOutcome(None, true);
        }
      }
    }
  }

  /** Loading a task and saving at once only closes the sheet: no edit, no update. */
  method LoadThenSave(task: Task, now: int) returns (outcome: SaveOutcome)
    requires !AllSpace(task.text) && Trim(task.text) == task.text
    ensures outcome == SaveOutcome(None, true)
  {
    var d := new Detail();
    d.Load(Some(task));
    outcome := d.Save(Some(task), now);
    SaveUnchanged(task, now);
  }
}
