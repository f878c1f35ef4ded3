/**
 * The today tab: the unfinished tasks first (overdue ones leading, then by
 * priority, then the newest), the finished ones after them (the most
 * recently finished first), the count of finished tasks, and the greeting.
 * The clock is a parameter.
 */
module TodayView {
  import opened Js
  import opened Civil
  import opened Sorting
  import opened Tasks
  import opened Utils

  predicate IsOpen(t: Task)
  {
    !t.done
  }

  predicate IsDone(t: Task)
  {
    t.done
  }

  /** `a.date ? isOverdue(a.date) : false`. */
  predicate Overdue(t: Task, now: LocalTime)
  {
    Truthy(t.date) && IsOverdue(t.date.value, now)
  }

  /**
   * The comparator of the unfinished tasks returns a value <= 0: a is
   * overdue and b is not, or both agree on being overdue and a has a better
   * rank, or the same rank and is not older.
   */
  predicate OpenBefore(now: LocalTime, a: Task, b: Task)
  {
    var ra := PriorityRank(a.priority);
    var rb := PriorityRank(b.priority);
    (Overdue(a, now) && !Overdue(b, now))
    || (Overdue(a, now) == Overdue(b, now) && (ra < rb || (ra == rb && b.createdAt - a.createdAt <= 0)))
  }

  /** `new Date(t.done_at ?? t.updated_at).getTime()`. */
  function DoneTime(t: Task): int
  {
    if t.doneAt.Some? then t.doneAt.value else t.updatedAt
  }

  /** The comparator of the finished tasks returns a value <= 0: a was not finished earlier than b. */
  predicate DoneBefore(a: Task, b: Task)
  {
    DoneTime(b) - DoneTime(a) <= 0
  }

  lemma OpenBeforeIsTotalPreorder(now: LocalTime)
    ensures TotalPreorder((a, b) => OpenBefore(now, a, b))
  {
  }

  lemma DoneBeforeIsTotalPreorder()
    ensures TotalPreorder(DoneBefore)
  {
  }

  /** The sorted unfinished tasks. */
  function SortedOpen(tasks: seq<Task>, now: LocalTime): (open: seq<Task>)
    ensures forall k | 0 <= k < |open| :: !open[k].done
  {
    OpenBeforeIsTotalPreorder(now);
    SortMembers(Filter(tasks, IsOpen), (a, b) => OpenBefore(now, a, b));
    Sort(Filter(tasks, IsOpen), (a, b) => OpenBefore(now, a, b))
  }

  /** The sorted finished tasks. */
  function SortedDone(tasks: seq<Task>): (finished: seq<Task>)
    ensures forall k | 0 <= k < |finished| :: finished[k].done
  {
    DoneBeforeIsTotalPreorder();
    SortMembers(Filter(tasks, IsDone), DoneBefore);
    Sort(Filter(tasks, IsDone), DoneBefore)
  }

  /**
   * sortedTasks: the sorted unfinished tasks, then the sorted finished
   * ones; a permutation of the tasks.
   */
  function SortedTasks(tasks: seq<Task>, now: LocalTime): (sorted: seq<Task>)
    ensures multiset(sorted) == multiset(tasks)
  {
    OpenDoneSplit(tasks);
    SortedOpen(tasks, now) + SortedDone(tasks)
  }

  /** The unfinished and the finished tasks together are all the tasks. */
  lemma OpenDoneSplit(tasks: seq<Task>)
    ensures multiset(Filter(tasks, IsOpen)) + multiset(Filter(tasks, IsDone)) == multiset(tasks)
  {
    forall t
      ensures (multiset(Filter(tasks, IsOpen)) + multiset(Filter(tasks, IsDone)))[t] == multiset(tasks)[t]
    {
      FilterMultiset(tasks, IsOpen, t);
      FilterMultiset(tasks, IsDone, t);
    }
  }

  /** Every unfinished task comes before every finished one. */
  lemma OpenBeforeDone(tasks: seq<Task>, now: LocalTime)
    ensures var s := SortedTasks(tasks, now);
            forall i, j | 0 <= i < j < |s| :: IsOpen(s[j]) ==> IsOpen(s[i])
  {
    AllKept(Filter(tasks, IsOpen), SortedOpen(tasks, now), IsOpen);
    AllKept(Filter(tasks, IsDone), SortedDone(tasks), IsDone);
    OpenPrefix(SortedOpen(tasks, now), SortedDone(tasks));
  }

  /** A permutation of elements that all satisfy a predicate satisfies it everywhere. */
  lemma AllKept(f: seq<Task>, r: seq<Task>, keep: Task -> bool)
    requires forall k | 0 <= k < |f| :: keep(f[k])
    requires multiset(r) == multiset(f)
    ensures forall k | 0 <= k < |r| :: keep(r[k])
  {
    forall k | 0 <= k < |r|
      ensures keep(r[k])
    {
      assert r[k] in multiset(f);
    }
  }

  /** Open tasks followed by done tasks: no open task comes after a done one. */
  lemma OpenPrefix(o: seq<Task>, d: seq<Task>)
    requires forall k | 0 <= k < |o| :: IsOpen(o[k])
    requires forall k | 0 <= k < |d| :: IsDone(d[k])
    ensures var s := o + d;
            forall i, j | 0 <= i < j < |s| :: IsOpen(s[j]) ==> IsOpen(s[i])
  {
    var s := o + d;
    assert forall k | 0 <= k < |o| :: s[k] == o[k];
    assert forall k | |o| <= k < |s| :: s[k] == d[k - |o|];
  }

  /**
   * The unfinished part is ordered: overdue tasks lead; with the same
   * overdue status the rank never falls back; with the same rank too the
   * creation time never rises.
   */
  lemma OpenOrder(tasks: seq<Task>, now: LocalTime)
    ensures var o := SortedOpen(tasks, now);
            forall i, j | 0 <= i < j < |o| ::
              (Overdue(o[j], now) ==> Overdue(o[i], now))
              && (Overdue(o[i], now) == Overdue(o[j], now) ==>
                    PriorityRank(o[i].priority) <= PriorityRank(o[j].priority))
              && ((Overdue(o[i], now) == Overdue(o[j], now)
                   && PriorityRank(o[i].priority) == PriorityRank(o[j].priority))
                  ==> o[i].createdAt >= o[j].createdAt)
  {
    var o := SortedOpen(tasks, now);
    forall i, j | 0 <= i < j < |o|
      ensures OpenBefore(now, o[i], o[j])
    {
      var le := (a, b) => OpenBefore(now, a, b);
      assert le(o[i], o[j]);
    }
  }

  /** The finished part runs from the most recently finished. */
  lemma DoneOrder(tasks: seq<Task>)
    ensures var d := SortedDone(tasks);
            forall i, j | 0 <= i < j < |d| :: DoneTime(d[i]) >= DoneTime(d[j])
  {
  }

  /** completedCount: the number of finished tasks. */
  function CompletedCount(tasks: seq<Task>): (n: nat)
    ensures n <= |tasks|
  {
    |Filter(tasks, IsDone)|
  }

  /** The finished and the unfinished tasks together are all the tasks. */
  lemma {:induction false} CountsAddUp(tasks: seq<Task>)
    ensures CompletedCount(tasks) + |Filter(tasks, IsOpen)| == |tasks|
  {
    if tasks != [] {
      CountsAddUp(tasks[1..]);
    }
  }

  /** handleCompleteClick: a finished task is ignored, any other awaits confirmation. */
  function CompleteClick(confirmTask: Option<Task>, task: Task): (r: Option<Task>)
    ensures task.done ==> r == confirmTask
    ensures !task.done ==> r == Some(task)
  {
    if task.done then confirmTask else Some(task)
  }

  /** greeting.replace(/、$/, ''): a trailing '、' is dropped. */
  function DropTrailingComma(s: string): (r: string)
    ensures |s| > 0 && s[|s| - 1] == '、' ==> r == s[..|s| - 1]
    ensures (|s| == 0 || s[|s| - 1] != '、') ==> r == s
  {
    if |s| > 0 && s[|s| - 1] == '、' then s[..|s| - 1] else s
  }

  /** The displayed greeting: getGreeting('') without its comma. */
  function DisplayGreeting(hour: int): (g: string)
    ensures g == "おはよう" <==> IsMorning(hour)
    ensures g == "おつかれさま" <==> !IsMorning(hour)
  {
    var greeting := Greeting("", hour);
    assert MORNING_GREETING + "" == MORNING_GREETING && LATER_GREETING + "" == LATER_GREETING;
    DropTrailingComma(greeting)
  }
}
