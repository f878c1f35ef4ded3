/**
 * The inbox tab: the unfinished tasks without a date, highest priority
 * first and, within a priority, the newest first.
 */
module InboxView {
  import opened Js
  import opened Sorting
  import opened Tasks

  /** The inbox filter: no date and not done. */
  predicate IsInbox(t: Task)
  {
    t.date.None? && !t.done
  }

  /** The inbox comparator returns a value <= 0: a better rank, or the same rank and not older. */
  predicate InboxBefore(a: Task, b: Task)
  {
    var ra := PriorityRank(a.priority);
    var rb := PriorityRank(b.priority);
    ra < rb || (ra == rb && b.createdAt - a.createdAt <= 0)
  }

  lemma InboxBeforeIsTotalPreorder()
    ensures TotalPreorder(InboxBefore)
  {
  }

  /** inboxTasks: a copy of the tasks, filtered and sorted. */
  function InboxTasks(tasks: seq<Task>): (inbox: seq<Task>)
    ensures forall k | 0 <= k < |inbox| :: IsInbox(inbox[k])
    ensures SortedBy(inbox, InboxBefore)
  {
    InboxBeforeIsTotalPreorder();
    SortMembers(Filter(tasks, IsInbox), InboxBefore);
    Sort(Filter(tasks, IsInbox), InboxBefore)
  }

  /** The inbox holds each inbox task as often as the input does, and nothing else. */
  lemma InboxTasksExactly(tasks: seq<Task>)
    ensures forall t :: multiset(InboxTasks(tasks))[t] == if IsInbox(t) then multiset(tasks)[t] else 0
    ensures forall t :: t in InboxTasks(tasks) <==> t in tasks && IsInbox(t)
  {
    forall t
      ensures multiset(InboxTasks(tasks))[t] == if IsInbox(t) then multiset(tasks)[t] else 0
    {
      FilterMultiset(tasks, IsInbox, t);
    }
  }

  /**
   * The inbox order: ranks never fall back (high, medium, low, then
   * anything else), and within a rank creation times never rise.
   */
  lemma InboxOrder(tasks: seq<Task>)
    ensures var r := InboxTasks(tasks);
            forall i, j | 0 <= i < j < |r| ::
              PriorityRank(r[i].priority) <= PriorityRank(r[j].priority)
              && (PriorityRank(r[i].priority) == PriorityRank(r[j].priority) ==> r[i].createdAt >= r[j].createdAt)
  {
  }

  /** The empty state shows exactly when no task belongs in the inbox. */
  lemma EmptyInbox(tasks: seq<Task>)
    ensures InboxTasks(tasks) == [] <==> forall k | 0 <= k < |tasks| :: !IsInbox(tasks[k])
  {
    InboxTasksExactly(tasks);
    if InboxTasks(tasks) != [] {
      assert InboxTasks(tasks)[0] in InboxTasks(tasks);
    }
  }
}
