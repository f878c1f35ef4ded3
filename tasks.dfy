/**
 * The task record the views and the API exchange, and the priority order
 * the views sort by.
 */
module Tasks {
  import opened Js

  /**
   * A row of the todos table. `date` is a "YYYY-MM-DD" string or null (the
   * inbox); the three timestamps are held as the milliseconds their ISO
   * strings denote.
   */
  datatype Task = Task(
    id: string,
    text: string,
    date: Option<string>,
    priority: string,
    done: bool,
    doneAt: Option<int>,
    createdAt: int,
    updatedAt: int,
    sortOrder: int)

  /** PRIORITY_ORDER[p] ?? 3: high before medium before low before anything else. */
  function PriorityRank(p: string): (r: nat)
    ensures r <= 3
    ensures r == 0 <==> p == "high"
    ensures r == 1 <==> p == "medium"
    ensures r == 2 <==> p == "low"
  {
    if p == "high" then 0
    else if p == "medium" then 1
    else if p == "low" then 2
    else 3
  }

  /** JavaScript truthiness of a nullable string: neither null nor "". */
  predicate Truthy(s: Option<string>)
  {
    s.Some? && s.value != ""
  }
}
