/**
 * The pure part of the task store (src/services/TaskService.ts): the `find`,
 * `findIndex` and `filter` expressions it evaluates over its task list.
 */
module TaskLists {
  import opened Tasks

  /** The span from the weekly query's start to its end bound: six days. */
  const WeekSpanMs: int := 6 * DayMs

  // ---------------------------------------------------------------------------
  // findIndex / find by id
  // ---------------------------------------------------------------------------

  /** The index of the first task with the given id, or None when no task has it. */
  function FirstIndexOf(tasks: seq<Task>, id: string): (r: Option<nat>)
    ensures r.Some? ==> r.value < |tasks| && tasks[r.value].id == id
    ensures r.Some? ==> forall j :: 0 <= j < r.value ==> tasks[j].id != id
    ensures r.None? <==> forall j :: 0 <= j < |tasks| ==> tasks[j].id != id
  {
    if tasks == [] then None
    else if tasks[0].id == id then Some(0)
    else match FirstIndexOf(tasks[1..], id)
      case None => None
      case Some(i) => Some(i + 1)
  }

  /** The first task with the given id, or None when no task has it. */
  function FindTask(tasks: seq<Task>, id: string): (r: Option<Task>)
    ensures r.None? <==> forall t :: t in tasks ==> t.id != id
    ensures r.Some? ==> exists i :: 0 <= i < |tasks| && tasks[i] == r.value
                                    && r.value.id == id
                                    && forall j :: 0 <= j < i ==> tasks[j].id != id
  {
    match FirstIndexOf(tasks, id)
    case None => None
    case Some(i) => Some(tasks[i])
  }

  /** Where two lists carry the same ids position by position, the first match is at the same place. */
  lemma FirstIndexOfDependsOnIdsOnly(a: seq<Task>, b: seq<Task>, id: string)
    requires |a| == |b|
    requires forall j :: 0 <= j < |a| ==> a[j].id == b[j].id
    ensures FirstIndexOf(a, id) == FirstIndexOf(b, id)
  {
  }

  /** A task appended at the end is found by its id, unless an earlier task has that id too. */
  lemma FindAfterAppend(tasks: seq<Task>, t: Task)
    ensures FindTask(tasks + [t], t.id).Some?
    ensures FindTask(tasks + [t], t.id) == (if FindTask(tasks, t.id).Some? then FindTask(tasks, t.id) else Some(t))
  {
    var s := tasks + [t];
    assert s[|tasks|] == t;
    match FirstIndexOf(tasks, t.id)
    case None =>
      assert forall j :: 0 <= j < |tasks| ==> s[j].id != t.id;
      assert FirstIndexOf(s, t.id) == Some(|tasks|);
    case Some(i) =>
      assert s[i] == tasks[i];
      assert FirstIndexOf(s, t.id) == Some(i);
  }

  // ---------------------------------------------------------------------------
  // filter
  // ---------------------------------------------------------------------------

  /** The elements of `s` that satisfy `p`, in their order in `s`. */
  function Filter<T(!new)>(s: seq<T>, p: T -> bool): (r: seq<T>)
    ensures |r| <= |s|
    ensures forall x :: x in r <==> x in s && p(x)
  {
    if s == [] then [] else (if p(s[0]) then [s[0]] else []) + Filter(s[1..], p)
  }

  /** Filtering a concatenation filters each part: the kept elements stay in list order. */
  lemma {:induction false} FilterAppend<T(!new)>(a: seq<T>, b: seq<T>, p: T -> bool)
    ensures Filter(a + b, p) == Filter(a, p) + Filter(b, p)
  {
    if a == [] {
      assert a + b == b;
    } else {
      assert (a + b)[0] == a[0];
      assert (a + b)[1..] == a[1..] + b;
      FilterAppend(a[1..], b, p);
    }
  }

  /** Filtering keeps a list whose every element passes, unchanged. */
  lemma {:induction false} FilterKeepsAll<T(!new)>(s: seq<T>, p: T -> bool)
    requires forall x :: x in s ==> p(x)
    ensures Filter(s, p) == s
  {
    if s != [] {
      assert forall x :: x in s[1..] ==> x in s;
      FilterKeepsAll(s[1..], p);
    }
  }

  /** Filtering twice with the same test is filtering once. */
  lemma FilterIdempotent<T(!new)>(s: seq<T>, p: T -> bool)
    ensures Filter(Filter(s, p), p) == Filter(s, p)
  {
    FilterKeepsAll(Filter(s, p), p);
  }

  /** Two tests that agree on every element of `s` select the same list. */
  lemma {:induction false} FilterCongruent<T(!new)>(s: seq<T>, p: T -> bool, q: T -> bool)
    requires forall x :: x in s ==> p(x) == q(x)
    ensures Filter(s, p) == Filter(s, q)
  {
    if s != [] {
      assert forall x :: x in s[1..] ==> x in s;
      FilterCongruent(s[1..], p, q);
    }
  }

  // ---------------------------------------------------------------------------
  // getDailyTasks / getWeeklyTasks
  // ---------------------------------------------------------------------------

  /** The UTC calendar day of an instant (days since the epoch): the date part of its ISO text. */
  function UtcDay(t: int): (d: int)
    ensures d * DayMs <= t < d * DayMs + DayMs
  {
    t / DayMs
  }

  /** Two instants share a UTC date exactly when the second lies within the first one's UTC day. */
  predicate SameUtcDay(a: int, b: int)
    ensures SameUtcDay(a, b) <==> UtcDay(a) * DayMs <= b < UtcDay(a) * DayMs + DayMs
  {
    UtcDay(a) == UtcDay(b)
  }

  /** Any time of a day falls on that day: the day part ignores the time of day. */
  lemma UtcDayOfTimeOfDay(day: int, ms: int)
    requires 0 <= ms < DayMs
    ensures UtcDay(day * DayMs + ms) == day
  {
  }

  /** The tasks due on the same UTC day as `date`, in list order. */
  function DailyTasks(tasks: seq<Task>, date: int): (r: seq<Task>)
    ensures forall t :: t in r <==> t in tasks && SameUtcDay(t.dueDate, date)
  {
    Filter(tasks, (t: Task) => SameUtcDay(t.dueDate, date))
  }

  /** Two query instants on the same UTC day give the same daily list. */
  lemma DailyIgnoresTimeOfDay(tasks: seq<Task>, date1: int, date2: int)
    requires SameUtcDay(date1, date2)
    ensures DailyTasks(tasks, date1) == DailyTasks(tasks, date2)
  {
    FilterCongruent(tasks, (t: Task) => SameUtcDay(t.dueDate, date1),
                           (t: Task) => SameUtcDay(t.dueDate, date2));
  }

  /** The weekly window: from `start` to six days after it, both ends included, to the millisecond. */
  predicate InWeekFrom(due: int, start: int)
    ensures InWeekFrom(due, start) <==> 0 <= due - start <= 6 * DayMs
    ensures InWeekFrom(due, start) ==> UtcDay(start) <= UtcDay(due) <= UtcDay(start) + 6
  {
    start <= due <= start + WeekSpanMs
  }

  /** The tasks due within the weekly window from `start`, in list order. */
  function WeeklyTasks(tasks: seq<Task>, start: int): (r: seq<Task>)
    ensures forall t :: t in r <==> t in tasks && start <= t.dueDate <= start + 6 * DayMs
  {
    Filter(tasks, (t: Task) => InWeekFrom(t.dueDate, start))
  }

  /**
   * The window ends at the start's own time of day: for a week starting at UTC
   * midnight, a task due one millisecond after midnight of the seventh day is in
   * that day's daily list but not in the weekly list.
   */
  lemma WeeklyExcludesRestOfLastDay(tasks: seq<Task>, start: int, t: Task)
    requires start % DayMs == 0
    requires t in tasks && t.dueDate == start + WeekSpanMs + 1
    ensures t in DailyTasks(tasks, start + WeekSpanMs)
    ensures t !in WeeklyTasks(tasks, start)
  {
  }

  // ---------------------------------------------------------------------------
  // toggleTaskCompletion / deleteTask on the list
  // ---------------------------------------------------------------------------

  /**
   * The list after flipping `completed` on the first task with the given id: only
   * that task changes, and in that field only; with no such task nothing changes.
   */
  function ToggleFirst(tasks: seq<Task>, id: string): (r: seq<Task>)
    ensures |r| == |tasks|
    ensures forall j :: 0 <= j < |tasks| ==> r[j] == tasks[j].(completed := r[j].completed)
    ensures forall j :: 0 <= j < |tasks| ==>
              (r[j].completed != tasks[j].completed <==> FirstIndexOf(tasks, id) == Some(j))
  {
    match FirstIndexOf(tasks, id)
    case None => tasks
    case Some(i) => tasks[i := tasks[i].(completed := !tasks[i].completed)]
  }

  /** Toggling the same id twice restores the original list. */
  lemma ToggleTwiceRestores(tasks: seq<Task>, id: string)
    ensures ToggleFirst(ToggleFirst(tasks, id), id) == tasks
  {
  }

  /** The list without any task that has the given id, the others in their order. */
  function RemoveId(tasks: seq<Task>, id: string): (r: seq<Task>)
    ensures forall t :: t in r <==> t in tasks && t.id != id
    ensures FindTask(r, id) == None
  {
    Filter(tasks, (t: Task) => t.id != id)
  }

  /** Removing an id that no task has leaves the list as it is. */
  lemma RemoveUnknownId(tasks: seq<Task>, id: string)
    requires FindTask(tasks, id) == None
    ensures RemoveId(tasks, id) == tasks
  {
    FilterKeepsAll(tasks, (t: Task) => t.id != id);
  }

  /** Removing the same id twice is removing it once. */
  lemma RemoveIdIdempotent(tasks: seq<Task>, id: string)
    ensures RemoveId(RemoveId(tasks, id), id) == RemoveId(tasks, id)
  {
    FilterIdempotent(tasks, (t: Task) => t.id != id);
  }
}
