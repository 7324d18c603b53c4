/** What the employee dashboard derives from the tasks assigned to the logged-in employee:
    the "My Tasks" split, the history order and its statistics, and the display fallbacks. */
module EmployeeView {
  import opened Js
  import opened Seqs
  import opened Records

  predicate IsPending(t: Task) {
    t.state == PENDING
  }

  /** Completed or closed: what the dashboard counts as done. */
  predicate IsDone(t: Task) {
    t.state == COMPLETED || t.state == CLOSED
  }

  // ----- My Tasks -----

  /** The "My Tasks" tab: a placeholder, or the active list, the (at most three) recently completed
      cards and the size of the whole completed list shown in their header. */
  datatype MyTasksView = NoAssignedTasks | MyTasks(pending: seq<Task>, recent: seq<Task>, completedCount: nat)

  /** `s.slice(0, 3)`. */
  function FirstThree(s: seq<Task>): (r: seq<Task>)
    ensures |r| == if |s| < 3 then |s| else 3
    ensures r == s[..|r|]
  {
    if |s| < 3 then s else s[..3]
  }

  /** `loadMyTasks`; `fetched` is `None` when the reply is not an array. */
  function LoadMyTasks(fetched: Option<seq<Task>>): MyTasksView {
    if fetched.None? || |fetched.value| == 0 then NoAssignedTasks
    else
      var done := Filter(fetched.value, IsDone);
      MyTasks(Filter(fetched.value, IsPending), FirstThree(done), |done|)
  }

  /** The active list holds exactly the PENDING tasks and the completed list exactly the COMPLETED or
      CLOSED ones, each in input order; an OPEN task is in neither; at most the first three completed
      tasks are shown, and all of them when there are no more than three. */
  lemma MyTasksSplit(tasks: seq<Task>, t: Task)
    requires |tasks| > 0
    ensures var v := LoadMyTasks(Some(tasks));
      && v.MyTasks?
      && (t in v.pending <==> t in tasks && t.state == PENDING)
      && (t in Filter(tasks, IsDone) <==> t in tasks && (t.state == COMPLETED || t.state == CLOSED))
      && (t.state == OPEN ==> t !in v.pending && t !in Filter(tasks, IsDone))
      && v.completedCount == |Filter(tasks, IsDone)|
      && |v.recent| <= 3 && v.recent == Filter(tasks, IsDone)[..|v.recent|]
      && (v.completedCount <= 3 ==> v.recent == Filter(tasks, IsDone))
  {
    FilterMembership(tasks, IsPending, t);
    FilterMembership(tasks, IsDone, t);
  }

  /** An empty list, or a reply that is not an array, shows the placeholder. */
  lemma MyTasksPlaceholder(fetched: Option<seq<Task>>)
    ensures LoadMyTasks(fetched) == NoAssignedTasks <==> fetched.None? || fetched.value == []
  {
  }

  /** The active and completed lists of the tab keep input order: splitting the input splits them. */
  lemma MyTasksKeepOrder(a: seq<Task>, b: seq<Task>)
    ensures Filter(a + b, IsPending) == Filter(a, IsPending) + Filter(b, IsPending)
    ensures Filter(a + b, IsDone) == Filter(a, IsDone) + Filter(b, IsDone)
  {
    FilterConcat(a, b, IsPending);
    FilterConcat(a, b, IsDone);
  }

  /** The `state` sent by `completeTask` to `PUT /api/tasks/:id/complete`. */
  function CompleteBody(): string {
    COMPLETED
  }

  /** Overdue on the "My Tasks" cards: a due date is set and lies before `now`. */
  predicate OverdueCard(t: Task, now: int) {
    t.dueDate.Some? && t.dueDate.value < now
  }

  /** Overdue in the history table: additionally, only PENDING tasks can be overdue. */
  predicate OverdueRow(t: Task, now: int) {
    t.state == PENDING && t.dueDate.Some? && t.dueDate.value < now
  }

  /** Both views agree on every task the "My Tasks" tab marks (it marks only active tasks); a done task
      is never overdue in the history; a task without a due date is overdue in neither. */
  lemma OverdueRules(tasks: seq<Task>, t: Task, now: int)
    ensures t in Filter(tasks, IsPending) ==> (OverdueRow(t, now) <==> OverdueCard(t, now))
    ensures IsDone(t) ==> !OverdueRow(t, now)
    ensures t.dueDate.None? ==> !OverdueCard(t, now) && !OverdueRow(t, now)
    ensures OverdueRow(t, now) ==> OverdueCard(t, now)
  {
    FilterMembership(tasks, IsPending, t);
  }

  /** The priority text: `task.priority || 'MEDIUM'`. */
  function PriorityLabel(p: string): string {
    OrElse(p, MEDIUM)
  }

  /** ASCII lower-casing, as `toLowerCase` does on the priority names. */
  function Lower(s: string): (r: string)
    ensures |r| == |s|
    ensures forall k :: 0 <= k < |s| ==> r[k] == if 'A' <= s[k] <= 'Z' then (s[k] - 'A' + 'a') as char else s[k]
  {
    if |s| == 0 then ""
    else [if 'A' <= s[0] <= 'Z' then (s[0] - 'A' + 'a') as char else s[0]] + Lower(s[1..])
  }

  /** The priority badge class suffix: `task.priority ? task.priority.toLowerCase() : 'medium'`. */
  function PriorityClass(p: string): string {
    if Truthy(p) then Lower(p) else "medium"
  }

  /** The badge class is always the lower-cased badge text, so a missing priority reads `MEDIUM`
      with class `medium`. */
  lemma PriorityBadgeAgrees(p: string)
    ensures PriorityClass(p) == Lower(PriorityLabel(p))
    ensures !Truthy(p) ==> PriorityLabel(p) == "MEDIUM" && PriorityClass(p) == "medium"
  {
    if !Truthy(p) {
      assert Lower("MEDIUM") == "medium";
    }
  }

  // ----- Task History -----

  /** Newest first: `createdAt` never increases along the list. */
  predicate NewestFirst(s: seq<Task>) {
    forall i, j :: 0 <= i < j < |s| ==> s[i].createdAt >= s[j].createdAt
  }

  /** Exchange two adjacent tasks. */
  method SwapDown(a: array<Task>, j: int)
    requires 0 < j < a.Length
    modifies a
    ensures a[..] == old(a[..])[j - 1 := old(a[j])][j := old(a[j - 1])]
    ensures multiset(a[..]) == old(multiset(a[..]))
  {
    a[j - 1], a[j] := a[j], a[j - 1];
  }

  /** `tasks.sort((a, b) => new Date(b.createdAt) - new Date(a.createdAt))`, in place. */
  method SortNewestFirst(a: array<Task>)
    modifies a
    ensures NewestFirst(a[..])
    ensures multiset(a[..]) == old(multiset(a[..]))
  {
    var i := 0;
    while i < a.Length
      invariant 0 <= i <= a.Length
      invariant NewestFirst(a[..i])
      invariant multiset(a[..]) == old(multiset(a[..]))
    {
      var j := i;
      while j > 0 && a[j - 1].createdAt < a[j].createdAt
        invariant 0 <= j <= i
        invariant multiset(a[..]) == old(multiset(a[..]))
        invariant forall p, q :: 0 <= p < q <= i && p != j && q != j ==> a[p].createdAt >= a[q].createdAt
        invariant forall k :: j < k <= i ==> a[k].createdAt < a[j].createdAt
      {
        SwapDown(a, j);
        j := j - 1;
      }
      i := i + 1;
    }
  }

  /** The four statistics cards. */
  datatype Stats = Stats(total: nat, pending: nat, completed: nat, rate: nat)

  /** Euclidean division brackets its dividend. */
  lemma DivBrackets(n: nat, d: nat)
    requires d > 0
    ensures d * (n / d) <= n < d * (n / d) + d
  {
  }

  /** A multiple of a positive number below `d * b` has a factor below `b`. */
  lemma FactorBelow(d: nat, r: nat, b: nat)
    requires d > 0 && d * r < d * b
    ensures r < b
  {
  }

  /** `Math.round(completed / total * 100)`, or 0 when there are no tasks, in exact arithmetic:
      the integer nearest to 100 * completed / total, halves rounded up. */
  function CompletionRate(completed: nat, total: nat): (r: nat)
    requires completed <= total
    ensures total == 0 ==> r == 0
    ensures total > 0 ==> 2 * total * r <= 200 * completed + total < 2 * total * r + 2 * total
    ensures r <= 100
  {
    if total > 0 then
      var r := (200 * completed + total) / (2 * total);
      DivBrackets(200 * completed + total, 2 * total);
      assert 200 * completed + total <= (2 * total) * 101 - total;
      FactorBelow(2 * total, r, 101);
      r
    else 0
  }

  /** The statistics of a history list. */
  function HistoryStats(tasks: seq<Task>): (s: Stats)
    ensures s.total == |tasks|
    ensures s.completed + s.pending <= s.total
    ensures s.rate <= 100
  {
    FilterDisjointLength(tasks, IsDone, IsPending);
    var done := |Filter(tasks, IsDone)|;
    Stats(|tasks|, |Filter(tasks, IsPending)|, done, CompletionRate(done, |tasks|))
  }

  /** Half-way cases round up; the rates quoted for 0 and for 2 of 4 tasks. */
  lemma CompletionRateExamples()
    ensures CompletionRate(0, 0) == 0
    ensures CompletionRate(2, 4) == 50
    ensures CompletionRate(1, 8) == 13
    ensures CompletionRate(1, 3) == 33
    ensures CompletionRate(2, 3) == 67
    ensures CompletionRate(5, 5) == 100
  {
  }

  /** The statistics do not depend on the order of the list, so sorting before counting changes none of them. */
  lemma StatsIgnoreOrder(a: seq<Task>, b: seq<Task>)
    requires multiset(a) == multiset(b)
    ensures HistoryStats(a) == HistoryStats(b)
  {
    assert |a| == |multiset(a)| == |multiset(b)| == |b|;
    FilterPermutation(a, b, IsDone);
    FilterPermutation(a, b, IsPending);
  }

  /** The "Task History" tab. */
  datatype HistoryView = NoHistory | History(rows: seq<Task>, stats: Stats)

  /** `loadEmployeeTaskHistory`; `fetched` is `null` when the reply is not an array. */
  method LoadEmployeeTaskHistory(fetched: array?<Task>) returns (v: HistoryView)
    modifies fetched
    ensures fetched == null || fetched.Length == 0 <==> v == NoHistory
    ensures v.History? ==> fetched != null && v.rows == fetched[..]
    ensures v.History? ==> NewestFirst(v.rows) && multiset(v.rows) == old(multiset(fetched[..]))
    ensures v.History? ==> v.stats == HistoryStats(old(fetched[..]))
    ensures v == NoHistory && fetched != null ==> fetched[..] == old(fetched[..])
  {
    if fetched == null || fetched.Length == 0 {
      return NoHistory;
    }
    SortNewestFirst(fetched);
    StatsIgnoreOrder(fetched[..], old(fetched[..]));
    v := History(fetched[..], HistoryStats(fetched[..]));
  }
}
