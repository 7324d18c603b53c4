/** What the manager dashboard derives: tasks grouped into state sections, the actions each
    section offers, the employees a task can be allocated to, and the request bodies it sends. */
module ManagerView {
  import opened Js
  import opened Seqs
  import opened Records

  /** The four lists of `tasksByState`. */
  datatype Buckets = Buckets(open: seq<Task>, pending: seq<Task>, completed: seq<Task>, closed: seq<Task>)

  function InState(state: string): Task -> bool {
    (t: Task) => t.state == state
  }

  /** One of the four keys of `tasksByState`. */
  predicate KnownState(state: string) {
    state == OPEN || state == PENDING || state == COMPLETED || state == CLOSED
  }

  /** The grouping the dashboard intends: each bucket the tasks of its state, in input order. */
  function BucketsOf(tasks: seq<Task>): Buckets {
    Buckets(Filter(tasks, InState(OPEN)), Filter(tasks, InState(PENDING)),
            Filter(tasks, InState(COMPLETED)), Filter(tasks, InState(CLOSED)))
  }

  /** One task pushed onto the bucket of its state; a task of any other state is dropped. */
  function Push(b: Buckets, t: Task): Buckets {
    if t.state == OPEN then b.(open := b.open + [t])
    else if t.state == PENDING then b.(pending := b.pending + [t])
    else if t.state == COMPLETED then b.(completed := b.completed + [t])
    else if t.state == CLOSED then b.(closed := b.closed + [t])
    else b
  }

  /** Grouping one more task extends the grouping of the tasks before it. */
  lemma BucketsOfSnoc(tasks: seq<Task>, t: Task)
    ensures BucketsOf(tasks + [t]) == Push(BucketsOf(tasks), t)
  {
    FilterConcat(tasks, [t], InState(OPEN));
    FilterConcat(tasks, [t], InState(PENDING));
    FilterConcat(tasks, [t], InState(COMPLETED));
    FilterConcat(tasks, [t], InState(CLOSED));
  }

  /** The `forEach` of `loadAllTasks`, with the lookup restricted to the four keys. */
  method GroupByState(tasks: seq<Task>) returns (b: Buckets)
    ensures b == BucketsOf(tasks)
  {
    b := Buckets([], [], [], []);
    for i := 0 to |tasks|
      invariant b == BucketsOf(tasks[..i])
    {
      BucketsOfSnoc(tasks[..i], tasks[i]);
      assert tasks[..i + 1] == tasks[..i] + [tasks[i]];
      b := Push(b, tasks[i]);
    }
    assert tasks[..|tasks|] == tasks;
  }

  /** Every task of a known state lands in exactly its state's bucket; any other task in none. */
  lemma BucketsPartition(tasks: seq<Task>, t: Task)
    ensures var b := BucketsOf(tasks);
      && (t in b.open <==> t in tasks && t.state == OPEN)
      && (t in b.pending <==> t in tasks && t.state == PENDING)
      && (t in b.completed <==> t in tasks && t.state == COMPLETED)
      && (t in b.closed <==> t in tasks && t.state == CLOSED)
  {
    FilterMembership(tasks, InState(OPEN), t);
    FilterMembership(tasks, InState(PENDING), t);
    FilterMembership(tasks, InState(COMPLETED), t);
    FilterMembership(tasks, InState(CLOSED), t);
  }

  // ----- the lookup as written -----

  /** Keys every plain object inherits from `Object.prototype`; looking one up yields a truthy
      function or object that has no `push`. */
  predicate InheritedKey(state: string) {
    state in {"constructor", "__proto__", "toString", "toLocaleString", "valueOf", "hasOwnProperty",
              "isPrototypeOf", "propertyIsEnumerable", "__defineGetter__", "__defineSetter__",
              "__lookupGetter__", "__lookupSetter__"}
  }

  /** The `forEach` as written: `tasksByState[task.state]` also finds inherited keys, and calling
      `push` on one throws, so the whole grouping fails (`None`) at the first such task. */
  method GroupByStateAsWritten(tasks: seq<Task>) returns (r: Option<Buckets>)
    ensures r.None? <==> exists k :: 0 <= k < |tasks| && InheritedKey(tasks[k].state)
    ensures r.Some? ==> r.value == BucketsOf(tasks)
  {
    var b := Buckets([], [], [], []);
    for i := 0 to |tasks|
      invariant b == BucketsOf(tasks[..i])
      invariant forall k :: 0 <= k < i ==> !InheritedKey(tasks[k].state)
    {
      if InheritedKey(tasks[i].state) {
        return None;
      }
      BucketsOfSnoc(tasks[..i], tasks[i]);
      assert tasks[..i + 1] == tasks[..i] + [tasks[i]];
      b := Push(b, tasks[i]);
    }
    assert tasks[..|tasks|] == tasks;
    r := Some(b);
  }

  /** A single task whose state is `toString` makes the grouping as written fail, where the intended
      grouping just leaves it out. */
  lemma InheritedStateBreaksGrouping(t: Task)
    requires t.state == "toString"
    ensures InheritedKey(t.state) && !KnownState(t.state)
    ensures BucketsOf([t]) == Buckets([], [], [], [])
  {
  }

  // ----- sections -----

  datatype Section = Section(state: string, tasks: seq<Task>)

  /** The sections in the fixed order OPEN, PENDING, COMPLETED, CLOSED, skipping empty buckets. */
  function Sections(b: Buckets): seq<Section> {
    (if |b.open| > 0 then [Section(OPEN, b.open)] else [])
    + (if |b.pending| > 0 then [Section(PENDING, b.pending)] else [])
    + (if |b.completed| > 0 then [Section(COMPLETED, b.completed)] else [])
    + (if |b.closed| > 0 then [Section(CLOSED, b.closed)] else [])
  }

  /** Position of a state in the section order. */
  function Rank(state: string): int {
    if state == OPEN then 0 else if state == PENDING then 1 else if state == COMPLETED then 2 else 3
  }

  /** Sections come in the fixed state order, are never empty, and hold exactly their state's tasks. */
  lemma SectionsShape(tasks: seq<Task>)
    ensures var s := Sections(BucketsOf(tasks));
      && |s| <= 4
      && (forall i, j :: 0 <= i < j < |s| ==> Rank(s[i].state) < Rank(s[j].state))
      && (forall i :: 0 <= i < |s| ==> KnownState(s[i].state) && |s[i].tasks| > 0)
      && (forall i :: 0 <= i < |s| ==> s[i].tasks == Filter(tasks, InState(s[i].state)))
  {
  }

  /** A task of a known state appears in exactly one section, the one of its state; a task of any
      other state appears in none. */
  lemma SectionOfTask(tasks: seq<Task>, t: Task)
    requires t in tasks
    ensures var s := Sections(BucketsOf(tasks));
      && (KnownState(t.state) ==> exists i :: 0 <= i < |s| && s[i].state == t.state && t in s[i].tasks)
      && (forall i :: 0 <= i < |s| && t in s[i].tasks ==> s[i].state == t.state)
  {
    BucketsPartition(tasks, t);
    var b := BucketsOf(tasks);
    var s := Sections(b);
    var o := if |b.open| > 0 then 1 else 0;
    var p := o + if |b.pending| > 0 then 1 else 0;
    var c := p + if |b.completed| > 0 then 1 else 0;
    if t.state == OPEN {
      assert s[0] == Section(OPEN, b.open);
    } else if t.state == PENDING {
      assert s[o] == Section(PENDING, b.pending);
    } else if t.state == COMPLETED {
      assert s[p] == Section(COMPLETED, b.completed);
    } else if t.state == CLOSED {
      assert s[c] == Section(CLOSED, b.closed);
    }
  }

  /** The "All Tasks" tab. */
  datatype AllTasksView = NoTasksYet | Sectioned(sections: seq<Section>)

  /** `loadAllTasks`; `fetched` is `None` when the reply is not an array. */
  method LoadAllTasks(fetched: Option<seq<Task>>) returns (v: AllTasksView)
    ensures fetched.None? || fetched.value == [] <==> v == NoTasksYet
    ensures v.Sectioned? ==> v.sections == Sections(BucketsOf(fetched.value))
  {
    if fetched.None? || |fetched.value| == 0 {
      return NoTasksYet;
    }
    var b := GroupByState(fetched.value);
    v := Sectioned(Sections(b));
  }

  // ----- actions -----

  /** The buttons of a task card in a section of the given state. */
  datatype Actions = Actions(allocate: bool, close: bool, edit: bool, delete: bool)

  function ActionsFor(state: string): Actions {
    Actions(state == OPEN, state == COMPLETED, state != CLOSED, true)
  }

  /** Allocate only on OPEN, Close only on COMPLETED, Edit on all but CLOSED, Delete always; so no card
      offers both Allocate and Close, and a closed task can only be deleted. */
  lemma ActionsPerState(state: string)
    ensures ActionsFor(OPEN) == Actions(true, false, true, true)
    ensures ActionsFor(PENDING) == Actions(false, false, true, true)
    ensures ActionsFor(COMPLETED) == Actions(false, true, true, true)
    ensures ActionsFor(CLOSED) == Actions(false, false, false, true)
    ensures !(ActionsFor(state).allocate && ActionsFor(state).close)
    ensures ActionsFor(state).allocate || ActionsFor(state).close ==> ActionsFor(state).edit
  {
  }

  // ----- allocation -----

  predicate IsEmployee(u: PublicUser) {
    u.role == EMPLOYEE
  }

  /** The allocation form: no request at all when there is no employee. */
  datatype AllocateForm = NoEmployees | ChooseFrom(candidates: seq<PublicUser>)

  /** `showAllocateForm`'s `users.filter(u => u.role === 'employee')`. */
  function ShowAllocateForm(users: seq<PublicUser>): AllocateForm {
    var employees := Filter(users, IsEmployee);
    if |employees| == 0 then NoEmployees else ChooseFrom(employees)
  }

  /** The candidates are exactly the employees, in list order; with none the form aborts. */
  lemma AllocationCandidates(users: seq<PublicUser>, u: PublicUser)
    ensures ShowAllocateForm(users) == NoEmployees <==> forall k :: 0 <= k < |users| ==> users[k].role != EMPLOYEE
    ensures ShowAllocateForm(users).ChooseFrom? ==>
      (u in ShowAllocateForm(users).candidates <==> u in users && u.role == EMPLOYEE)
  {
    FilterMembership(users, IsEmployee, u);
    var employees := Filter(users, IsEmployee);
    if employees == [] {
      forall k | 0 <= k < |users| ensures users[k].role != EMPLOYEE {
        FilterMembership(users, IsEmployee, users[k]);
      }
    } else {
      var k :| 0 <= k < |users| && users[k] == employees[0];
      assert users[k].role == EMPLOYEE;
    }
  }

  /** The body of `PUT /api/tasks/:id/assign` sent by `handleAllocateTask`. */
  function AllocateBody(employeeId: int): AssignRequest {
    AssignRequest(Some(employeeId), PENDING)
  }

  /** The `state` sent by `closeTask` to `PUT /api/tasks/:id/close`. */
  function CloseBody(): string {
    CLOSED
  }

  /** The body of `POST /api/tasks` sent by `handleCreateTask`. */
  function CreateTaskBody(title: string, description: string, dueDate: int, priority: string, userId: int): TaskRequest {
    TaskRequest(title, description, Some(dueDate), priority, Some(userId), OPEN)
  }
}
