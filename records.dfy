/** The two collections of the JSON document, the request bodies the handlers read, and the
    record-level effect of each handler that changes a record. */
module Records {
  import opened Js
  import opened Seqs

  const ADMIN := "admin"
  const MANAGER := "manager"
  const EMPLOYEE := "employee"

  const OPEN := "OPEN"
  const PENDING := "PENDING"
  const COMPLETED := "COMPLETED"
  const CLOSED := "CLOSED"

  const MEDIUM := "MEDIUM"

  /** A stored user; `role` is whatever string the creator sent. */
  datatype User = User(id: int, name: string, email: string, password: string, role: string, managerId: Option<int>)

  /** A user as every user-returning endpoint sends it: the same record without `password`. */
  datatype PublicUser = PublicUser(id: int, name: string, email: string, role: string, managerId: Option<int>)

  /** A stored task. Dates are timestamps; a missing priority is `""`. */
  datatype Task = Task(
    id: int,
    title: string,
    description: string,
    dueDate: Option<int>,
    priority: string,
    createdBy: int,
    state: string,
    assignedTo: Option<int>,
    assignedToName: Option<string>,
    createdAt: int,
    completedAt: Option<int>)

  /** Body of `POST /api/users`. */
  datatype UserRequest = UserRequest(name: string, email: string, password: string, role: string, managerId: Option<int>)

  /** Body of `PUT /api/users/:id`; for `managerId`, `None` is a missing key and `Some(None)` an explicit `null`. */
  datatype UserPatch = UserPatch(name: string, email: string, password: string, role: string, managerId: Option<Option<int>>)

  /** Body of `POST /api/tasks`. */
  datatype TaskRequest = TaskRequest(title: string, description: string, dueDate: Option<int>, priority: string, createdBy: Option<int>, state: string)

  /** Body of `PUT /api/tasks/:id`; a `None` due date is a falsy one. */
  datatype TaskPatch = TaskPatch(title: string, description: string, dueDate: Option<int>, priority: string, state: string)

  /** Body of `PUT /api/tasks/:id/assign`: `assignedTo` is `None` when falsy, else the id it parses to. */
  datatype AssignRequest = AssignRequest(assignedTo: Option<int>, state: string)

  // ----- users -----

  /** The `{ password: _, ...rest }` destructuring. */
  function Strip(u: User): PublicUser {
    PublicUser(u.id, u.name, u.email, u.role, u.managerId)
  }

  /** Stripping forgets the password and nothing else. */
  lemma StripForgetsOnlyPassword(u: User, v: User)
    ensures Strip(u) == Strip(v) <==> u.(password := v.password) == v
  {
  }

  function UserIds(users: seq<User>): (r: seq<int>)
    ensures |r| == |users| && forall k :: 0 <= k < |users| ==> r[k] == users[k].id
  {
    seq(|users|, k requires 0 <= k < |users| => users[k].id)
  }

  /** With distinct ids, deleting the user found by id keeps the ids distinct and leaves no user with that id. */
  lemma DeleteUserById(users: seq<User>, id: int)
    requires Distinct(UserIds(users))
    ensures var i := FirstIndex(users, UserHasId(id));
      i >= 0 ==> Distinct(UserIds(Remove(users, i))) && id !in UserIds(Remove(users, i))
  {
    FindUserById(users, id);
    var i := FirstIndex(users, UserHasId(id));
    if i >= 0 {
      assert UserIds(Remove(users, i)) == Remove(UserIds(users), i);
      DistinctRemove(UserIds(users), i);
    }
  }

  /** `findIndex` on the id finds the user with that id, or shows that no user has it. */
  lemma FindUserById(users: seq<User>, id: int)
    ensures var i := FirstIndex(users, UserHasId(id));
      (i < 0 <==> id !in UserIds(users)) && (i >= 0 ==> users[i].id == id)
  {
    var i := FirstIndex(users, UserHasId(id));
    if i < 0 {
      forall k | 0 <= k < |users| ensures UserIds(users)[k] != id {
        assert !UserHasId(id)(users[k]);
      }
    } else {
      assert UserHasId(id)(users[i]);
    }
  }

  function UserHasId(id: int): User -> bool {
    (u: User) => u.id == id
  }

  function HasEmail(email: string): User -> bool {
    (u: User) => u.email == email
  }

  /** `find` on the email finds a user exactly when some user has that email. */
  lemma EmailTaken(users: seq<User>, email: string)
    ensures FirstIndex(users, HasEmail(email)) >= 0 <==> exists k :: 0 <= k < |users| && users[k].email == email
  {
    var i := FirstIndex(users, HasEmail(email));
    if i >= 0 {
      assert HasEmail(email)(users[i]);
    } else {
      forall k | 0 <= k < |users| ensures users[k].email != email {
        assert !HasEmail(email)(users[k]);
      }
    }
  }

  function HasCredentials(email: string, password: string): User -> bool {
    (u: User) => u.email == email && u.password == password
  }

  function HasRole(role: string): User -> bool {
    (u: User) => u.role == role
  }

  predicate UniqueEmails(users: seq<User>) {
    forall i, j :: 0 <= i < j < |users| ==> users[i].email != users[j].email
  }

  /** Any of the four required fields of a new user is falsy. */
  predicate MissingUserField(req: UserRequest) {
    !Truthy(req.name) || !Truthy(req.email) || !Truthy(req.password) || !Truthy(req.role)
  }

  /** The record `POST /api/users` appends. */
  function NewUser(id: int, req: UserRequest): User {
    User(id, req.name, req.email, req.password, req.role, IdOrNull(req.managerId))
  }

  /** The fields of a new user: the request's, `managerId` normalised by `|| null`. */
  lemma NewUserFields(id: int, req: UserRequest)
    ensures var u := NewUser(id, req);
      && u.id == id && u.name == req.name && u.email == req.email && u.password == req.password
      && u.role == req.role
      && (IdTruthy(req.managerId) ==> u.managerId == req.managerId)
      && (!IdTruthy(req.managerId) ==> u.managerId == None)
  {
  }

  /** Appending the user `POST /api/users` builds gives it an id no user has, keeps ids distinct, and,
      since its email is new, keeps emails unique. */
  lemma AppendNewUser(users: seq<User>, req: UserRequest)
    requires forall k :: 0 <= k < |users| ==> users[k].email != req.email
    ensures var u := NewUser(NextId(UserIds(users)), req);
      && u.id !in UserIds(users)
      && (Distinct(UserIds(users)) ==> Distinct(UserIds(users + [u])))
      && (UniqueEmails(users) ==> UniqueEmails(users + [u]))
  {
    var u := NewUser(NextId(UserIds(users)), req);
    assert UserIds(users + [u]) == UserIds(users) + [u.id];
  }

  /** The update `PUT /api/users/:id` applies: truthy fields overwrite, `managerId` whenever present. */
  function PatchUser(u: User, p: UserPatch): User {
    u.(name := OrElse(p.name, u.name),
       email := OrElse(p.email, u.email),
       password := OrElse(p.password, u.password),
       role := OrElse(p.role, u.role),
       managerId := if p.managerId.Some? then p.managerId.value else u.managerId)
  }

  /** A user patch never changes the id, and applying it twice is applying it once. */
  lemma PatchUserKeepsIdAndIsIdempotent(u: User, p: UserPatch)
    ensures PatchUser(u, p).id == u.id
    ensures PatchUser(PatchUser(u, p), p) == PatchUser(u, p)
  {
  }

  /** Updating a user can give it another user's email: the update does not keep emails unique. */
  lemma UpdateMayDuplicateEmail()
    ensures var users := [User(1, "Ann", "ann@x", "pw", ADMIN, None), User(2, "Bob", "bob@x", "pw", EMPLOYEE, Some(1))];
      && UniqueEmails(users)
      && FirstIndex(users, UserHasId(2)) == 1
      && !UniqueEmails(users[1 := PatchUser(users[1], UserPatch("", "ann@x", "", "", None))])
  {
    var users := [User(1, "Ann", "ann@x", "pw", ADMIN, None), User(2, "Bob", "bob@x", "pw", EMPLOYEE, Some(1))];
    assert !UserHasId(2)(users[0]);
    assert UserHasId(2)(users[1]);
    var after := users[1 := PatchUser(users[1], UserPatch("", "ann@x", "", "", None))];
    assert after[0].email == after[1].email;
  }

  /** Ids are `max + 1`, not a counter. Deleting the user with the largest id lowers the next id
      to at most that id (unless no user remains), and the deleted id itself is handed out again
      exactly when the id just below it is still taken (or it was the id 1 of the only user). */
  lemma DeletedMaxIdLowersNextId(users: seq<User>, i: int)
    requires 0 <= i < |users| && Distinct(UserIds(users))
    requires forall k :: 0 <= k < |users| ==> users[k].id <= users[i].id
    ensures NextId(UserIds(users)) == users[i].id + 1
    ensures |users| > 1 ==> NextId(UserIds(Remove(users, i))) <= users[i].id
    ensures NextId(UserIds(Remove(users, i))) == users[i].id <==>
      users[i].id - 1 in UserIds(Remove(users, i)) || (|users| == 1 && users[i].id == 1)
  {
    assert UserIds(Remove(users, i)) == Remove(UserIds(users), i);
    RemoveLargestLowersNextId(UserIds(users), i);
  }

  /** With ids 1 and 3, deleting 3 makes the next id 2: the deleted id is not always the next one. */
  lemma DeletedMaxIdNotAlwaysNext()
    ensures var users := [User(1, "Ann", "ann@x", "pw", ADMIN, None), User(3, "Cy", "cy@x", "pw", EMPLOYEE, Some(1))];
      NextId(UserIds(Remove(users, 1))) == 2
  {
    var users := [User(1, "Ann", "ann@x", "pw", ADMIN, None), User(3, "Cy", "cy@x", "pw", EMPLOYEE, Some(1))];
    assert UserIds(Remove(users, 1)) == [1];
  }

  /** A patch whose fields are all falsy and with no `managerId` key leaves the user as it was. */
  lemma EmptyUserPatch(u: User)
    ensures PatchUser(u, UserPatch("", "", "", "", None)) == u
  {
  }

  // ----- tasks -----

  function TaskIds(tasks: seq<Task>): (r: seq<int>)
    ensures |r| == |tasks| && forall k :: 0 <= k < |tasks| ==> r[k] == tasks[k].id
  {
    seq(|tasks|, k requires 0 <= k < |tasks| => tasks[k].id)
  }

  /** With distinct ids, deleting the task found by id keeps the ids distinct and leaves no task with that id. */
  lemma DeleteTaskById(tasks: seq<Task>, id: int)
    requires Distinct(TaskIds(tasks))
    ensures var i := FirstIndex(tasks, TaskHasId(id));
      i >= 0 ==> Distinct(TaskIds(Remove(tasks, i))) && id !in TaskIds(Remove(tasks, i))
  {
    FindTaskById(tasks, id);
    var i := FirstIndex(tasks, TaskHasId(id));
    if i >= 0 {
      assert TaskIds(Remove(tasks, i)) == Remove(TaskIds(tasks), i);
      DistinctRemove(TaskIds(tasks), i);
    }
  }

  /** `findIndex` on the id finds the task with that id, or shows that no task has it. */
  lemma FindTaskById(tasks: seq<Task>, id: int)
    ensures var i := FirstIndex(tasks, TaskHasId(id));
      (i < 0 <==> id !in TaskIds(tasks)) && (i >= 0 ==> tasks[i].id == id)
  {
    var i := FirstIndex(tasks, TaskHasId(id));
    if i < 0 {
      forall k | 0 <= k < |tasks| ensures TaskIds(tasks)[k] != id {
        assert !TaskHasId(id)(tasks[k]);
      }
    } else {
      assert TaskHasId(id)(tasks[i]);
    }
  }

  function TaskHasId(id: int): Task -> bool {
    (t: Task) => t.id == id
  }

  function AssignedTo(userId: int): Task -> bool {
    (t: Task) => t.assignedTo == Some(userId)
  }

  function CreatedBy(userId: int): Task -> bool {
    (t: Task) => t.createdBy == userId
  }

  /** Any of the three required fields of a new task is falsy. */
  predicate MissingTaskField(req: TaskRequest) {
    !Truthy(req.title) || !Truthy(req.description) || !IdTruthy(req.createdBy)
  }

  /** The record `POST /api/tasks` appends, stamped with the server's clock `now`. */
  function NewTask(id: int, req: TaskRequest, now: int): Task
    requires !MissingTaskField(req)
  {
    Task(id, req.title, req.description, req.dueDate, OrElse(req.priority, MEDIUM), req.createdBy.value,
         OrElse(req.state, OPEN), None, None, now, None)
  }

  /** A new task is unassigned, not completed, stamped `now`, `MEDIUM` unless a priority is sent and
      `OPEN` unless a state is sent. */
  lemma NewTaskDefaults(id: int, req: TaskRequest, now: int)
    requires !MissingTaskField(req)
    ensures var t := NewTask(id, req, now);
      && t.id == id && t.title == req.title && t.description == req.description
      && t.dueDate == req.dueDate && t.createdBy == req.createdBy.value
      && t.priority == (if Truthy(req.priority) then req.priority else MEDIUM)
      && t.state == (if Truthy(req.state) then req.state else OPEN)
      && t.assignedTo == None && t.assignedToName == None
      && t.createdAt == now && t.completedAt == None
  {
  }

  /** Appending the task `POST /api/tasks` builds gives it an id no task has, keeps ids distinct, and
      keeps completion stamps after creation stamps. */
  lemma AppendNewTask(tasks: seq<Task>, req: TaskRequest, now: int)
    requires !MissingTaskField(req)
    ensures var t := NewTask(NextId(TaskIds(tasks)), req, now);
      && t.id !in TaskIds(tasks)
      && (Distinct(TaskIds(tasks)) ==> Distinct(TaskIds(tasks + [t])))
      && (StampsOrdered(tasks) ==> StampsOrdered(tasks + [t]))
  {
    var t := NewTask(NextId(TaskIds(tasks)), req, now);
    assert TaskIds(tasks + [t]) == TaskIds(tasks) + [t.id];
  }

  /** The update `PUT /api/tasks/:id` applies: only truthy fields overwrite. */
  function PatchTask(t: Task, p: TaskPatch): Task {
    t.(title := OrElse(p.title, t.title),
       description := OrElse(p.description, t.description),
       dueDate := if p.dueDate.Some? then p.dueDate else t.dueDate,
       priority := OrElse(p.priority, t.priority),
       state := OrElse(p.state, t.state))
  }

  /** A task patch never touches id, creator, assignment or timestamps, and is idempotent. */
  lemma PatchTaskKeepsIdentity(t: Task, p: TaskPatch)
    ensures var r := PatchTask(t, p);
      && r.id == t.id && r.createdBy == t.createdBy
      && r.assignedTo == t.assignedTo && r.assignedToName == t.assignedToName
      && r.createdAt == t.createdAt && r.completedAt == t.completedAt
      && PatchTask(r, p) == r
  {
  }

  /** `assignedToName`: the name of the first user whose id is `userId`, else `'Unknown'`. */
  function NameOf(users: seq<User>, userId: int): (r: string)
    ensures (forall k :: 0 <= k < |users| ==> users[k].id != userId) ==> r == "Unknown"
    ensures (exists k :: 0 <= k < |users| && users[k].id == userId) ==>
      exists k :: IsFirst(users, UserHasId(userId), k) && r == users[k].name
  {
    var k := FirstIndex(users, UserHasId(userId));
    if k >= 0 then users[k].name else "Unknown"
  }

  /** The effect of `PUT /api/tasks/:id/assign` once `assignedTo` has been found truthy. */
  function Assigned(t: Task, userId: int, name: string, state: string): Task {
    t.(assignedTo := Some(userId), assignedToName := Some(name), state := if Truthy(state) then state else t.state)
  }

  /** The effect of `PUT /api/tasks/:id/complete`, stamped with the server's clock `now`. */
  function Completed(t: Task, state: string, now: int): Task {
    t.(state := OrElse(state, COMPLETED), completedAt := Some(now))
  }

  /** The effect of `PUT /api/tasks/:id/close`. */
  function Closed(t: Task, state: string): Task {
    t.(state := OrElse(state, CLOSED))
  }

  /** None of the three transitions checks the current state: complete and close give the same result
      from any state; assign sets the sent state, or keeps the current one when none is sent. */
  lemma TransitionsIgnoreCurrentState(t: Task, s: string, userId: int, name: string, state: string, now: int)
    ensures Assigned(t.(state := s), userId, name, state).state == (if Truthy(state) then state else s)
    ensures Completed(t.(state := s), state, now) == Completed(t, state, now)
    ensures Closed(t.(state := s), state) == Closed(t, state)
  {
  }

  /** Completing stamps `completedAt` and nothing else but the state; closing leaves `completedAt` alone. */
  lemma CompleteAndCloseFrame(t: Task, state: string, now: int)
    ensures Completed(t, state, now).completedAt == Some(now)
    ensures Completed(t, state, now).(state := t.state, completedAt := t.completedAt) == t
    ensures Closed(t, state).completedAt == t.completedAt
    ensures Closed(t, state).(state := t.state) == t
  {
  }

  /** No completion is stamped before the task was created. */
  predicate StampsOrdered(tasks: seq<Task>) {
    forall k :: 0 <= k < |tasks| && tasks[k].completedAt.Some? ==> tasks[k].createdAt <= tasks[k].completedAt.value
  }

  /** The clock `now` has not run behind any stored creation stamp. */
  predicate NotBefore(tasks: seq<Task>, now: int) {
    forall k :: 0 <= k < |tasks| ==> tasks[k].createdAt <= now
  }
}
