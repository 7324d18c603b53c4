/** The REST handlers over the in-memory `{ users, tasks }` document. Each handler is a method of
    `Store`; it returns the status code and body the handler sends, and changes the two
    collections exactly as the handler changes `data.users` / `data.tasks` before writing back. */
module Server {
  import opened Js
  import opened Seqs
  import opened Records

  function StripAll(users: seq<User>): (r: seq<PublicUser>)
    ensures |r| == |users| && forall k :: 0 <= k < |users| ==> r[k] == Strip(users[k])
  {
    seq(|users|, k requires 0 <= k < |users| => Strip(users[k]))
  }

  class Store {
    var users: seq<User>
    var tasks: seq<Task>

    /** The document as read from the data file. */
    constructor (users: seq<User>, tasks: seq<Task>)
      ensures this.users == users && this.tasks == tasks
    {
      this.users := users;
      this.tasks := tasks;
    }

    /** The document a failed read yields. */
    constructor Empty()
      ensures users == [] && tasks == []
    {
      users := [];
      tasks := [];
    }

    // ===== users =====

    /** `POST /api/login`. */
    method Login(email: string, password: string) returns (r: Reply<PublicUser>)
      ensures !Truthy(email) || !Truthy(password) ==> r == Err(400, "Email and password required")
      ensures Truthy(email) && Truthy(password) ==>
        ((forall k :: 0 <= k < |users| ==> !(users[k].email == email && users[k].password == password))
         <==> r == Err(401, "Invalid credentials"))
      ensures r.Ok? <==>
        (Truthy(email) && Truthy(password) &&
         exists k :: 0 <= k < |users| && users[k].email == email && users[k].password == password)
      ensures r.Ok? ==> r.status == 200
      ensures r.Ok? ==> exists k :: IsFirst(users, HasCredentials(email, password), k) && r.value == Strip(users[k])
    {
      if !Truthy(email) || !Truthy(password) {
        return Err(400, "Email and password required");
      }
      var k := FirstIndex(users, HasCredentials(email, password));
      if k < 0 {
        return Err(401, "Invalid credentials");
      }
      r := Ok(200, Strip(users[k]));
    }

    /** `GET /api/users`. */
    method ListUsers() returns (r: seq<PublicUser>)
      ensures |r| == |users|
      ensures forall k :: 0 <= k < |users| ==> r[k] == Strip(users[k])
    {
      r := StripAll(users);
    }

    /** `GET /api/users/:id`. */
    method GetUser(id: int) returns (r: Reply<PublicUser>)
      ensures (forall k :: 0 <= k < |users| ==> users[k].id != id) <==> r == Err(404, "User not found")
      ensures r.Ok? <==> exists k :: 0 <= k < |users| && users[k].id == id
      ensures r.Ok? ==> r.status == 200
      ensures r.Ok? ==> exists k :: IsFirst(users, UserHasId(id), k) && r.value == Strip(users[k])
    {
      var k := FirstIndex(users, UserHasId(id));
      if k < 0 {
        return Err(404, "User not found");
      }
      r := Ok(200, Strip(users[k]));
    }

    /** `POST /api/users`. */
    method CreateUser(req: UserRequest) returns (r: Reply<PublicUser>)
      modifies this
      ensures tasks == old(tasks)
      ensures MissingUserField(req) ==>
        r == Err(400, "Name, email, password, and role are required") && users == old(users)
      ensures !MissingUserField(req) && (exists k :: 0 <= k < |old(users)| && old(users)[k].email == req.email) ==>
        r == Err(400, "Email already exists") && users == old(users)
      ensures r.Ok? <==> !MissingUserField(req) && forall k :: 0 <= k < |old(users)| ==> old(users)[k].email != req.email
      ensures r.Ok? ==>
        var u := NewUser(NextId(UserIds(old(users))), req);
        users == old(users) + [u] && r == Ok(201, Strip(u))
      ensures old(Distinct(UserIds(users))) ==> Distinct(UserIds(users))
      ensures old(UniqueEmails(users)) ==> UniqueEmails(users)
    {
      if MissingUserField(req) {
        return Err(400, "Name, email, password, and role are required");
      }
      EmailTaken(users, req.email);
      if FirstIndex(users, HasEmail(req.email)) >= 0 {
        return Err(400, "Email already exists");
      }
      AppendNewUser(users, req);
      var u := NewUser(NextId(UserIds(users)), req);
      users := users + [u];
      r := Ok(201, Strip(u));
    }

    /** `PUT /api/users/:id`. Email uniqueness is not re-checked here. */
    method UpdateUser(id: int, p: UserPatch) returns (r: Reply<PublicUser>)
      modifies this
      ensures tasks == old(tasks)
      ensures var i := FirstIndex(old(users), UserHasId(id));
        if i < 0 then r == Err(404, "User not found") && users == old(users)
        else users == old(users)[i := PatchUser(old(users)[i], p)] && r == Ok(200, Strip(users[i]))
      ensures UserIds(users) == UserIds(old(users))
    {
      var i := FirstIndex(users, UserHasId(id));
      if i < 0 {
        return Err(404, "User not found");
      }
      users := users[i := PatchUser(users[i], p)];
      r := Ok(200, Strip(users[i]));
    }

    /** `DELETE /api/users/:id`. */
    method DeleteUser(id: int) returns (r: Reply<string>)
      modifies this
      ensures tasks == old(tasks)
      ensures var i := FirstIndex(old(users), UserHasId(id));
        if i < 0 then r == Err(404, "User not found") && users == old(users)
        else users == Remove(old(users), i) && r == Ok(200, "User deleted successfully")
      ensures old(Distinct(UserIds(users))) ==> Distinct(UserIds(users))
      ensures old(Distinct(UserIds(users))) ==> id !in UserIds(users)
    {
      if Distinct(UserIds(users)) {
        DeleteUserById(users, id);
      }
      FindUserById(users, id);
      var i := FirstIndex(users, UserHasId(id));
      if i < 0 {
        return Err(404, "User not found");
      }
      users := Remove(users, i);
      r := Ok(200, "User deleted successfully");
    }

    /** `GET /api/managers`. */
    method Managers() returns (r: seq<PublicUser>)
      ensures r == StripAll(Filter(users, HasRole(MANAGER)))
      ensures forall k :: 0 <= k < |r| ==> r[k].role == MANAGER
      ensures forall u :: u in users && u.role == MANAGER ==> Strip(u) in r
    {
      var managers := Filter(users, HasRole(MANAGER));
      r := StripAll(managers);
      forall u | u in users && u.role == MANAGER ensures Strip(u) in r {
        FilterMembership(users, HasRole(MANAGER), u);
        var k :| 0 <= k < |managers| && managers[k] == u;
        assert r[k] == Strip(u);
      }
    }

    // ===== tasks =====

    /** `POST /api/tasks`, stamped with the server's clock `now`. */
    method CreateTask(req: TaskRequest, now: int) returns (r: Reply<Task>)
      modifies this
      ensures users == old(users)
      ensures MissingTaskField(req) <==> r == Err(400, "Title, description, and createdBy are required")
      ensures MissingTaskField(req) ==> tasks == old(tasks)
      ensures !MissingTaskField(req) ==>
        var t := NewTask(NextId(TaskIds(old(tasks))), req, now);
        tasks == old(tasks) + [t] && r == Ok(201, t)
      ensures old(Distinct(TaskIds(tasks))) ==> Distinct(TaskIds(tasks))
      ensures old(StampsOrdered(tasks)) ==> StampsOrdered(tasks)
    {
      if MissingTaskField(req) {
        return Err(400, "Title, description, and createdBy are required");
      }
      AppendNewTask(tasks, req, now);
      var t := NewTask(NextId(TaskIds(tasks)), req, now);
      tasks := tasks + [t];
      r := Ok(201, t);
    }

    /** `GET /api/tasks`. */
    method ListTasks() returns (r: seq<Task>)
      ensures r == tasks
    {
      r := tasks;
    }

    /** `GET /api/tasks/user/:userId`. */
    method TasksAssignedTo(userId: int) returns (r: seq<Task>)
      ensures r == Filter(tasks, AssignedTo(userId))
      ensures forall t :: t in r <==> t in tasks && t.assignedTo == Some(userId)
    {
      r := Filter(tasks, AssignedTo(userId));
      forall t ensures t in r <==> t in tasks && t.assignedTo == Some(userId) {
        FilterMembership(tasks, AssignedTo(userId), t);
      }
    }

    /** `GET /api/tasks/history/:userId`. */
    method TasksCreatedBy(userId: int) returns (r: seq<Task>)
      ensures r == Filter(tasks, CreatedBy(userId))
      ensures forall t :: t in r <==> t in tasks && t.createdBy == userId
    {
      r := Filter(tasks, CreatedBy(userId));
      forall t ensures t in r <==> t in tasks && t.createdBy == userId {
        FilterMembership(tasks, CreatedBy(userId), t);
      }
    }

    /** `GET /api/tasks/:id`. */
    method GetTask(id: int) returns (r: Reply<Task>)
      ensures (forall k :: 0 <= k < |tasks| ==> tasks[k].id != id) <==> r == Err(404, "Task not found")
      ensures r.Ok? <==> exists k :: 0 <= k < |tasks| && tasks[k].id == id
      ensures r.Ok? ==> r.status == 200
      ensures r.Ok? ==> exists k :: IsFirst(tasks, TaskHasId(id), k) && r.value == tasks[k]
    {
      var k := FirstIndex(tasks, TaskHasId(id));
      if k < 0 {
        return Err(404, "Task not found");
      }
      r := Ok(200, tasks[k]);
    }

    /** `PUT /api/tasks/:id/assign`: `assignedTo` is checked before the task is looked up. */
    method AssignTask(id: int, req: AssignRequest) returns (r: Reply<Task>)
      modifies this
      ensures users == old(users)
      ensures req.assignedTo.None? ==> r == Err(400, "assignedTo is required") && tasks == old(tasks)
      ensures req.assignedTo.Some? ==>
        var i := FirstIndex(old(tasks), TaskHasId(id));
        if i < 0 then r == Err(404, "Task not found") && tasks == old(tasks)
        else
          var n := req.assignedTo.value;
          tasks == old(tasks)[i := Assigned(old(tasks)[i], n, NameOf(users, n), req.state)]
          && r == Ok(200, tasks[i])
      ensures TaskIds(tasks) == TaskIds(old(tasks))
      ensures old(StampsOrdered(tasks)) ==> StampsOrdered(tasks)
    {
      if req.assignedTo.None? {
        return Err(400, "assignedTo is required");
      }
      var i := FirstIndex(tasks, TaskHasId(id));
      if i < 0 {
        return Err(404, "Task not found");
      }
      var n := req.assignedTo.value;
      tasks := tasks[i := Assigned(tasks[i], n, NameOf(users, n), req.state)];
      r := Ok(200, tasks[i]);
    }

    /** `PUT /api/tasks/:id/complete`, stamped with the server's clock `now`. */
    method CompleteTask(id: int, state: string, now: int) returns (r: Reply<Task>)
      modifies this
      ensures users == old(users)
      ensures var i := FirstIndex(old(tasks), TaskHasId(id));
        if i < 0 then r == Err(404, "Task not found") && tasks == old(tasks)
        else tasks == old(tasks)[i := Completed(old(tasks)[i], state, now)] && r == Ok(200, tasks[i])
      ensures TaskIds(tasks) == TaskIds(old(tasks))
      ensures old(StampsOrdered(tasks)) && old(NotBefore(tasks, now)) ==> StampsOrdered(tasks)
    {
      var i := FirstIndex(tasks, TaskHasId(id));
      if i < 0 {
        return Err(404, "Task not found");
      }
      tasks := tasks[i := Completed(tasks[i], state, now)];
      r := Ok(200, tasks[i]);
    }

    /** `PUT /api/tasks/:id/close`. */
    method CloseTask(id: int, state: string) returns (r: Reply<Task>)
      modifies this
      ensures users == old(users)
      ensures var i := FirstIndex(old(tasks), TaskHasId(id));
        if i < 0 then r == Err(404, "Task not found") && tasks == old(tasks)
        else tasks == old(tasks)[i := Closed(old(tasks)[i], state)] && r == Ok(200, tasks[i])
      ensures TaskIds(tasks) == TaskIds(old(tasks))
      ensures old(StampsOrdered(tasks)) ==> StampsOrdered(tasks)
    {
      var i := FirstIndex(tasks, TaskHasId(id));
      if i < 0 {
        return Err(404, "Task not found");
      }
      tasks := tasks[i := Closed(tasks[i], state)];
      r := Ok(200, tasks[i]);
    }

    /** `DELETE /api/tasks/:id`. */
    method DeleteTask(id: int) returns (r: Reply<string>)
      modifies this
      ensures users == old(users)
      ensures var i := FirstIndex(old(tasks), TaskHasId(id));
        if i < 0 then r == Err(404, "Task not found") && tasks == old(tasks)
        else tasks == Remove(old(tasks), i) && r == Ok(200, "Task deleted successfully")
      ensures old(Distinct(TaskIds(tasks))) ==> Distinct(TaskIds(tasks))
      ensures old(Distinct(TaskIds(tasks))) ==> id !in TaskIds(tasks)
    {
      if Distinct(TaskIds(tasks)) {
        DeleteTaskById(tasks, id);
      }
      FindTaskById(tasks, id);
      var i := FirstIndex(tasks, TaskHasId(id));
      if i < 0 {
        return Err(404, "Task not found");
      }
      tasks := Remove(tasks, i);
      r := Ok(200, "Task deleted successfully");
    }

    /** `PUT /api/tasks/:id`. */
    method UpdateTask(id: int, p: TaskPatch) returns (r: Reply<Task>)
      modifies this
      ensures users == old(users)
      ensures var i := FirstIndex(old(tasks), TaskHasId(id));
        if i < 0 then r == Err(404, "Task not found") && tasks == old(tasks)
        else tasks == old(tasks)[i := PatchTask(old(tasks)[i], p)] && r == Ok(200, tasks[i])
      ensures TaskIds(tasks) == TaskIds(old(tasks))
      ensures old(StampsOrdered(tasks)) ==> StampsOrdered(tasks)
    {
      var i := FirstIndex(tasks, TaskHasId(id));
      if i < 0 {
        return Err(404, "Task not found");
      }
      tasks := tasks[i := PatchTask(tasks[i], p)];
      r := Ok(200, tasks[i]);
    }
  }
}
