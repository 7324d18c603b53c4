# Task-assignment web application: handler store and dashboard logic in Dafny

This project models the core of a three-role (admin, manager, employee) task-assignment
application:

- the REST handlers of `server/server.js` over the in-memory JSON document `{ users, tasks }`;
- the hash router `loadApp` of `public/js/app.js`;
- the derivations the employee and manager dashboards compute before rendering
  (`public/js/employee.js`, `public/js/manager.js`).

Layout, one module per component:

| file | module | models |
|---|---|---|
| `js.dfy` | `Js` | JSON optional values, JavaScript truthiness of string and id fields, `x \|\| default`, the status-plus-body reply |
| `seqs.dfy` | `Seqs` | the array built-ins the code relies on: `findIndex`/`find`, `filter`, `Math.max(...ids) + 1`, `splice(i, 1)` |
| `records.dfy` | `Records` | users, tasks, request bodies, and the record-level effect of every handler that builds or changes a record |
| `server.dfy` | `Server` | class `Store` with fields `users` and `tasks`, one method per `/api/*` handler |
| `router.dfy` | `Router` | `loadApp` as a function from (location hash, stored role) to an outcome |
| `employee.dfy` | `EmployeeView` | My Tasks split, recently-completed slice, in-place newest-first sort, statistics, overdue and priority fallbacks |
| `manager.dfy` | `ManagerView` | grouping by state, sections, per-state buttons, allocation candidates, request bodies |
| `lifecycle.dfy` | `Lifecycle` | the OPEN → PENDING → COMPLETED → CLOSED path the two dashboards drive through the handlers |

Modelling conventions:

- A handler that changes the document is a `Store` method with `modifies this`. Its postcondition
  gives the new `users`/`tasks` as a function of the old ones (append, update at the found index,
  `Remove` at the found index) and states the reply.
- Read-only handlers are `Store` methods that change nothing.
- Every handler that can fail returns `Reply<T>`: either `Ok(status, value)` or `Err(status, message)`, with the
  source's status codes (200/201/400/401/404) and error messages.
- JavaScript falsiness is explicit. A string field that is `undefined`, `null` or `""` is `""`. A
  numeric id field is `Option<int>` and is falsy when missing or 0. On `PUT /api/users/:id`,
  `managerId` distinguishes a missing key (`None`) from an explicit `null` (`Some(None)`).
- `assignedTo` on assign is what the client sends: the select's string value, so the id 0 ("0") is
  truthy.
- Dates (`dueDate`, `createdAt`, `completedAt`) are integer timestamps. The server clock is the
  parameter `now`.
- Users are returned as `PublicUser`, a record type with no password field. So no user-returning
  reply can carry a password. `Records.StripForgetsOnlyPassword` shows that stripping loses nothing
  else.
- The handlers do not require unique ids or emails, because the source does not check them on load.
  Instead each handler states the id invariants it keeps when they held before (`old(P) ==> P`); only
  `CreateUser` states email uniqueness.

Where the design notes and the code disagree, the model follows the code:

- Ids are `max + 1` over the ids present, not a counter. After the record with the largest id is
  deleted, the next id drops to at most that id (while other users remain), so that id can be handed
  out again. It is handed out again exactly when the id just below it is still taken, or the deleted
  user was the only one and had id 1 (`Records.DeletedMaxIdLowersNextId`). With ids
  1 and 3, deleting 3 makes the next id 2 (`Records.DeletedMaxIdNotAlwaysNext`).
- `PUT /api/users/:id` does not re-check email uniqueness, so it can break it
  (`Records.UpdateMayDuplicateEmail`). Among the handlers that write an email, only `POST /api/users`
  preserves it; `DELETE /api/users/:id` writes none and keeps it too.
- Assigning sets the state only when a state is sent. The manager client always sends `PENDING`.
  Complete and close never look at the current state.
- `completedAt >= createdAt` holds only when the clock has not run behind an earlier creation stamp.
  `Store.CompleteTask` states it under that hypothesis (`NotBefore`).

## Model

| member | source | states |
|---|---|---|
| `Seqs.FirstIndex` | server/server.js:150 | `findIndex`: -1 exactly when no element satisfies the predicate, otherwise the first index that does |
| `Seqs.Filter` | server/server.js:262 | `filter`: never longer than its input; keeps only elements of the input that satisfy the predicate |
| `Seqs.FilterConcat` | public/js/manager.js:98-102 | filtering distributes over concatenation, so the kept elements stay in input order |
| `Seqs.FilterCount` | server/server.js:197-198 | each element satisfying the predicate is kept as often as it occurs; every other element is dropped |
| `Seqs.FilterMembership` | server/server.js:277 | an element is in the filtered list iff it is in the input and satisfies the predicate |
| `Seqs.FilterDisjointLength` | public/js/employee.js:328-329 | two filters whose predicates never both hold select at most as many elements as the list has |
| `Seqs.FilterPermutation` | public/js/employee.js:324-329 | filtering two permutations of a list gives permutations of equal length |
| `Seqs.MaxOf` | server/server.js:124 | `Math.max(...ids)` is one of the ids and no id exceeds it |
| `Seqs.NextId` | server/server.js:223 | the new id exceeds every existing id; it is 1 for an empty collection; otherwise it is one more than an existing id |
| `Seqs.Remove` | server/server.js:184 | `splice(i, 1)`: one element shorter; elements before `i` stay, elements after it shift down by one |
| `Seqs.RemoveMultiset` | server/server.js:400 | `splice(i, 1)` removes exactly one occurrence of the removed element |
| `Seqs.DistinctRemove` | server/server.js:184 | removing an element from a list of distinct ids keeps them distinct and drops that id |
| `Js.IdOrNull` | server/server.js:129 | `managerId \|\| null` is the id when it is truthy and `null` otherwise |
| `Js.OrElse` | server/server.js:227 | `s \|\| fallback` is `s` when truthy, else the fallback |
| `Records.StripForgetsOnlyPassword` | server/server.js:66 | two users have the same password-free view iff they differ at most in the password |
| `Records.FindUserById` | server/server.js:150-154 | the id lookup fails exactly when no user has the id; otherwise the found user has it |
| `Records.EmailTaken` | server/server.js:118 | the duplicate-email lookup succeeds exactly when some user has that email |
| `Records.NewUserFields` | server/server.js:123-130 | a new user takes the request's fields and id; a falsy `managerId` becomes `null` |
| `Records.AppendNewUser` | server/server.js:118-132 | the appended user has an id no user has; distinct ids stay distinct; unique emails stay unique |
| `Records.PatchUserKeepsIdAndIsIdempotent` | server/server.js:157-161 | a user update never changes the id; applying it twice equals applying it once |
| `Records.EmptyUserPatch` | server/server.js:157-161 | an update with all fields falsy and no `managerId` key changes nothing |
| `Records.UpdateMayDuplicateEmail` | server/server.js:157-158 | an update of a user's email can make two users share an email |
| `Records.DeletedMaxIdLowersNextId` | server/server.js:124 | with distinct ids, the next id is one past the largest; after the user with the largest id is deleted, the next id is at most that id (while users remain), and equals it exactly when the id below it is still taken or the sole user had id 1 |
| `Records.DeletedMaxIdNotAlwaysNext` | server/server.js:124 | with ids 1 and 3, deleting 3 makes the next id 2, not 3 |
| `Records.DeleteUserById` | server/server.js:178-184 | with distinct ids, deleting the user found by id keeps ids distinct and leaves no user with that id |
| `Records.FindTaskById` | server/server.js:394-398 | the id lookup fails exactly when no task has the id; otherwise the found task has it |
| `Records.DeleteTaskById` | server/server.js:394-400 | with distinct ids, deleting the task found by id keeps ids distinct and leaves no task with that id |
| `Records.NewTaskDefaults` | server/server.js:222-234 | a new task: dueDate `null` if falsy, priority `MEDIUM` if falsy, state `OPEN` unless sent, unassigned, not completed, created `now` |
| `Records.AppendNewTask` | server/server.js:223-236 | the appended task has an id no task has; ids stay distinct; completion stamps stay after creation stamps |
| `Records.PatchTaskKeepsIdentity` | server/server.js:424-428 | a task update changes only title, description, due date, priority and state; applying it twice equals applying it once |
| `Records.NameOf` | server/server.js:322-323 | `'Unknown'` when no user has the id; otherwise the name of the first user that has it |
| `Records.TransitionsIgnoreCurrentState` | server/server.js:328-330 | complete and close give the same result from any state; assign sets the sent state, or keeps the current one when none is sent; none of them checks the current state |
| `Records.CompleteAndCloseFrame` | server/server.js:354-355 | complete stamps `completedAt` and changes only it and the state; close changes only the state |
| `Server.Store.constructor` | server/server.js:22-25 | the store holds the document that was read |
| `Server.Store.Empty` | server/server.js:26-29 | a failed read yields empty `users` and `tasks` |
| `Server.Store.Login` | server/server.js:51-68 | 400 if email or password is falsy; 401 iff no user has exactly that email and password; success iff both are truthy and some user matches, and then 200 with the first matching user, without password |
| `Server.Store.ListUsers` | server/server.js:75-81 | every user in order, each without password |
| `Server.Store.GetUser` | server/server.js:88-100 | 404 iff no user has the id; success iff some user has it, and then 200 with the first user with that id, without password |
| `Server.Store.CreateUser` | server/server.js:108-137 | 400 and no change if a required field is falsy or the email is taken; otherwise 201 and exactly the new user appended with id `max+1`; keeps ids distinct and emails unique; tasks untouched |
| `Server.Store.UpdateUser` | server/server.js:145-167 | 404 and no change for an unknown id; otherwise only the first user with that id is patched, and the reply is that user without password; the ids are unchanged |
| `Server.Store.DeleteUser` | server/server.js:174-188 | 404 and no change for an unknown id; otherwise exactly that user is removed, the others keep their order, and with distinct ids no user keeps that id |
| `Server.Store.Managers` | server/server.js:195-202 | exactly the users with role `manager`, in order, without password |
| `Server.Store.CreateTask` | server/server.js:212-240 | 400 and no change iff title, description or createdBy is falsy; otherwise 201 and exactly the new task appended with id `max+1`; keeps ids distinct and stamps ordered |
| `Server.Store.ListTasks` | server/server.js:247-250 | all tasks |
| `Server.Store.TasksAssignedTo` | server/server.js:258-264 | exactly the tasks assigned to the user, in order |
| `Server.Store.TasksCreatedBy` | server/server.js:273-279 | exactly the tasks created by the user, in order |
| `Server.Store.GetTask` | server/server.js:287-298 | 404 iff no task has the id; success iff some task has it, and then 200 with the first task with that id |
| `Server.Store.AssignTask` | server/server.js:306-334 | a falsy assignedTo gives 400 before the lookup; an unknown task gives 404; otherwise assignedTo and the name (or `'Unknown'`) are set on that task only, and the state changes only if one is sent |
| `Server.Store.CompleteTask` | server/server.js:342-359 | 404 and no change for an unknown id; otherwise the state becomes the sent one or `COMPLETED` and `completedAt` becomes `now`; with a clock not behind creation, stamps stay ordered |
| `Server.Store.CloseTask` | server/server.js:367-383 | 404 and no change for an unknown id; otherwise the state becomes the sent one or `CLOSED`, with no check of the current state |
| `Server.Store.DeleteTask` | server/server.js:390-404 | 404 and no change for an unknown id; otherwise exactly that task is removed, the others keep their order, and with distinct ids no task keeps that id |
| `Server.Store.UpdateTask` | server/server.js:412-432 | 404 and no change for an unknown id; otherwise only truthy fields overwrite that task; ids unchanged |
| `Router.Fragment` | public/js/app.js:12 | the fragment is never empty; an empty hash or a bare `#` is `login`; otherwise it is the hash without `#` |
| `Router.EmptyHashIsLogin` | public/js/app.js:12 | an empty hash routes exactly as `#login` |
| `Router.LoginPageIffLoggedOut` | public/js/app.js:16-37 | the login page is shown iff no user is stored |
| `Router.LoggedOutForcedToLogin` | public/js/app.js:16-20 | with no user, every fragment other than `login` forces `#login` |
| `Router.LoggedInLeavesLogin` | public/js/app.js:23-26 | a logged-in user on `#login` is redirected to `#admin` (admins) or `#dashboard` (others), with nothing rendered |
| `Router.RoleGatedPages` | public/js/app.js:39-57 | the admin page renders iff the fragment is `admin` and the role is admin; likewise for manager; any other logged-in user is denied and sent to `#dashboard` |
| `Router.OtherFragmentsShowDashboard` | public/js/app.js:59-72 | every other fragment, `employee` and unknown ones included, renders the dashboard |
| `Router.RedirectsSettle` | public/js/app.js:11-74 | following any hash the router assigns, with the same user, renders a page without a further redirect |
| `EmployeeView.FirstThree` | public/js/employee.js:149 | `slice(0, 3)`: a prefix of length `min(3, n)` |
| `EmployeeView.MyTasksSplit` | public/js/employee.js:88-89 | the active list is exactly the PENDING tasks; the completed list is exactly the COMPLETED or CLOSED ones; OPEN tasks are in neither; at most the first three completed tasks are shown, all of them when there are at most three |
| `EmployeeView.MyTasksPlaceholder` | public/js/employee.js:82-85 | the placeholder is shown iff the reply is not an array or is empty |
| `EmployeeView.MyTasksKeepOrder` | public/js/employee.js:88-89 | both lists keep input order |
| `EmployeeView.OverdueRules` | public/js/employee.js:104 | a task is overdue only if its due date is set and earlier than now; the history additionally requires PENDING, so done tasks are never overdue there; both rules agree on the active list |
| `EmployeeView.PriorityBadgeAgrees` | public/js/employee.js:118 | the badge class is the lower-cased badge text; a missing priority shows `MEDIUM` with class `medium` |
| `EmployeeView.Lower` | public/js/employee.js:391 | `toLowerCase` on ASCII letters, character by character |
| `EmployeeView.SortNewestFirst` | public/js/employee.js:324 | in place: afterwards `createdAt` never increases along the array, and the array is a permutation of the input |
| `EmployeeView.CompletionRate` | public/js/employee.js:330 | 0 for no tasks; otherwise the integer nearest to 100·completed/total, halves up; always within 0..100 |
| `EmployeeView.HistoryStats` | public/js/employee.js:327-330 | total is the list length; completed + pending never exceeds it; the rate is at most 100 |
| `EmployeeView.CompletionRateExamples` | public/js/employee.js:330 | 0 of 0 gives 0; 2 of 4 gives 50; 1 of 8 gives 13 (half rounds up); 1 of 3 gives 33; 2 of 3 gives 67 |
| `EmployeeView.StatsIgnoreOrder` | public/js/employee.js:324-330 | the statistics of a permutation are the same, so sorting before counting changes none of them |
| `EmployeeView.LoadEmployeeTaskHistory` | public/js/employee.js:318-330 | placeholder iff the reply is not an array or is empty; otherwise the rows are the reply sorted newest first, and the stats are those of the reply |
| `ManagerView.GroupByState` | public/js/manager.js:91-102 | the loop leaves each bucket holding exactly its state's tasks in input order, and drops other states |
| `ManagerView.BucketsPartition` | public/js/manager.js:98-102 | a task is in a bucket iff it is in the input with that bucket's state |
| `ManagerView.GroupByStateAsWritten` | public/js/manager.js:98-102 | the lookup as written fails iff some task's state is a key inherited from `Object.prototype`; otherwise it equals the intended grouping |
| `ManagerView.InheritedStateBreaksGrouping` | public/js/manager.js:99-100 | a task with state `toString` is not a known state, so the intended grouping drops it, while the lookup as written throws |
| `ManagerView.SectionsShape` | public/js/manager.js:107-125 | at most four sections in the order OPEN, PENDING, COMPLETED, CLOSED; none empty; each holds its state's tasks |
| `ManagerView.SectionOfTask` | public/js/manager.js:91-125 | a task of a known state appears in exactly its state's section; a task of any other state appears in none |
| `ManagerView.LoadAllTasks` | public/js/manager.js:85-128 | placeholder iff the reply is not an array or is empty; otherwise the sections of the tasks as grouped by the corrected `GroupByState` (see Findings): where a task's state is an inherited key, the source shows the load error instead |
| `ManagerView.ActionsPerState` | public/js/manager.js:170-173 | Allocate iff OPEN, Close iff COMPLETED, Edit iff not CLOSED, Delete always; never both Allocate and Close |
| `ManagerView.AllocationCandidates` | public/js/manager.js:290-295 | the candidates are exactly the users with role employee; the form aborts iff there is none |
| `Router.Route` | public/js/app.js:11-74 | `loadApp` itself: logged out, any fragment but `login` forces login; logged in, `login` redirects home; `admin` and `manager` render only for their role and otherwise deny; everything else renders the dashboard (its properties are the `Router` lemmas) |
| `Records.Strip` | server/server.js:66 | the user without its password; every other field kept (`Records.StripForgetsOnlyPassword`) |
| `Server.StripAll` | server/server.js:79 | the users in order, each without its password |
| `Records.NewUser` | server/server.js:123-130 | the created user from the request and the new id, `managerId \|\| null` (`Records.NewUserFields`) |
| `Records.PatchUser` | server/server.js:157-161 | each truthy field of the request overwrites the user's; `managerId` is written whenever the key is present (`Records.PatchUserKeepsIdAndIsIdempotent`) |
| `Records.NewTask` | server/server.js:222-234 | the created task with its defaults (`Records.NewTaskDefaults`) |
| `Records.Assigned` | server/server.js:326-330 | sets the assignee id and name; the state only when a state is sent (`Records.TransitionsIgnoreCurrentState`) |
| `Records.Completed` | server/server.js:354-355 | state := sent state or `COMPLETED`, `completedAt := now` (`Records.CompleteAndCloseFrame`) |
| `Records.Closed` | server/server.js:379 | state := sent state or `CLOSED` (`Records.CompleteAndCloseFrame`) |
| `Records.PatchTask` | server/server.js:424-428 | each truthy field among title, description, due date, priority and state overwrites the task's (`Records.PatchTaskKeepsIdentity`) |
| `EmployeeView.LoadMyTasks` | public/js/employee.js:82-89 | the My Tasks tab: placeholder, or the PENDING tasks, the first three done tasks (employee.js:149) and the done count (`EmployeeView.MyTasksSplit`, `EmployeeView.MyTasksPlaceholder`) |
| `EmployeeView.OverdueCard` | public/js/employee.js:104 | a due date is set and is before now (`EmployeeView.OverdueRules`) |
| `EmployeeView.OverdueRow` | public/js/employee.js:385 | PENDING, a due date is set and it is before now (`EmployeeView.OverdueRules`) |
| `EmployeeView.PriorityLabel` | public/js/employee.js:118 | `priority \|\| 'MEDIUM'` (`EmployeeView.PriorityBadgeAgrees`) |
| `EmployeeView.PriorityClass` | public/js/employee.js:118 | the lower-cased priority, or `medium` when it is falsy (`EmployeeView.PriorityBadgeAgrees`) |
| `EmployeeView.CompleteBody` | public/js/employee.js:196 | the complete request sends state `COMPLETED` (`Lifecycle.ClientBodiesFixTheState`) |
| `ManagerView.Sections` | public/js/manager.js:107-125 | the non-empty buckets in the order OPEN, PENDING, COMPLETED, CLOSED (`ManagerView.SectionsShape`) |
| `ManagerView.ActionsFor` | public/js/manager.js:170-173 | the buttons of a task card by state (`ManagerView.ActionsPerState`) |
| `ManagerView.ShowAllocateForm` | public/js/manager.js:290-295 | the employees among the users, or the abort when there are none (`ManagerView.AllocationCandidates`) |
| `ManagerView.AllocateBody` | public/js/manager.js:345-348 | assign to the chosen employee with state `PENDING` (`Lifecycle.ClientBodiesFixTheState`) |
| `ManagerView.CloseBody` | public/js/manager.js:380 | the close request sends state `CLOSED` (`Lifecycle.ClientBodiesFixTheState`) |
| `ManagerView.CreateTaskBody` | public/js/manager.js:238-247 | the create request: the form's fields, the manager as creator, state `OPEN` (`Lifecycle.ClientDrivenLifecycle`) |
| `Lifecycle.ClientDrivenLifecycle` | public/js/manager.js:345-348 | create (OPEN, Allocate offered) → allocate (PENDING, assignee and name set) → complete (COMPLETED, stamped, Close offered) → close (CLOSED, only Delete) keeps the assignee and the stamp |
| `Lifecycle.ClientBodiesFixTheState` | public/js/manager.js:380 | the allocate body always yields PENDING, the close body CLOSED and the complete body COMPLETED, whatever the prior state |

## Findings

| source | as written | input that shows it | evidently intended | confidence | as-written member | corrected member |
|---|---|---|---|---|---|---|
| public/js/manager.js:99-100 | `tasksByState[task.state]` is a plain-object lookup, so keys inherited from `Object.prototype` are truthy; `.push` on them throws, and the whole "All Tasks" tab shows the load error | one task whose state is `toString` (any state string can be stored through `PUT /api/tasks/:id`) | tasks whose state is not one of the four are dropped and the other tasks are shown | not executed; high | `ManagerView.GroupByStateAsWritten` | `ManagerView.GroupByState` |

## Left out

- Express plumbing (`app.use`, CORS, static files, `app.listen`) and route matching order are not modelled; each handler is a method called directly.
- File persistence: `readData`/`writeData` are not modelled. The store is in memory. A failed read is `Store.Empty`. A failed write is ignored by the handlers (they reply success anyway), and this is not modelled.
- `ManagerView.LoadAllTasks`: uses the corrected grouping from the Findings table, so a task whose state is a key inherited from `Object.prototype` is dropped and the other sections are shown, where the source shows "Failed to load tasks". `ManagerView.GroupByStateAsWritten` states the source's failure.
- Response envelopes: `POST /api/login` wraps the user as `{ user: ... }`, while `GET /api/users/:id` sends the bare user; both are `Ok(200, user)` here. The model does not capture the JSON body shape.
- Concurrency: overlapping read-modify-write requests and lost updates cannot be stated for sequential method calls.
- Clock: `new Date().toISOString()` is the parameter `now`, an integer timestamp. ISO string formatting is not modelled.
- Date parsing: due dates and creation stamps are integers. Invalid dates (NaN comparisons) are not modelled.
- `parseInt` of path parameters and of `assignedTo` is not modelled: ids arrive as integers, so NaN ids that match nothing are outside the model.
- JSON typing: a body field of an unexpected type (a number where a string is expected, an object, etc.) is outside the model. Falsy strings are all `""`.
- `Server.Store.AssignTask`: `assignedTo` is taken to be the client's string, so `None` covers exactly the falsy strings. A numeric 0 sent by another client would be falsy in the source but is not representable here.
- `EmployeeView.CompletionRate`: rounds the exact rational 100·completed/total. The source rounds a floating-point product, which can differ by one at exact halves the float does not represent.
- `EmployeeView.SortNewestFirst`: proves the order and the permutation, not stability. JavaScript's `sort` is stable, and the insertion sort modelled here is too, but that is not stated.
- `EmployeeView.Lower`: lower-cases ASCII letters only. The priority names are ASCII.
- DOM and browser APIs: all HTML building, `alert`/`confirm`, `fetch` and `setTimeout` are not modelled. This includes the navbar update in `loadApp`, `renderDashboard`'s own login check (unreachable from `loadApp`, which handles a missing user first), the detail and edit views, the manager's history table, and `localStorage`.
- Failed fetches (`response.ok` false, network errors) only show a message, and are not modelled.
- `public/js/auth.js` is not part of this model: it is session plumbing over `localStorage`, and its role redirect duplicates `Router.LoggedInLeavesLogin`.
- `public/js/admin.js` is not part of this model: it is form and fetch code. Its employee-needs-a-manager check is client-side only and the server does not enforce it.
