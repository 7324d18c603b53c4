/** The task lifecycle as the two dashboards drive it through the handlers: created OPEN by the
    manager's form, allocated (PENDING), completed by the employee, closed by the manager. */
module Lifecycle {
  import opened Js
  import opened Records
  import EmployeeView
  import ManagerView

  /** Along the path the clients take, each step lands in the next state, the manager's cards offer
      the next step's button, the assignee and its snapshot name survive, and the completion stamp
      survives closing. */
  lemma ClientDrivenLifecycle(id: int, title: string, description: string, dueDate: int, priority: string,
                              manager: int, employee: int, users: seq<User>, created: int, done: int)
    requires title != "" && description != "" && manager != 0
    requires created <= done
    ensures var t0 := NewTask(id, ManagerView.CreateTaskBody(title, description, dueDate, priority, manager), created);
      var a := ManagerView.AllocateBody(employee);
      var t1 := Assigned(t0, a.assignedTo.value, NameOf(users, a.assignedTo.value), a.state);
      var t2 := Completed(t1, EmployeeView.CompleteBody(), done);
      var t3 := Closed(t2, ManagerView.CloseBody());
      && t0.state == OPEN && t0.assignedTo == None && ManagerView.ActionsFor(t0.state).allocate
      && t1.state == PENDING && t1.assignedTo == Some(employee) && t1.assignedToName == Some(NameOf(users, employee))
      && !ManagerView.ActionsFor(t1.state).allocate && !ManagerView.ActionsFor(t1.state).close
      && EmployeeView.IsPending(t1)
      && t2.state == COMPLETED && t2.completedAt == Some(done) && ManagerView.ActionsFor(t2.state).close
      && EmployeeView.IsDone(t2)
      && t3.state == CLOSED && t3.completedAt == Some(done) && t3.assignedTo == Some(employee)
      && ManagerView.ActionsFor(t3.state) == ManagerView.Actions(false, false, false, true)
      && EmployeeView.IsDone(t3)
      && StampsOrdered([t0, t1, t2, t3])
  {
  }

  /** The allocate request always asks for PENDING and the close request for CLOSED, so whatever the
      task's state was, the server moves it there. */
  lemma ClientBodiesFixTheState(t: Task, employee: int, name: string)
    ensures Assigned(t, employee, name, ManagerView.AllocateBody(employee).state).state == PENDING
    ensures Closed(t, ManagerView.CloseBody()).state == CLOSED
    ensures Completed(t, EmployeeView.CompleteBody(), 0).state == COMPLETED
  {
  }
}
