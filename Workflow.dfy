/**
 * One dispatcher cycle of the workflow engine as a function of the store:
 * the pending tasks are grouped by the role they are assigned to, and the
 * groups of the four routed roles are handed, task by task, to the role's
 * handler. A handler that dereferences a missing row raises; the exception
 * ends the cycle, and what earlier tasks stored stays stored.
 */
module Workflow {
  import opened Records
  import opened Tables
  import opened Store
  import Text

  /** The store after some steps, and whether an exception ended them. */
  datatype Outcome = Outcome(st: State, raised: bool)

  /** No task row is removed or altered: tasks are only ever added. */
  ghost predicate TasksKept(s: State, s': State) {
    forall k :: k in s.tasks.rows ==> k in s'.tasks.rows && s'.tasks.rows[k] == s.tasks.rows[k]
  }

  // ========== _time_since ==========

  /** What `_time_since` receives: an empty text, a text it cannot parse, or a time. */
  datatype Stamp = Blank | Unparsable | At(t: Time)

  /**
   * `_time_since`: whole minutes elapsed (rounded down) as "<m>m" below an
   * hour, else whole hours as "<h>h"; "unknown" for an empty stamp and "?"
   * for one that does not parse.
   */
  function TimeSince(stamp: Stamp, now: Time): (r: string)
    ensures stamp.Blank? ==> r == "unknown"
    ensures stamp.Unparsable? ==> r == "?"
    ensures stamp.At? && stamp.t <= now ==>
      |r| >= 2 && Text.AllDigits(r[..|r| - 1]) && (r[|r| - 1] == 'm' || r[|r| - 1] == 'h')
  {
    match stamp
    case Blank => "unknown"
    case Unparsable => "?"
    case At(t) =>
      var minutes := (now - t) / SecondsPerMinute;
      if minutes < 60 then Text.IntToString(minutes) + "m"
      else Text.IntToString(minutes / 60) + "h"
  }

  // ========== grouping ==========

  /** Some task is assigned to `role`. */
  ghost predicate HasRole(tasks: seq<Entry<Task>>, role: string) {
    exists i :: 0 <= i < |tasks| && tasks[i].data.assignedTo == role
  }

  /** The roles of the tasks, each once, in order of first appearance (the dict's keys). */
  function Roles(tasks: seq<Entry<Task>>): (r: seq<string>)
    ensures forall i, j :: 0 <= i < j < |r| ==> r[i] != r[j]
    ensures forall role :: role in r <==> HasRole(tasks, role)
  {
    if tasks == [] then []
    else
      var init := tasks[..|tasks| - 1];
      var prefix := Roles(init);
      var role := tasks[|tasks| - 1].data.assignedTo;
      assert forall role' :: HasRole(tasks, role') <==> HasRole(init, role') || role' == role by {
        forall role' | HasRole(tasks, role') ensures HasRole(init, role') || role' == role {
          var i :| 0 <= i < |tasks| && tasks[i].data.assignedTo == role';
          if i < |init| { assert init[i] == tasks[i]; }
        }
        forall role' | HasRole(init, role') ensures HasRole(tasks, role') {
          var i :| 0 <= i < |init| && init[i].data.assignedTo == role';
          assert tasks[i] == init[i];
        }
        assert HasRole(tasks, role) by { assert tasks[|tasks| - 1].data.assignedTo == role; }
      }
      if role in prefix then prefix else prefix + [role]
  }

  /** The tasks of one role, in their order in the input (the dict's list for that key). */
  function Group(tasks: seq<Entry<Task>>, role: string): (r: seq<Entry<Task>>)
    ensures forall e :: e in r <==> e in tasks && e.data.assignedTo == role
  {
    if tasks == [] then []
    else
      var init := tasks[..|tasks| - 1];
      var last := tasks[|tasks| - 1];
      assert tasks == init + [last];
      Group(init, role) + (if last.data.assignedTo == role then [last] else [])
  }

  // ========== handlers ==========

  /**
   * The secretary's handlers only compose and print mail; `prepare_contract`
   * raises when its customer is missing. Unknown types are ignored.
   */
  function SecretaryStep(s: State, task: Task): (r: Outcome)
    ensures r.st == s
    ensures r.raised ==> task.taskType == TaskPrepareContract
  {
    if task.taskType == TaskSendEmail || task.taskType == TaskSendThankyouEmail then Outcome(s, false)
    else if task.taskType == TaskPrepareContract then Outcome(s, Get(s.customers, task.relatedCustomerId).None?)
    else Outcome(s, false)
  }

  /** `_task_create_invoice`: an invoice over the order's total price, due in 30 days, when order and customer exist. */
  function InvoiceForTask(s: State, env: Env, now: Time, task: Task): (r: State)
    requires Valid(s)
    ensures Valid(r)
    ensures r == s.(invoices := r.invoices, drawn := r.drawn)
  {
    var order := Get(s.orders, task.relatedOrderId);
    var customer := Get(s.customers, task.relatedCustomerId);
    if order.None? || customer.None? then s
    else CreateInvoice(s, env, now, customer.value.id, order.value.id, order.value.data.totalPrice, 30).0
  }

  /**
   * The accounting handlers: `create_invoice` stores an invoice,
   * `calculate_driver_wage` raises when its driver is missing, a payment
   * reminder only prints. Unknown types are ignored.
   */
  function AccountingStep(s: State, env: Env, now: Time, task: Task): (r: Outcome)
    requires Valid(s)
    ensures Valid(r.st)
    ensures r.st == s.(invoices := r.st.invoices, drawn := r.st.drawn)
    ensures r.raised ==> r.st == s && task.taskType == TaskCalculateDriverWage
  {
    if task.taskType == TaskCreateInvoice then Outcome(InvoiceForTask(s, env, now, task), false)
    else if task.taskType == TaskSendPaymentReminder then Outcome(s, false)
    else if task.taskType == TaskCalculateDriverWage then Outcome(s, Get(s.drivers, task.relatedDriverId).None?)
    else Outcome(s, false)
  }

  /** The columns of the `notify_driver` task that an assignment enqueues. */
  function NotifyDriverColumns(orderId: int, driverId: int): TaskPatch {
    NoTaskColumns.(relatedOrderId := Some(orderId), relatedDriverId := Some(driverId), priority := Some(High))
  }

  function NotifyDriverTitle(name: string, orderId: int): string {
    "Notify " + name + " about order #" + Text.IntToString(orderId)
  }

  /**
   * `_task_assign_driver`: the order goes to the first online driver by
   * name, whatever its status, and a `notify_driver` task for comms is
   * enqueued; with no order or no online driver nothing changes.
   */
  function AssignDriver(s: State, now: Time, task: Task): (r: State)
    requires Valid(s)
    ensures Valid(r)
    ensures TasksKept(s, r)
    ensures r == s.(orders := r.orders, tasks := r.tasks)
  {
    var order := Get(s.orders, task.relatedOrderId);
    if order.None? then s
    else
      var drivers := ActiveDrivers(s);
      if drivers == [] then s
      else
        var best := drivers[0];
        var s1 := AssignOrder(s, now, order.value.id, best.id).0;
        CreateTask(s1, now, NotifyDriverTitle(best.data.name, order.value.id), TaskNotifyDriver, Comms,
                   None, NotifyDriverColumns(order.value.id, best.id)).0
  }

  function EscalationColumns(orderId: int): TaskPatch {
    NoTaskColumns.(relatedOrderId := Some(orderId), priority := Some(Critical))
  }

  function EscalationTitle(o: Entry<Order>, now: Time): string {
    "URGENT: Order #" + Text.IntToString(o.id) + " overdue by " + TimeSince(At(o.data.deadline), now)
  }

  /** The row of the escalation task enqueued for an overdue order. */
  function EscalationTask(o: Entry<Order>, now: Time): Task {
    NewTask(now, EscalationTitle(o, now), TaskEscalate, Dispatcher, None, EscalationColumns(o.id))
  }

  /** One `escalate` task for the dispatcher per listed order, in list order. */
  function Escalate(s: State, now: Time, overdue: seq<Entry<Order>>): (r: State)
    requires Valid(s)
    ensures Valid(r)
    ensures r == s.(tasks := r.tasks)
    ensures TasksKept(s, r)
    ensures |r.tasks.rows| == |s.tasks.rows| + |overdue|
    decreases |overdue|
  {
    if overdue == [] then s
    else
      var o := overdue[0];
      var s1 := CreateTask(s, now, EscalationTitle(o, now), TaskEscalate, Dispatcher, None, EscalationColumns(o.id)).0;
      Escalate(s1, now, overdue[1..])
  }

  /** `_task_check_overdue`: an escalation for every overdue order, with no deduplication. */
  function CheckOverdue(s: State, now: Time): (r: State)
    requires Valid(s)
    ensures Valid(r)
    ensures r == s.(tasks := r.tasks)
    ensures TasksKept(s, r)
    ensures |r.tasks.rows| == |s.tasks.rows| + |set k | k in s.orders.rows && IsOverdue(s.orders.rows[k].data, now)|
  {
    Escalate(s, now, OverdueOrders(s, now))
  }

  /**
   * The scheduler's handlers: `assign_driver` and `check_overdue` change
   * the store, a daily reminder only prints. Unknown types are ignored;
   * none of them raises.
   */
  function SchedulerStep(s: State, now: Time, task: Task): (r: Outcome)
    requires Valid(s)
    ensures Valid(r.st) && TasksKept(s, r.st) && !r.raised
  {
    if task.taskType == TaskAssignDriver then Outcome(AssignDriver(s, now, task), false)
    else if task.taskType == TaskSendDailyReminder then Outcome(s, false)
    else if task.taskType == TaskCheckOverdue then Outcome(CheckOverdue(s, now), false)
    else Outcome(s, false)
  }

  /** The text `notify_customer` sends: the order's number and status. */
  function CustomerNotice(o: Order): string {
    "Update für Bestellung #" + o.orderNumber + ": Status = " + o.status
  }

  /** The text `notify_driver` sends: the order's number and pickup address. */
  function DriverNotice(o: Order): string {
    "Neue Order: #" + o.orderNumber + ", Pickup: " + o.pickupAddress
  }

  /**
   * The comms handlers only compose and print messages; `send_status_update`
   * raises when its order is missing. Unknown types are ignored.
   */
  function CommsStep(s: State, task: Task): (r: Outcome)
    ensures r.st == s
    ensures r.raised ==> task.taskType == TaskSendStatusUpdate
  {
    if task.taskType == TaskNotifyCustomer || task.taskType == TaskNotifyDriver then Outcome(s, false)
    else if task.taskType == TaskSendStatusUpdate then Outcome(s, Get(s.orders, task.relatedOrderId).None?)
    else Outcome(s, false)
  }

  /** The four roles `process_tasks` routes; every other role's group is skipped. */
  predicate IsRouted(role: string) {
    role == Secretary || role == Accounting || role == Scheduler || role == Comms
  }

  function Step(role: string, s: State, env: Env, now: Time, task: Task): (r: Outcome)
    requires Valid(s)
    ensures Valid(r.st) && TasksKept(s, r.st)
  {
    if role == Secretary then SecretaryStep(s, task)
    else if role == Accounting then AccountingStep(s, env, now, task)
    else if role == Scheduler then SchedulerStep(s, now, task)
    else if role == Comms then CommsStep(s, task)
    else Outcome(s, false)
  }

  /** A `_handle_*_tasks` loop: its tasks in order, until one raises. */
  function Batch(role: string, s: State, env: Env, now: Time, tasks: seq<Entry<Task>>): (r: Outcome)
    requires Valid(s)
    ensures Valid(r.st) && TasksKept(s, r.st)
    decreases |tasks|
  {
    if tasks == [] then Outcome(s, false)
    else
      var o := Step(role, s, env, now, tasks[0].data);
      if o.raised then o else Batch(role, o.st, env, now, tasks[1..])
  }

  function Route(role: string, s: State, env: Env, now: Time, tasks: seq<Entry<Task>>): (r: Outcome)
    requires Valid(s)
    ensures Valid(r.st) && TasksKept(s, r.st)
    ensures !IsRouted(role) ==> r == Outcome(s, false)
  {
    if IsRouted(role) then Batch(role, s, env, now, tasks) else Outcome(s, false)
  }

  /** The routing loop over the groups, until a handler raises. */
  function RouteAll(s: State, env: Env, now: Time, roles: seq<string>, pending: seq<Entry<Task>>): (r: Outcome)
    requires Valid(s)
    ensures Valid(r.st) && TasksKept(s, r.st)
    decreases |roles|
  {
    if roles == [] then Outcome(s, false)
    else
      var o := Route(roles[0], s, env, now, Group(pending, roles[0]));
      if o.raised then o else RouteAll(o.st, env, now, roles[1..], pending)
  }

  /** `process_tasks`: one cycle over the tasks pending when it starts. */
  function ProcessTasks(s: State, env: Env, now: Time): (r: Outcome)
    requires Valid(s)
    ensures Valid(r.st) && TasksKept(s, r.st)
  {
    var pending := PendingTasks(s, "");
    if pending == [] then Outcome(s, false)
    else RouteAll(s, env, now, Roles(pending), pending)
  }
}
