/**
 * `WorkflowEngine`: the object that polls the store for pending tasks and
 * hands them to the agent roles. Each method does, step by step on the
 * shared `LogisticsDB`, what the function of the same name in `Workflow`
 * describes; the handlers that only print return what they would print
 * about (the recipient, the count), and the handlers that can raise return
 * whether they did.
 */
module Engine {
  import opened Records
  import opened Tables
  import Store
  import Workflow
  import WorkflowProperties
  import opened LogisticsDb

  class WorkflowEngine {
    const db: LogisticsDB
    var running: bool
    var lastCheck: Time

    /** The engine over an existing store, not yet running. */
    constructor(db: LogisticsDB, now: Time)
      ensures this.db == db && !running && lastCheck == now
    {
      this.db := db;
      running := false;
      lastCheck := now;
    }

    /** `stop`: clears the running flag. */
    method Stop()
      modifies this
      ensures !running && lastCheck == old(lastCheck)
    {
      running := false;
    }

    // ========== the cycle ==========

    /** `process_tasks`: one cycle at clock reading `now`; `raised` when a handler threw. */
    method ProcessTasks(now: Time) returns (raised: bool)
      requires db.Valid()
      modifies db
      ensures db.Valid()
      ensures Workflow.Outcome(db.State(), raised) == Workflow.ProcessTasks(old(db.State()), db.env, now)
    {
      raised := false;
      var pending := Store.PendingTasks(db.State(), "");
      if pending == [] {
        return;
      }
      var agents, groups := GroupByAgent(pending);
      var i := 0;
      while i < |agents|
        invariant 0 <= i <= |agents|
        invariant db.Valid()
        invariant Workflow.RouteAll(old(db.State()), db.env, now, agents, pending) ==
                  Workflow.RouteAll(db.State(), db.env, now, agents[i..], pending)
      {
        var agent := agents[i];
        WorkflowProperties.RouteAllStep(db.State(), db.env, now, agents[i..], pending);
        assert agents[i..][0] == agent && agents[i..][1..] == agents[i + 1..];
        raised := RouteGroup(agent, groups[agent], now);
        if raised {
          return;
        }
        i := i + 1;
      }
    }

    /** The dispatch of `process_tasks`: a group goes to its role's handler; other roles are skipped. */
    method RouteGroup(agent: string, tasks: seq<Entry<Task>>, now: Time) returns (raised: bool)
      requires db.Valid()
      modifies db
      ensures db.Valid()
      ensures Workflow.Outcome(db.State(), raised) == Workflow.Route(agent, old(db.State()), db.env, now, tasks)
    {
      raised := false;
      if agent == Secretary {
        raised := HandleSecretaryTasks(tasks, now);
      } else if agent == Accounting {
        raised := HandleAccountingTasks(tasks, now);
      } else if agent == Scheduler {
        raised := HandleSchedulerTasks(tasks, now);
      } else if agent == Comms {
        raised := HandleCommsTasks(tasks, now);
      }
    }

    /**
     * The grouping loop of `process_tasks`: the roles in order of first
     * appearance and, for each, its tasks in input order.
     */
    method GroupByAgent(pending: seq<Entry<Task>>) returns (agents: seq<string>, groups: map<string, seq<Entry<Task>>>)
      ensures agents == Workflow.Roles(pending)
      ensures forall a :: a in groups <==> a in agents
      ensures forall a :: a in agents ==> groups[a] == Workflow.Group(pending, a)
    {
      agents := [];
      groups := map[];
      var i := 0;
      while i < |pending|
        invariant 0 <= i <= |pending|
        invariant WorkflowProperties.Grouping(agents, groups, pending[..i])
      {
        var task := pending[i];
        var agent := task.data.assignedTo;
        WorkflowProperties.GroupingStep(agents, groups, pending[..i], task);
        assert pending[..i + 1] == pending[..i] + [task];
        var tasks := if agent in groups then groups[agent] else [];
        if agent !in groups {
          agents := agents + [agent];
        }
        groups := groups[agent := tasks + [task]];
        i := i + 1;
      }
      assert pending[..|pending|] == pending;
    }

    // ========== secretary ==========

    method HandleSecretaryTasks(tasks: seq<Entry<Task>>, now: Time) returns (raised: bool)
      requires db.Valid()
      ensures Workflow.Outcome(db.State(), raised) == Workflow.Batch(Secretary, db.State(), db.env, now, tasks)
    {
      raised := false;
      var i := 0;
      while i < |tasks|
        invariant 0 <= i <= |tasks|
        invariant Workflow.Batch(Secretary, db.State(), db.env, now, tasks) ==
                  Workflow.Batch(Secretary, db.State(), db.env, now, tasks[i..])
      {
        var task := tasks[i].data;
        WorkflowProperties.BatchStep(Secretary, db.State(), db.env, now, tasks[i..]);
        assert tasks[i..][0].data == task && tasks[i..][1..] == tasks[i + 1..];
        raised := SecretaryTask(task, now);
        if raised {
          return;
        }
        i := i + 1;
      }
    }

    /** One task of `_handle_secretary_tasks`, dispatched on its type; unknown types are skipped. */
    method SecretaryTask(task: Task, now: Time) returns (raised: bool)
      requires db.Valid()
      ensures Workflow.Outcome(db.State(), raised) == Workflow.SecretaryStep(db.State(), task)
    {
      raised := false;
      if task.taskType == TaskSendEmail {
        var mail := SendConfirmationEmail(task);
      } else if task.taskType == TaskSendThankyouEmail {
        var address := SendThankyouEmail(task);
      } else if task.taskType == TaskPrepareContract {
        raised := PrepareContract(task);
      }
    }

    /**
     * `_task_send_confirmation_email`: the address to mail and the order the
     * mail confirms, when both the order and the customer exist.
     * It only reads the store; WorkflowProperties.QuietHandlers states that
     * a task of this type leaves the store as it was.
     */
    method SendConfirmationEmail(task: Task) returns (mail: Option<(string, Entry<Order>)>)
      ensures mail.Some? <==>
        Get(db.orders, task.relatedOrderId).Some? && Get(db.customers, task.relatedCustomerId).Some?
      ensures mail.Some? ==>
        && mail.value.0 == db.customers.rows[task.relatedCustomerId.value].data.email
        && mail.value.1 == Get(db.orders, task.relatedOrderId).value
    {
      var order := Get(db.orders, task.relatedOrderId);
      var customer := Get(db.customers, task.relatedCustomerId);
      if order.None? || customer.None? {
        return None;
      }
      mail := Some((customer.value.data.email, order.value));
    }

    /**
     * `_task_send_thankyou_email`: the address to thank, when both the order
     * and the customer exist.
     * It only reads the store; WorkflowProperties.QuietHandlers states that
     * a task of this type leaves the store as it was.
     */
    method SendThankyouEmail(task: Task) returns (address: Option<string>)
      ensures address.Some? <==>
        Get(db.orders, task.relatedOrderId).Some? && Get(db.customers, task.relatedCustomerId).Some?
      ensures address.Some? ==> address.value == db.customers.rows[task.relatedCustomerId.value].data.email
    {
      var order := Get(db.orders, task.relatedOrderId);
      var customer := Get(db.customers, task.relatedCustomerId);
      if order.None? || customer.None? {
        return None;
      }
      address := Some(customer.value.data.email);
    }

    /**
     * `_task_prepare_contract`: reading the name of a missing customer raises.
     * WorkflowProperties.StepRaises states when a task of this type raises
     * and that the store is then unchanged.
     */
    method PrepareContract(task: Task) returns (raised: bool)
      ensures raised <==> Get(db.customers, task.relatedCustomerId).None?
    {
      var customer := Get(db.customers, task.relatedCustomerId);
      raised := customer.None?;
    }

    // ========== accounting ==========

    method HandleAccountingTasks(tasks: seq<Entry<Task>>, now: Time) returns (raised: bool)
      requires db.Valid()
      modifies db
      ensures db.Valid()
      ensures Workflow.Outcome(db.State(), raised) == Workflow.Batch(Accounting, old(db.State()), db.env, now, tasks)
    {
      raised := false;
      var i := 0;
      while i < |tasks|
        invariant 0 <= i <= |tasks|
        invariant db.Valid()
        invariant Workflow.Batch(Accounting, old(db.State()), db.env, now, tasks) ==
                  Workflow.Batch(Accounting, db.State(), db.env, now, tasks[i..])
      {
        var task := tasks[i].data;
        WorkflowProperties.BatchStep(Accounting, db.State(), db.env, now, tasks[i..]);
        assert tasks[i..][0].data == task && tasks[i..][1..] == tasks[i + 1..];
        raised := AccountingTask(task, now);
        if raised {
          return;
        }
        i := i + 1;
      }
    }

    /** One task of `_handle_accounting_tasks`, dispatched on its type; unknown types are skipped. */
    method AccountingTask(task: Task, now: Time) returns (raised: bool)
      requires db.Valid()
      modifies db
      ensures db.Valid()
      ensures Workflow.Outcome(db.State(), raised) == Workflow.AccountingStep(old(db.State()), db.env, now, task)
    {
      raised := false;
      if task.taskType == TaskCreateInvoice {
        CreateInvoiceForTask(task, now);
      } else if task.taskType == TaskSendPaymentReminder {
        // prints the task's title and nothing else
      } else if task.taskType == TaskCalculateDriverWage {
        raised := CalculateDriverWage(task);
      }
    }

    /** `_task_create_invoice` */
    method CreateInvoiceForTask(task: Task, now: Time)
      requires db.Valid()
      modifies db
      ensures db.Valid()
      ensures db.State() == Workflow.InvoiceForTask(old(db.State()), db.env, now, task)
    {
      var order := Get(db.orders, task.relatedOrderId);
      var customer := Get(db.customers, task.relatedCustomerId);
      if order.None? || customer.None? {
        return;
      }
      var invoiceId := db.CreateInvoice(now, customer.value.id, order.value.id, order.value.data.totalPrice, 30);
    }

    /**
     * `_task_calculate_driver_wage`: reading the name of a missing driver raises.
     * WorkflowProperties.StepRaises states when a task of this type raises
     * and that the store is then unchanged.
     */
    method CalculateDriverWage(task: Task) returns (raised: bool)
      ensures raised <==> Get(db.drivers, task.relatedDriverId).None?
    {
      var driver := Get(db.drivers, task.relatedDriverId);
      raised := driver.None?;
    }

    // ========== scheduler ==========

    method HandleSchedulerTasks(tasks: seq<Entry<Task>>, now: Time) returns (raised: bool)
      requires db.Valid()
      modifies db
      ensures db.Valid()
      ensures Workflow.Outcome(db.State(), raised) == Workflow.Batch(Scheduler, old(db.State()), db.env, now, tasks)
    {
      raised := false;
      var i := 0;
      while i < |tasks|
        invariant 0 <= i <= |tasks|
        invariant db.Valid()
        invariant Workflow.Batch(Scheduler, old(db.State()), db.env, now, tasks) ==
                  Workflow.Batch(Scheduler, db.State(), db.env, now, tasks[i..])
      {
        var task := tasks[i].data;
        WorkflowProperties.BatchStep(Scheduler, db.State(), db.env, now, tasks[i..]);
        assert tasks[i..][0].data == task && tasks[i..][1..] == tasks[i + 1..];
        raised := SchedulerTask(task, now);
        if raised {
          return;
        }
        i := i + 1;
      }
    }

    /** One task of `_handle_scheduler_tasks`, dispatched on its type; unknown types are skipped. */
    method SchedulerTask(task: Task, now: Time) returns (raised: bool)
      requires db.Valid()
      modifies db
      ensures db.Valid()
      ensures Workflow.Outcome(db.State(), raised) == Workflow.SchedulerStep(old(db.State()), now, task)
    {
      raised := false;
      if task.taskType == TaskAssignDriver {
        AssignDriver(task, now);
      } else if task.taskType == TaskSendDailyReminder {
        var count := SendDailyReminder();
      } else if task.taskType == TaskCheckOverdue {
        CheckOverdue(now);
      }
    }

    /** `_task_assign_driver` */
    method AssignDriver(task: Task, now: Time)
      requires db.Valid()
      modifies db
      ensures db.Valid()
      ensures db.State() == Workflow.AssignDriver(old(db.State()), now, task)
    {
      var order := Get(db.orders, task.relatedOrderId);
      if order.None? {
        return;
      }
      var drivers := Store.ActiveDrivers(db.State());
      if drivers == [] {
        return;
      }
      var best := drivers[0];
      var ok := db.AssignOrder(now, order.value.id, best.id);
      var taskId := db.CreateTask(now, Workflow.NotifyDriverTitle(best.data.name, order.value.id),
                                  TaskNotifyDriver, Comms, None, Workflow.NotifyDriverColumns(order.value.id, best.id));
    }

    /** `_task_send_daily_reminder`: how many online drivers the reminder goes to. */
    method SendDailyReminder() returns (count: nat)
      requires db.Valid()
      ensures count == |set k | k in db.drivers.rows && Store.IsOnline(db.drivers.rows[k].data)|
    {
      var drivers := Store.ActiveDrivers(db.State());
      count := |drivers|;
    }

    /** `_task_check_overdue`: one escalation per overdue order, in the order the query lists them. */
    method CheckOverdue(now: Time)
      requires db.Valid()
      modifies db
      ensures db.Valid()
      ensures db.State() == Workflow.CheckOverdue(old(db.State()), now)
    {
      var overdue := Store.OverdueOrders(db.State(), now);
      if overdue != [] {
        EscalateOrders(overdue, now);
      }
    }

    /** The escalation loop of `_task_check_overdue`. */
    method EscalateOrders(overdue: seq<Entry<Order>>, now: Time)
      requires db.Valid()
      modifies db
      ensures db.Valid()
      ensures db.State() == Workflow.Escalate(old(db.State()), now, overdue)
    {
      var i := 0;
      while i < |overdue|
        invariant 0 <= i <= |overdue|
        invariant db.Valid()
        invariant Workflow.Escalate(old(db.State()), now, overdue) == Workflow.Escalate(db.State(), now, overdue[i..])
      {
        var order := overdue[i];
        assert overdue[i..][0] == order && overdue[i..][1..] == overdue[i + 1..];
        WorkflowProperties.EscalateStep(db.State(), now, overdue[i..]);
        var taskId := db.CreateTask(now, Workflow.EscalationTitle(order, now), TaskEscalate, Dispatcher,
                                    None, Workflow.EscalationColumns(order.id));
        i := i + 1;
      }
    }

    // ========== comms ==========

    method HandleCommsTasks(tasks: seq<Entry<Task>>, now: Time) returns (raised: bool)
      requires db.Valid()
      ensures Workflow.Outcome(db.State(), raised) == Workflow.Batch(Comms, db.State(), db.env, now, tasks)
    {
      raised := false;
      var i := 0;
      while i < |tasks|
        invariant 0 <= i <= |tasks|
        invariant Workflow.Batch(Comms, db.State(), db.env, now, tasks) ==
                  Workflow.Batch(Comms, db.State(), db.env, now, tasks[i..])
      {
        var task := tasks[i].data;
        WorkflowProperties.BatchStep(Comms, db.State(), db.env, now, tasks[i..]);
        assert tasks[i..][0].data == task && tasks[i..][1..] == tasks[i + 1..];
        raised := CommsTask(task, now);
        if raised {
          return;
        }
        i := i + 1;
      }
    }

    /** One task of `_handle_comms_tasks`, dispatched on its type; unknown types are skipped. */
    method CommsTask(task: Task, now: Time) returns (raised: bool)
      requires db.Valid()
      ensures Workflow.Outcome(db.State(), raised) == Workflow.CommsStep(db.State(), task)
    {
      raised := false;
      if task.taskType == TaskNotifyCustomer {
        var sms := NotifyCustomer(task);
      } else if task.taskType == TaskNotifyDriver {
        var message := NotifyDriver(task);
      } else if task.taskType == TaskSendStatusUpdate {
        raised := SendStatusUpdate(task);
      }
    }

    /**
     * `_task_notify_customer`: the phone to text and the text, naming the
     * order and its status, when both the order and the customer exist.
     * It only reads the store; WorkflowProperties.QuietHandlers states that
     * a task of this type leaves the store as it was.
     */
    method NotifyCustomer(task: Task) returns (sms: Option<(string, string)>)
      ensures sms.Some? <==>
        Get(db.orders, task.relatedOrderId).Some? && Get(db.customers, task.relatedCustomerId).Some?
      ensures sms.Some? ==>
        && sms.value.0 == db.customers.rows[task.relatedCustomerId.value].data.phone
        && sms.value.1 == Workflow.CustomerNotice(db.orders.rows[task.relatedOrderId.value].data)
    {
      var order := Get(db.orders, task.relatedOrderId);
      var customer := Get(db.customers, task.relatedCustomerId);
      if order.None? || customer.None? {
        return None;
      }
      sms := Some((customer.value.data.phone, Workflow.CustomerNotice(order.value.data)));
    }

    /**
     * `_task_notify_driver`: the driver's phone and the text naming the new
     * order and its pickup address, when both the driver and the order exist.
     * It only reads the store; WorkflowProperties.QuietHandlers states that
     * a task of this type leaves the store as it was.
     */
    method NotifyDriver(task: Task) returns (message: Option<(string, string)>)
      ensures message.Some? <==>
        Get(db.drivers, task.relatedDriverId).Some? && Get(db.orders, task.relatedOrderId).Some?
      ensures message.Some? ==>
        && message.value.0 == db.drivers.rows[task.relatedDriverId.value].data.phone
        && message.value.1 == Workflow.DriverNotice(db.orders.rows[task.relatedOrderId.value].data)
    {
      var driver := Get(db.drivers, task.relatedDriverId);
      var order := Get(db.orders, task.relatedOrderId);
      if driver.None? || order.None? {
        return None;
      }
      message := Some((driver.value.data.phone, Workflow.DriverNotice(order.value.data)));
    }

    /**
     * `_task_send_status_update`: reading the id of a missing order raises.
     * WorkflowProperties.StepRaises states when a task of this type raises
     * and that the store is then unchanged.
     */
    method SendStatusUpdate(task: Task) returns (raised: bool)
      ensures raised <==> Get(db.orders, task.relatedOrderId).None?
    {
      var order := Get(db.orders, task.relatedOrderId);
      raised := order.None?;
    }
  }
}
