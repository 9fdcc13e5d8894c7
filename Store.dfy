/**
 * The logistics store as a value: the six tables, the count of uuids drawn
 * so far, and every operation of the store as a function of that value.
 * The class `LogisticsDb.LogisticsDB` performs these same operations in
 * place; these functions are what its methods are proved against.
 */
module Store {
  import opened Records
  import opened Tables
  import opened Ordering
  import Text

  datatype State = State(
    customers: Table<Customer>,
    orders: Table<Order>,
    drivers: Table<Driver>,
    invoices: Table<Invoice>,
    messages: Table<Message>,
    tasks: Table<Task>,
    drawn: nat)

  ghost predicate Valid(s: State) {
    Tables.WellFormed(s.customers) && Tables.WellFormed(s.orders) && Tables.WellFormed(s.drivers) &&
    Tables.WellFormed(s.invoices) && Tables.WellFormed(s.messages) && Tables.WellFormed(s.tasks)
  }

  function Empty(): (s: State)
    ensures Valid(s)
    ensures s.customers.rows == map[] && s.orders.rows == map[] && s.drivers.rows == map[]
    ensures s.invoices.rows == map[] && s.messages.rows == map[] && s.tasks.rows == map[]
  {
    State(Tables.Empty(), Tables.Empty(), Tables.Empty(), Tables.Empty(), Tables.Empty(), Tables.Empty(), 0)
  }

  /** `t'` is `t` with exactly one more row, `data` under the fresh id `id`. */
  ghost predicate Added<R>(t: Table<R>, t': Table<R>, id: int, data: R) {
    Tables.WellFormed(t') && id !in t.rows && t'.rows == t.rows[id := Row(data, None)]
  }

  // ========== customers ==========

  function FirstOf<R>(rows: seq<Entry<R>>): (r: Option<Entry<R>>)
    ensures r.Some? <==> rows != []
    ensures r.Some? ==> r.value in rows
  {
    if rows == [] then None else Some(rows[0])
  }

  /**
   * find_customer: looks up by email when one is given, else by phone, else
   * finds nothing. Of several matches the model returns the lowest id.
   */
  function FindCustomer(s: State, email: string, phone: string): (r: Option<Entry<Customer>>)
    requires Valid(s)
    ensures email != "" ==>
      (r.Some? <==> exists k :: k in s.customers.rows && s.customers.rows[k].data.email == email)
    ensures email == "" && phone != "" ==>
      (r.Some? <==> exists k :: k in s.customers.rows && s.customers.rows[k].data.phone == phone)
    ensures email == "" && phone == "" ==> r.None?
    ensures r.Some? ==> r.value.id in s.customers.rows && r.value.data == s.customers.rows[r.value.id].data
    ensures r.Some? ==> if email != "" then r.value.data.email == email else r.value.data.phone == phone
  {
    if email != "" then
      var found := Select(s.customers, (c: Customer) => c.email == email);
      assert forall k :: k in s.customers.rows && s.customers.rows[k].data.email == email ==>
        Entry(k, s.customers.rows[k].data) in found;
      FirstOf(found)
    else if phone != "" then
      var found := Select(s.customers, (c: Customer) => c.phone == phone);
      assert forall k :: k in s.customers.rows && s.customers.rows[k].data.phone == phone ==>
        Entry(k, s.customers.rows[k].data) in found;
      FirstOf(found)
    else
      None
  }

  /** Python's `x or ''` on an optional text argument. */
  function OrEmpty(o: Option<string>): (r: string)
    ensures Truthy(o) ==> r == o.value
    ensures !Truthy(o) ==> r == ""
  {
    if o.Some? then o.value else ""
  }

  /** create_customer: one new customer row; absent email, city and company are stored as "". */
  function CreateCustomer(s: State, name: string, phone: string, address: string, email: Option<string>,
                          city: Option<string>, companyName: Option<string>): (r: (State, int))
    requires Valid(s)
    ensures Valid(r.0)
    ensures r.0 == s.(customers := r.0.customers)
    ensures Added(s.customers, r.0.customers, r.1,
      Customer(name, phone, address, OrEmpty(email), OrEmpty(city), OrEmpty(companyName)))
  {
    var (t, id) := Insert(s.customers, Customer(name, phone, address, OrEmpty(email), OrEmpty(city), OrEmpty(companyName)));
    (s.(customers := t), id)
  }

  // ========== orders ==========

  /**
   * The row create_order stores: the defaults (number, total price equal to
   * the base price, status pending, deadline one day ahead unless given),
   * then the extra columns of `kwargs` over them. A caller's `deadline`
   * keyword binds to the named parameter, so `kwargs.deadline` stays `None`
   * for every call the source can make; the model keeps it for uniformity
   * with the other patch columns.
   */
  function NewOrder(env: Env, now: Time, drawn: nat, customerId: int, pickupAddress: string,
                    deliveryAddress: string, basePrice: real, deadline: Option<Time>,
                    kwargs: OrderPatch): Order
  {
    PatchOrder(
      Order(Text.OrderNumber(env.yyyymmdd(now), env.uuid4(drawn)), customerId,
            pickupAddress, deliveryAddress, basePrice, basePrice, Pending,
            if deadline.Some? then deadline.value else now + SecondsPerDay,
            None, None, None, None, None, None, None, None),
      kwargs)
  }

  /** create_order: one new order row; one uuid is drawn for its number. */
  function CreateOrder(s: State, env: Env, now: Time, customerId: int, pickupAddress: string,
                       deliveryAddress: string, basePrice: real, deadline: Option<Time>,
                       kwargs: OrderPatch): (r: (State, int))
    requires Valid(s)
    ensures Valid(r.0)
    ensures r.0 == s.(orders := r.0.orders, drawn := s.drawn + 1)
    ensures Added(s.orders, r.0.orders, r.1,
      NewOrder(env, now, s.drawn, customerId, pickupAddress, deliveryAddress, basePrice, deadline, kwargs))
  {
    var data := NewOrder(env, now, s.drawn, customerId, pickupAddress, deliveryAddress, basePrice, deadline, kwargs);
    var (t, id) := Insert(s.orders, data);
    (s.(orders := t, drawn := s.drawn + 1), id)
  }

  /** `update('orders', id, data)`: only that order's named columns and `updated_at` change. */
  function UpdateOrder(s: State, now: Time, orderId: int, patch: OrderPatch): (r: (State, bool))
    requires Valid(s)
    ensures Valid(r.0)
    ensures r.0 == s.(orders := r.0.orders)
    ensures r.1 <==> orderId in s.orders.rows
    ensures !r.1 ==> r.0 == s
    ensures r.1 ==> r.0.orders == s.orders.(rows := s.orders.rows[orderId :=
      Row(PatchOrder(s.orders.rows[orderId].data, patch), Some(now))])
  {
    var (t, ok) := Update(s.orders, orderId, patch, PatchOrder, now);
    (s.(orders := t), ok)
  }

  function AssignPatch(driverId: int, now: Time): OrderPatch {
    NoOrderColumns.(assignedDriverId := Some(driverId), status := Some(Assigned), assignedAt := Some(now))
  }

  /** assign_order: driver, status 'assigned' and assignment time, whatever the prior status. */
  function AssignOrder(s: State, now: Time, orderId: int, driverId: int): (r: (State, bool))
    requires Valid(s)
    ensures Valid(r.0)
    ensures r.0 == s.(orders := r.0.orders)
    ensures r.1 <==> orderId in s.orders.rows
    ensures !r.1 ==> r.0 == s
    ensures r.1 ==> r.0.orders.rows.Keys == s.orders.rows.Keys
    ensures r.1 ==>
      var o' := r.0.orders.rows[orderId].data;
      o'.assignedDriverId == Some(driverId) && o'.status == Assigned && o'.assignedAt == Some(now)
  {
    UpdateOrder(s, now, orderId, AssignPatch(driverId, now))
  }

  /** The columns update_order_status sets: the status and its own timestamp, if it has one. */
  function StatusPatch(status: string, now: Time): OrderPatch {
    NoOrderColumns.(
      status := Some(status),
      deliveryTime := if status == Delivered then Some(now) else None,
      pickupTime := if status == InTransit then Some(now) else None)
  }

  /** update_order_status: the status, and the pickup or delivery time that goes with it. */
  function UpdateOrderStatus(s: State, now: Time, orderId: int, status: string): (r: (State, bool))
    requires Valid(s)
    ensures Valid(r.0)
    ensures r.0 == s.(orders := r.0.orders)
    ensures r.1 <==> orderId in s.orders.rows
    ensures !r.1 ==> r.0 == s
    ensures r.1 ==> r.0.orders.rows.Keys == s.orders.rows.Keys
    ensures r.1 ==>
      var o' := r.0.orders.rows[orderId].data;
      && o'.status == status
      && (status == InTransit ==> o'.pickupTime == Some(now))
      && (status == Delivered ==> o'.deliveryTime == Some(now))
  {
    UpdateOrder(s, now, orderId, StatusPatch(status, now))
  }

  function OrderDeadline(e: Entry<Order>): Time { e.data.deadline }

  /** get_orders_by_status: the orders in that status, by ascending deadline. */
  function OrdersByStatus(s: State, status: string): (r: seq<Entry<Order>>)
    requires Valid(s)
    ensures forall e :: e in r <==>
      e.id in s.orders.rows && e.data == s.orders.rows[e.id].data && e.data.status == status
    ensures forall e :: multiset(r)[e] <= 1
    ensures |r| == |set k | k in s.orders.rows && s.orders.rows[k].data.status == status|
    ensures SortedBy(r, OrderDeadline, IntLe)
  {
    IntOrders();
    var r := Query(s.orders, (o: Order) => o.status == status, OrderDeadline, IntLe);
    assert MatchingIds(s.orders, (o: Order) => o.status == status) ==
      set k | k in s.orders.rows && s.orders.rows[k].data.status == status;
    r
  }

  /** get_orders_by_driver: the orders assigned to that driver, by ascending deadline. */
  function OrdersByDriver(s: State, driverId: int): (r: seq<Entry<Order>>)
    requires Valid(s)
    ensures forall e :: e in r <==>
      e.id in s.orders.rows && e.data == s.orders.rows[e.id].data && e.data.assignedDriverId == Some(driverId)
    ensures forall e :: multiset(r)[e] <= 1
    ensures SortedBy(r, OrderDeadline, IntLe)
  {
    IntOrders();
    Query(s.orders, (o: Order) => o.assignedDriverId == Some(driverId), OrderDeadline, IntLe)
  }

  predicate IsOverdue(o: Order, now: Time) {
    o.status != Delivered && o.deadline < now
  }

  /** get_overdue_orders: every order not delivered whose deadline has passed (no ORDER BY). */
  function OverdueOrders(s: State, now: Time): (r: seq<Entry<Order>>)
    requires Valid(s)
    ensures forall e :: e in r <==>
      e.id in s.orders.rows && e.data == s.orders.rows[e.id].data && IsOverdue(e.data, now)
    ensures forall e :: multiset(r)[e] <= 1
    ensures |r| == |set k | k in s.orders.rows && IsOverdue(s.orders.rows[k].data, now)|
  {
    var r := Select(s.orders, (o: Order) => IsOverdue(o, now));
    assert MatchingIds(s.orders, (o: Order) => IsOverdue(o, now)) ==
      set k | k in s.orders.rows && IsOverdue(s.orders.rows[k].data, now);
    r
  }

  // ========== drivers ==========

  /** A direct `insert('drivers', data)`; the core itself never adds drivers. */
  function InsertDriver(s: State, d: Driver): (r: (State, int))
    requires Valid(s)
    ensures Valid(r.0)
    ensures r.0 == s.(drivers := r.0.drivers)
    ensures Added(s.drivers, r.0.drivers, r.1, d)
  {
    var (t, id) := Insert(s.drivers, d);
    (s.(drivers := t), id)
  }

  predicate IsOnline(d: Driver) {
    d.status == Online
  }

  function DriverName(e: Entry<Driver>): string { e.data.name }

  /** get_active_drivers: exactly the drivers whose status is 'online', ordered by name. */
  function ActiveDrivers(s: State): (r: seq<Entry<Driver>>)
    requires Valid(s)
    ensures forall e :: e in r <==>
      e.id in s.drivers.rows && e.data == s.drivers.rows[e.id].data && IsOnline(e.data)
    ensures forall e :: multiset(r)[e] <= 1
    ensures |r| == |set k | k in s.drivers.rows && IsOnline(s.drivers.rows[k].data)|
    ensures SortedBy(r, DriverName, StrLe)
  {
    StrLeTotalPreorder();
    var r := Query(s.drivers, IsOnline, DriverName, StrLe);
    assert MatchingIds(s.drivers, IsOnline) == set k | k in s.drivers.rows && IsOnline(s.drivers.rows[k].data);
    r
  }

  /** The columns update_driver_status sets; the location only when one is given. */
  function DriverStatusPatch(status: string, location: Option<string>, now: Time): DriverPatch {
    DriverPatch(Some(status), if Truthy(location) then location else None, Some(now))
  }

  function UpdateDriverStatus(s: State, now: Time, driverId: int, status: string,
                              location: Option<string>): (r: (State, bool))
    requires Valid(s)
    ensures Valid(r.0)
    ensures r.0 == s.(drivers := r.0.drivers)
    ensures r.1 <==> driverId in s.drivers.rows
    ensures !r.1 ==> r.0 == s
    ensures r.1 ==> r.0.drivers == s.drivers.(rows := s.drivers.rows[driverId :=
      Row(PatchDriver(s.drivers.rows[driverId].data, DriverStatusPatch(status, location, now)), Some(now))])
  {
    var (t, ok) := Update(s.drivers, driverId, DriverStatusPatch(status, location, now), PatchDriver, now);
    (s.(drivers := t), ok)
  }

  // ========== invoices ==========

  /** The VAT rate is fixed at 19%: the net amount is the gross amount divided by 1.19. */
  const GrossFactor: real := 1.19

  /** The row create_invoice stores: 19% VAT taken out of the total, status 'draft'. */
  function NewInvoice(env: Env, now: Time, drawn: nat, customerId: int, orderId: int,
                      totalAmount: real, dueDays: int): Invoice
  {
    Invoice(Text.InvoiceNumber(env.yyyymmdd(now), env.uuid4(drawn)), customerId, orderId,
            totalAmount / GrossFactor, totalAmount - totalAmount / GrossFactor, totalAmount,
            DayOf(now), DayOf(now + dueDays * SecondsPerDay), Draft)
  }

  /** create_invoice: one new invoice row; one uuid is drawn for its number. */
  function CreateInvoice(s: State, env: Env, now: Time, customerId: int, orderId: int,
                         totalAmount: real, dueDays: int): (r: (State, int))
    requires Valid(s)
    ensures Valid(r.0)
    ensures r.0 == s.(invoices := r.0.invoices, drawn := s.drawn + 1)
    ensures Added(s.invoices, r.0.invoices, r.1,
      NewInvoice(env, now, s.drawn, customerId, orderId, totalAmount, dueDays))
  {
    var (t, id) := Insert(s.invoices, NewInvoice(env, now, s.drawn, customerId, orderId, totalAmount, dueDays));
    (s.(invoices := t, drawn := s.drawn + 1), id)
  }

  predicate IsUnpaid(i: Invoice) {
    i.status == Sent || i.status == Viewed || i.status == Overdue
  }

  function InvoiceDueDate(e: Entry<Invoice>): Day { e.data.dueDate }

  /** get_unpaid_invoices: invoices sent, viewed or overdue, by ascending due date. */
  function UnpaidInvoices(s: State): (r: seq<Entry<Invoice>>)
    requires Valid(s)
    ensures forall e :: e in r <==>
      e.id in s.invoices.rows && e.data == s.invoices.rows[e.id].data && IsUnpaid(e.data)
    ensures forall e :: multiset(r)[e] <= 1
    ensures |r| == |set k | k in s.invoices.rows && IsUnpaid(s.invoices.rows[k].data)|
    ensures SortedBy(r, InvoiceDueDate, IntLe)
  {
    IntOrders();
    var r := Query(s.invoices, IsUnpaid, InvoiceDueDate, IntLe);
    assert MatchingIds(s.invoices, IsUnpaid) == set k | k in s.invoices.rows && IsUnpaid(s.invoices.rows[k].data);
    r
  }

  predicate IsOverdueInvoice(i: Invoice, today: Day) {
    i.dueDate < today && i.status != Paid
  }

  /** get_overdue_invoices: due before `today` and not paid (no ORDER BY). */
  function OverdueInvoices(s: State, today: Day): (r: seq<Entry<Invoice>>)
    requires Valid(s)
    ensures forall e :: e in r <==>
      e.id in s.invoices.rows && e.data == s.invoices.rows[e.id].data && IsOverdueInvoice(e.data, today)
    ensures forall e :: multiset(r)[e] <= 1
    ensures |r| == |set k | k in s.invoices.rows && IsOverdueInvoice(s.invoices.rows[k].data, today)|
  {
    var r := Select(s.invoices, (i: Invoice) => IsOverdueInvoice(i, today));
    assert MatchingIds(s.invoices, (i: Invoice) => IsOverdueInvoice(i, today)) ==
      set k | k in s.invoices.rows && IsOverdueInvoice(s.invoices.rows[k].data, today);
    r
  }

  // ========== messages ==========

  /** log_message: one new message, addressed to the system (`to_type` 'system', `to_id` 0). */
  function LogMessage(s: State, now: Time, orderId: int, fromType: string, fromId: Option<int>,
                      text: string, channel: string): (r: (State, int))
    requires Valid(s)
    ensures Valid(r.0)
    ensures r.0 == s.(messages := r.0.messages)
    ensures Added(s.messages, r.0.messages, r.1,
      Message(orderId, fromType, fromId, RecipientSystem, 0, text, channel, now))
  {
    var (t, id) := Insert(s.messages, Message(orderId, fromType, fromId, RecipientSystem, 0, text, channel, now));
    (s.(messages := t), id)
  }

  function MessageSentAt(e: Entry<Message>): Time { e.data.sentAt }

  /** get_order_messages: the order's messages, newest first. */
  function OrderMessages(s: State, orderId: int): (r: seq<Entry<Message>>)
    requires Valid(s)
    ensures forall e :: e in r <==>
      e.id in s.messages.rows && e.data == s.messages.rows[e.id].data && e.data.orderId == orderId
    ensures forall e :: multiset(r)[e] <= 1
    ensures SortedBy(r, MessageSentAt, IntGe)
  {
    IntOrders();
    Query(s.messages, (m: Message) => m.orderId == orderId, MessageSentAt, IntGe)
  }

  // ========== tasks ==========

  /** The row create_task stores: status 'pending', deadline 24 hours ahead unless given, then `kwargs`. */
  function NewTask(now: Time, title: string, taskType: string, assignedTo: string,
                   deadline: Option<Time>, kwargs: TaskPatch): Task
  {
    PatchTask(
      Task(title, taskType, assignedTo,
           if deadline.Some? then deadline.value else now + 24 * SecondsPerHour,
           Pending, None, None, None, None, None),
      kwargs)
  }

  /** create_task: one new task row. */
  function CreateTask(s: State, now: Time, title: string, taskType: string, assignedTo: string,
                      deadline: Option<Time>, kwargs: TaskPatch): (r: (State, int))
    requires Valid(s)
    ensures Valid(r.0)
    ensures r.0 == s.(tasks := r.0.tasks)
    ensures Added(s.tasks, r.0.tasks, r.1, NewTask(now, title, taskType, assignedTo, deadline, kwargs))
  {
    var (t, id) := Insert(s.tasks, NewTask(now, title, taskType, assignedTo, deadline, kwargs));
    (s.(tasks := t), id)
  }

  predicate IsPendingFor(t: Task, assignedTo: string) {
    t.status == Pending && (assignedTo == "" || t.assignedTo == assignedTo)
  }

  function TaskDeadline(e: Entry<Task>): Time { e.data.deadline }

  /**
   * get_pending_tasks: exactly the pending tasks (of that role, when one is
   * given), by ascending deadline.
   */
  function PendingTasks(s: State, assignedTo: string): (r: seq<Entry<Task>>)
    requires Valid(s)
    ensures forall e :: e in r <==>
      e.id in s.tasks.rows && e.data == s.tasks.rows[e.id].data && IsPendingFor(e.data, assignedTo)
    ensures forall e :: multiset(r)[e] <= 1
    ensures SortedBy(r, TaskDeadline, IntLe)
  {
    IntOrders();
    Query(s.tasks, (t: Task) => IsPendingFor(t, assignedTo), TaskDeadline, IntLe)
  }

  function CompletePatch(now: Time): TaskPatch {
    NoTaskColumns.(status := Some(Completed), completedAt := Some(now))
  }

  /** complete_task: that task becomes 'completed' with a completion time; true iff it exists. */
  function CompleteTask(s: State, now: Time, taskId: int): (r: (State, bool))
    requires Valid(s)
    ensures Valid(r.0)
    ensures r.0 == s.(tasks := r.0.tasks)
    ensures r.1 <==> taskId in s.tasks.rows
    ensures !r.1 ==> r.0 == s
    ensures r.1 ==> r.0.tasks == s.tasks.(rows := s.tasks.rows[taskId :=
      Row(PatchTask(s.tasks.rows[taskId].data, CompletePatch(now)), Some(now))])
  {
    var (t, ok) := Update(s.tasks, taskId, CompletePatch(now), PatchTask, now);
    (s.(tasks := t), ok)
  }

  // ========== analytics ==========

  datatype Summary = Summary(
    pendingOrders: nat, inTransit: nat, overdueOrders: nat,
    unpaidInvoices: nat, overdueInvoices: nat, activeDrivers: nat)

  /** get_summary: how many rows each of six of the queries above finds. */
  function GetSummary(s: State, now: Time): (r: Summary)
    requires Valid(s)
    ensures r.pendingOrders == |set k | k in s.orders.rows && s.orders.rows[k].data.status == Pending|
    ensures r.inTransit == |set k | k in s.orders.rows && s.orders.rows[k].data.status == InTransit|
    ensures r.overdueOrders == |set k | k in s.orders.rows && IsOverdue(s.orders.rows[k].data, now)|
    ensures r.unpaidInvoices == |set k | k in s.invoices.rows && IsUnpaid(s.invoices.rows[k].data)|
    ensures r.overdueInvoices ==
      |set k | k in s.invoices.rows && IsOverdueInvoice(s.invoices.rows[k].data, DayOf(now))|
    ensures r.activeDrivers == |set k | k in s.drivers.rows && IsOnline(s.drivers.rows[k].data)|
  {
    Summary(
      |OrdersByStatus(s, Pending)|, |OrdersByStatus(s, InTransit)|, |OverdueOrders(s, now)|,
      |UnpaidInvoices(s)|, |OverdueInvoices(s, DayOf(now))|, |ActiveDrivers(s)|)
  }
}
