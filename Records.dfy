/**
 * The rows of the six tables of the logistics store, the column patches that
 * `update` and the `**kwargs` of the create helpers apply, and the string
 * constants the workflow routes on.
 *
 * Status, role, channel, task-type and priority values are open strings in
 * the system: unknown values are stored and compared like any other.
 */
module Records {

  datatype Option<T> = None | Some(value: T)

  /** Python truthiness of an optional text argument: absent and "" are false. */
  predicate Truthy(o: Option<string>) {
    o.Some? && o.value != ""
  }

  /** An abstract clock reading in seconds; `datetime.now()` becomes a parameter. */
  type Time = int
  /** A calendar day number, the `.date()` of a time. */
  type Day = int

  const SecondsPerMinute: int := 60
  const SecondsPerHour: int := 3600
  const SecondsPerDay: int := 86400

  function DayOf(t: Time): Day {
    t / SecondsPerDay
  }

  /**
   * What the model takes as given instead of randomness and calendar
   * rendering: the text of the n-th `uuid4()` drawn, and the
   * `strftime('%Y%m%d')` text of a time.
   */
  datatype Env = Env(uuid4: nat -> string, yyyymmdd: Time -> string)

  // ----- open string values the code compares against -----

  const Pending := "pending"
  const Assigned := "assigned"
  const InTransit := "in_transit"
  const Delivered := "delivered"
  const Completed := "completed"

  const Online := "online"
  const OnDelivery := "on_delivery"

  const Draft := "draft"
  const Sent := "sent"
  const Viewed := "viewed"
  const Overdue := "overdue"
  const Paid := "paid"

  const Secretary := "secretary"
  const Accounting := "accounting"
  const Scheduler := "scheduler"
  const Comms := "comms"
  const Dispatcher := "dispatcher"

  const High := "high"
  const Critical := "critical"

  const ChannelSms := "sms"
  const ChannelSystem := "system"

  /** Every logged message is addressed to the system (`to_type`), with `to_id` 0. */
  const RecipientSystem := "system"

  const FromDriver := "driver"

  // task types the handlers dispatch on
  const TaskSendEmail := "send_email"
  const TaskSendThankyouEmail := "send_thankyou_email"
  const TaskPrepareContract := "prepare_contract"
  const TaskCreateInvoice := "create_invoice"
  const TaskSendPaymentReminder := "send_payment_reminder"
  const TaskCalculateDriverWage := "calculate_driver_wage"
  const TaskAssignDriver := "assign_driver"
  const TaskSendDailyReminder := "send_daily_reminder"
  const TaskCheckOverdue := "check_overdue"
  const TaskNotifyCustomer := "notify_customer"
  const TaskNotifyDriver := "notify_driver"
  const TaskSendStatusUpdate := "send_status_update"
  const TaskEscalate := "escalate"

  // ----- rows -----

  datatype Customer = Customer(
    name: string, phone: string, address: string,
    email: string, city: string, companyName: string)

  datatype Order = Order(
    orderNumber: string,
    customerId: int,
    pickupAddress: string,
    deliveryAddress: string,
    basePrice: real,
    totalPrice: real,
    status: string,
    deadline: Time,
    parcelDescription: Option<string>,
    weightKg: Option<real>,
    assignedDriverId: Option<int>,
    assignedAt: Option<Time>,
    pickupTime: Option<Time>,
    deliveryTime: Option<Time>,
    photoPath: Option<string>,
    signaturePath: Option<string>)

  datatype Driver = Driver(
    name: string, phone: string, status: string,
    currentLocation: Option<string>, lastActive: Option<Time>)

  datatype Invoice = Invoice(
    invoiceNumber: string,
    customerId: int,
    orderId: int,
    subtotal: real,
    taxAmount: real,
    totalAmount: real,
    issueDate: Day,
    dueDate: Day,
    status: string)

  datatype Message = Message(
    orderId: int,
    fromType: string,
    fromId: Option<int>,
    toType: string,
    toId: int,
    messageText: string,
    channel: string,
    sentAt: Time)

  /** `priority == None` leaves the column to the table's default. */
  datatype Task = Task(
    title: string,
    taskType: string,
    assignedTo: string,
    deadline: Time,
    status: string,
    priority: Option<string>,
    relatedOrderId: Option<int>,
    relatedCustomerId: Option<int>,
    relatedDriverId: Option<int>,
    completedAt: Option<Time>)

  // ----- column patches: a dict of column values, one optional entry per column -----

  datatype OrderPatch = OrderPatch(
    status: Option<string>,
    totalPrice: Option<real>,
    deadline: Option<Time>,
    parcelDescription: Option<string>,
    weightKg: Option<real>,
    assignedDriverId: Option<int>,
    assignedAt: Option<Time>,
    pickupTime: Option<Time>,
    deliveryTime: Option<Time>,
    photoPath: Option<string>,
    signaturePath: Option<string>)

  const NoOrderColumns := OrderPatch(None, None, None, None, None, None, None, None, None, None, None)

  /** `UPDATE ... SET` of the columns a patch names; the others keep their values. */
  function PatchOrder(o: Order, p: OrderPatch): Order {
    Order(
      o.orderNumber, o.customerId, o.pickupAddress, o.deliveryAddress, o.basePrice,
      if p.totalPrice.Some? then p.totalPrice.value else o.totalPrice,
      if p.status.Some? then p.status.value else o.status,
      if p.deadline.Some? then p.deadline.value else o.deadline,
      if p.parcelDescription.Some? then p.parcelDescription else o.parcelDescription,
      if p.weightKg.Some? then p.weightKg else o.weightKg,
      if p.assignedDriverId.Some? then p.assignedDriverId else o.assignedDriverId,
      if p.assignedAt.Some? then p.assignedAt else o.assignedAt,
      if p.pickupTime.Some? then p.pickupTime else o.pickupTime,
      if p.deliveryTime.Some? then p.deliveryTime else o.deliveryTime,
      if p.photoPath.Some? then p.photoPath else o.photoPath,
      if p.signaturePath.Some? then p.signaturePath else o.signaturePath)
  }

  datatype DriverPatch = DriverPatch(
    status: Option<string>,
    currentLocation: Option<string>,
    lastActive: Option<Time>)

  function PatchDriver(d: Driver, p: DriverPatch): Driver {
    Driver(
      d.name, d.phone,
      if p.status.Some? then p.status.value else d.status,
      if p.currentLocation.Some? then p.currentLocation else d.currentLocation,
      if p.lastActive.Some? then p.lastActive else d.lastActive)
  }

  datatype TaskPatch = TaskPatch(
    status: Option<string>,
    priority: Option<string>,
    relatedOrderId: Option<int>,
    relatedCustomerId: Option<int>,
    relatedDriverId: Option<int>,
    completedAt: Option<Time>)

  const NoTaskColumns := TaskPatch(None, None, None, None, None, None)

  function PatchTask(t: Task, p: TaskPatch): Task {
    Task(
      t.title, t.taskType, t.assignedTo, t.deadline,
      if p.status.Some? then p.status.value else t.status,
      if p.priority.Some? then p.priority else t.priority,
      if p.relatedOrderId.Some? then p.relatedOrderId else t.relatedOrderId,
      if p.relatedCustomerId.Some? then p.relatedCustomerId else t.relatedCustomerId,
      if p.relatedDriverId.Some? then p.relatedDriverId else t.relatedDriverId,
      if p.completedAt.Some? then p.completedAt else t.completedAt)
  }
}
