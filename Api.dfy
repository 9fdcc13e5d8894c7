/**
 * What the HTTP handlers of the logistics API do to the store, one function
 * per handler: the JSON body becomes parameters (absent keys are `None`),
 * the response becomes a status code and the ids the body reports. The
 * handlers check only what is written here: no order status is checked
 * before a transition, and a repeated request repeats its effects.
 */
module Api {
  import opened Records
  import opened Tables
  import opened Store
  import Text

  const Ok: int := 200
  const Created: int := 201
  const BadRequest: int := 400
  const Unauthorized: int := 401
  const NotFound: int := 404

  /** The price charged when the request names none. */
  const DefaultPrice: real := 50.0

  // ========== customer endpoints ==========

  /** The JSON body of `POST /api/customer/order`. */
  datatype OrderRequest = OrderRequest(
    name: string, phone: string, address: string, email: Option<string>, city: Option<string>,
    pickupAddress: string, deliveryAddress: string,
    price: Option<real>, description: Option<string>, weightKg: Option<real>)

  function PriceOf(req: OrderRequest): real {
    if req.price.Some? then req.price.value else DefaultPrice
  }

  function WeightOf(req: OrderRequest): real {
    if req.weightKg.Some? then req.weightKg.value else 0.0
  }

  /**
   * The customer `create_new_order` books for: the one found by the
   * request's email, else a new customer made from the request.
   */
  function OrderCustomer(s: State, req: OrderRequest): (r: (State, int))
    requires Valid(s)
    ensures Valid(r.0)
    ensures r.0 == s.(customers := r.0.customers)
    ensures r.1 in r.0.customers.rows
  {
    match FindCustomer(s, OrEmpty(req.email), "")
    case Some(c) => (s, c.id)
    case None => CreateCustomer(s, req.name, req.phone, req.address, req.email, req.city, None)
  }

  /** The driver-assignment task `create_new_order` files for a new order. */
  function AssignTaskTitle(orderId: int): string {
    "Assign driver for order #" + Text.IntToString(orderId)
  }

  function AssignTaskColumns(orderId: int): TaskPatch {
    NoTaskColumns.(relatedOrderId := Some(orderId), priority := Some(High))
  }

  function OrderColumns(req: OrderRequest): OrderPatch {
    NoOrderColumns.(parcelDescription := req.description, weightKg := Some(WeightOf(req)))
  }

  /**
   * `create_new_order`: finds or creates the customer, creates the order and
   * files a scheduler task to assign a driver. Always answers 201 with the
   * order's and the customer's ids.
   */
  function CreateNewOrder(s: State, env: Env, now: Time, req: OrderRequest): (r: (State, int, int))
    requires Valid(s)
    ensures Valid(r.0)
    ensures r.0.drivers == s.drivers && r.0.invoices == s.invoices && r.0.messages == s.messages
    ensures r.0.drawn == s.drawn + 1
  {
    var (s1, customerId) := OrderCustomer(s, req);
    var (s2, orderId) := CreateOrder(s1, env, now, customerId, req.pickupAddress, req.deliveryAddress,
                                     PriceOf(req), None, OrderColumns(req));
    var s3 := CreateTask(s2, now, AssignTaskTitle(orderId), TaskAssignDriver, Scheduler, None,
                         AssignTaskColumns(orderId)).0;
    (s3, orderId, customerId)
  }

  // ========== driver endpoints ==========

  /**
   * `driver_login`: 400 without a driver id or phone, 401 when no driver has
   * that id and phone; otherwise the driver goes online and gets its orders.
   */
  function DriverLogin(s: State, now: Time, driverId: Option<int>, phone: Option<string>)
    : (r: (State, int, seq<Entry<Order>>))
    requires Valid(s)
    ensures Valid(r.0)
    ensures r.0 == s.(drivers := r.0.drivers)
    ensures r.1 == BadRequest <==> driverId.None? || driverId.value == 0 || !Truthy(phone)
    ensures r.1 == Unauthorized <==>
      r.1 != BadRequest && (driverId.value !in s.drivers.rows || s.drivers.rows[driverId.value].data.phone != phone.value)
    ensures r.1 == Ok <==> r.1 != BadRequest && r.1 != Unauthorized
    ensures r.1 != Ok ==> r.0 == s && r.2 == []
  {
    if driverId.None? || driverId.value == 0 || !Truthy(phone) then (s, BadRequest, [])
    else match Get(s.drivers, driverId)
      case None => (s, Unauthorized, [])
      case Some(d) =>
        if d.data.phone != phone.value then (s, Unauthorized, [])
        else
          var s1 := UpdateDriverStatus(s, now, driverId.value, Online, None).0;
          (s1, Ok, OrdersByDriver(s1, driverId.value))
  }

  /**
   * `update_driver_status`: 400 without a driver id or status; otherwise the
   * update is made, or matches no row, and the answer is 200 either way.
   */
  function UpdateDriverStatusRequest(s: State, now: Time, driverId: Option<int>, status: Option<string>,
                                     location: Option<string>): (r: (State, int))
    requires Valid(s)
    ensures Valid(r.0)
    ensures r.0 == s.(drivers := r.0.drivers)
    ensures r.1 == BadRequest <==> driverId.None? || driverId.value == 0 || !Truthy(status)
    ensures r.1 != BadRequest ==> r.1 == Ok
    ensures r.1 == BadRequest ==> r.0 == s
  {
    if driverId.None? || driverId.value == 0 || !Truthy(status) then (s, BadRequest)
    else (UpdateDriverStatus(s, now, driverId.value, status.value, location).0, Ok)
  }

  function StartedText(o: Order): string {
    "Started delivery to " + o.deliveryAddress
  }

  /**
   * `start_delivery`: 404 for an unknown order; otherwise the order goes
   * in transit, whatever its status, and a driver message is logged.
   */
  function StartDelivery(s: State, now: Time, orderId: int, driverId: Option<int>): (r: (State, int))
    requires Valid(s)
    ensures Valid(r.0)
    ensures r.0 == s.(orders := r.0.orders, messages := r.0.messages)
    ensures r.1 == NotFound <==> orderId !in s.orders.rows
    ensures r.1 != NotFound ==> r.1 == Ok
    ensures r.1 == NotFound ==> r.0 == s
  {
    match Get(s.orders, Some(orderId))
    case None => (s, NotFound)
    case Some(order) =>
      var s1 := UpdateOrderStatus(s, now, orderId, InTransit).0;
      var s2 := LogMessage(s1, now, orderId, FromDriver, driverId, StartedText(order.data), ChannelSystem).0;
      (s2, Ok)
  }

  /** The JSON body of `POST /api/driver/order/<id>/complete`, besides the driver id. */
  datatype Completion = Completion(photoPath: Option<string>, signaturePath: Option<string>, notes: string)

  /** The columns `complete_delivery` writes: delivered now, plus the proofs that were sent. */
  function DeliveredColumns(now: Time, c: Completion): OrderPatch {
    NoOrderColumns.(status := Some(Delivered), deliveryTime := Some(now),
                    photoPath := if Truthy(c.photoPath) then c.photoPath else None,
                    signaturePath := if Truthy(c.signaturePath) then c.signaturePath else None)
  }

  function CompletedText(c: Completion): string {
    "Delivery completed. Notes: " + c.notes
  }

  function ConfirmationTitle(customerId: int): string {
    "Send delivery confirmation to " + Text.IntToString(customerId)
  }

  function ConfirmationColumns(orderId: int, customerId: int): TaskPatch {
    NoTaskColumns.(relatedOrderId := Some(orderId), relatedCustomerId := Some(customerId))
  }

  /**
   * `complete_delivery`: 404 for an unknown order; otherwise the order is
   * marked delivered, a driver message is logged, an invoice for the
   * order's total price due in 30 days is created and a secretary task to
   * send a confirmation is filed. Answers 200 with the invoice's id.
   */
  function CompleteDelivery(s: State, env: Env, now: Time, orderId: int, driverId: Option<int>,
                            c: Completion): (r: (State, int, Option<int>))
    requires Valid(s)
    ensures Valid(r.0)
    ensures r.0.customers == s.customers && r.0.drivers == s.drivers
    ensures r.1 == NotFound <==> orderId !in s.orders.rows
    ensures r.1 != NotFound ==> r.1 == Ok && r.2.Some?
    ensures r.1 == NotFound ==> r.0 == s && r.2.None?
  {
    match Get(s.orders, Some(orderId))
    case None => (s, NotFound, None)
    case Some(order) =>
      var s1 := UpdateOrder(s, now, orderId, DeliveredColumns(now, c)).0;
      var s2 := LogMessage(s1, now, orderId, FromDriver, driverId, CompletedText(c), ChannelSystem).0;
      var (s3, invoiceId) := CreateInvoice(s2, env, now, order.data.customerId, orderId, order.data.totalPrice, 30);
      var s4 := CreateTask(s3, now, ConfirmationTitle(order.data.customerId), TaskSendEmail, Secretary, None,
                           ConfirmationColumns(orderId, order.data.customerId)).0;
      (s4, Ok, Some(invoiceId))
  }

  function NotifyTitle(message: string): string {
    "Notify customer: " + message
  }

  function NotifyColumns(orderId: int, customerId: int): TaskPatch {
    NoTaskColumns.(relatedOrderId := Some(orderId), relatedCustomerId := Some(customerId), priority := Some(High))
  }

  /**
   * `update_order_message`: 404 for an unknown order; otherwise the driver's
   * message is logged as an SMS, a sent location moves the driver to
   * 'on_delivery' there, and a high-priority comms task to notify the
   * customer is filed.
   */
  function UpdateOrderMessage(s: State, now: Time, orderId: int, driverId: Option<int>, message: string,
                              location: Option<string>): (r: (State, int))
    requires Valid(s)
    ensures Valid(r.0)
    ensures r.0 == s.(drivers := r.0.drivers, messages := r.0.messages, tasks := r.0.tasks)
    ensures r.1 == NotFound <==> orderId !in s.orders.rows
    ensures r.1 != NotFound ==> r.1 == Ok
    ensures r.1 == NotFound ==> r.0 == s
  {
    match Get(s.orders, Some(orderId))
    case None => (s, NotFound)
    case Some(order) =>
      var s1 := LogMessage(s, now, orderId, FromDriver, driverId, message, ChannelSms).0;
      var s2 := if Truthy(location) && driverId.Some?
                then UpdateDriverStatus(s1, now, driverId.value, OnDelivery, location).0
                else s1;
      var s3 := CreateTask(s2, now, NotifyTitle(message), TaskNotifyCustomer, Comms, None,
                           NotifyColumns(orderId, order.data.customerId)).0;
      (s3, Ok)
  }

  // ========== agent endpoints ==========

  /** `acknowledge_task`: completes the task when an id is sent; always answers 200. */
  function AcknowledgeTask(s: State, now: Time, taskId: Option<int>): (r: State)
    requires Valid(s)
    ensures Valid(r)
    ensures r == s.(tasks := r.tasks)
    ensures taskId.None? ==> r == s
  {
    if taskId.Some? then CompleteTask(s, now, taskId.value).0 else s
  }
}
