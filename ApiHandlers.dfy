/**
 * The bodies of the HTTP handlers, as calls on the shared `LogisticsDB`
 * in the order the handlers make them. Each returns the status code (and
 * the ids or rows the response reports) and is proved to leave the store as
 * the function of the same name in `Api` says.
 */
module ApiHandlers {
  import opened Records
  import opened Tables
  import Store
  import opened Api
  import opened LogisticsDb

  /** `POST /api/customer/order` */
  method CreateNewOrder(db: LogisticsDB, now: Time, req: OrderRequest)
    returns (code: int, orderId: int, customerId: int)
    requires db.Valid()
    modifies db
    ensures db.Valid()
    ensures code == Created
    ensures (db.State(), orderId, customerId) == Api.CreateNewOrder(old(db.State()), db.env, now, req)
  {
    var customer := Store.FindCustomer(db.State(), Store.OrEmpty(req.email), "");
    if customer.None? {
      customerId := db.CreateCustomer(req.name, req.phone, req.address, req.email, req.city, None);
    } else {
      customerId := customer.value.id;
    }
    orderId := db.CreateOrder(now, customerId, req.pickupAddress, req.deliveryAddress, PriceOf(req),
                              None, OrderColumns(req));
    var taskId := db.CreateTask(now, AssignTaskTitle(orderId), TaskAssignDriver, Scheduler, None,
                                AssignTaskColumns(orderId));
    code := Created;
  }

  /** `POST /api/driver/login` */
  method DriverLogin(db: LogisticsDB, now: Time, driverId: Option<int>, phone: Option<string>)
    returns (code: int, orders: seq<Entry<Order>>)
    requires db.Valid()
    modifies db
    ensures db.Valid()
    ensures (db.State(), code, orders) == Api.DriverLogin(old(db.State()), now, driverId, phone)
  {
    if driverId.None? || driverId.value == 0 || !Truthy(phone) {
      return BadRequest, [];
    }
    var driver := Get(db.drivers, driverId);
    if driver.None? || driver.value.data.phone != phone.value {
      return Unauthorized, [];
    }
    var updated := db.UpdateDriverStatus(now, driverId.value, Online, None);
    orders := Store.OrdersByDriver(db.State(), driverId.value);
    code := Ok;
  }

  /** `POST /api/driver/status` */
  method UpdateDriverStatus(db: LogisticsDB, now: Time, driverId: Option<int>, status: Option<string>,
                            location: Option<string>) returns (code: int)
    requires db.Valid()
    modifies db
    ensures db.Valid()
    ensures (db.State(), code) == Api.UpdateDriverStatusRequest(old(db.State()), now, driverId, status, location)
  {
    if driverId.None? || driverId.value == 0 || !Truthy(status) {
      return BadRequest;
    }
    var updated := db.UpdateDriverStatus(now, driverId.value, status.value, location);
    code := Ok;
  }

  /** `POST /api/driver/order/<id>/start` */
  method StartDelivery(db: LogisticsDB, now: Time, orderId: int, driverId: Option<int>) returns (code: int)
    requires db.Valid()
    modifies db
    ensures db.Valid()
    ensures (db.State(), code) == Api.StartDelivery(old(db.State()), now, orderId, driverId)
  {
    var order := Get(db.orders, Some(orderId));
    if order.None? {
      return NotFound;
    }
    var updated := db.UpdateOrderStatus(now, orderId, InTransit);
    var messageId := db.LogMessage(now, orderId, FromDriver, driverId, StartedText(order.value.data), ChannelSystem);
    code := Ok;
  }

  /** `POST /api/driver/order/<id>/complete` */
  method CompleteDelivery(db: LogisticsDB, now: Time, orderId: int, driverId: Option<int>, c: Completion)
    returns (code: int, invoiceId: Option<int>)
    requires db.Valid()
    modifies db
    ensures db.Valid()
    ensures (db.State(), code, invoiceId) == Api.CompleteDelivery(old(db.State()), db.env, now, orderId, driverId, c)
  {
    var order := Get(db.orders, Some(orderId));
    if order.None? {
      return NotFound, None;
    }
    var updated := db.UpdateOrder(now, orderId, DeliveredColumns(now, c));
    var messageId := db.LogMessage(now, orderId, FromDriver, driverId, CompletedText(c), ChannelSystem);
    var id := db.CreateInvoice(now, order.value.data.customerId, orderId, order.value.data.totalPrice, 30);
    var taskId := db.CreateTask(now, ConfirmationTitle(order.value.data.customerId), TaskSendEmail, Secretary,
                                None, ConfirmationColumns(orderId, order.value.data.customerId));
    code, invoiceId := Ok, Some(id);
  }

  /** `POST /api/driver/order/<id>/update` */
  method UpdateOrderMessage(db: LogisticsDB, now: Time, orderId: int, driverId: Option<int>, message: string,
                            location: Option<string>) returns (code: int)
    requires db.Valid()
    modifies db
    ensures db.Valid()
    ensures (db.State(), code) == Api.UpdateOrderMessage(old(db.State()), now, orderId, driverId, message, location)
  {
    var order := Get(db.orders, Some(orderId));
    if order.None? {
      return NotFound;
    }
    var messageId := db.LogMessage(now, orderId, FromDriver, driverId, message, ChannelSms);
    if Truthy(location) && driverId.Some? {
      var updated := db.UpdateDriverStatus(now, driverId.value, OnDelivery, location);
    }
    var taskId := db.CreateTask(now, NotifyTitle(message), TaskNotifyCustomer, Comms, None,
                                NotifyColumns(orderId, order.value.data.customerId));
    code := Ok;
  }

  /** `POST /api/agent/acknowledge-task` */
  method AcknowledgeTask(db: LogisticsDB, now: Time, taskId: Option<int>) returns (code: int)
    requires db.Valid()
    modifies db
    ensures db.Valid()
    ensures code == Ok
    ensures db.State() == Api.AcknowledgeTask(old(db.State()), now, taskId)
  {
    if taskId.Some? {
      var completed := db.CompleteTask(now, taskId.value);
    }
    code := Ok;
  }
}
