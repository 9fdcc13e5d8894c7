/**
 * What each HTTP handler promises about the store: the rows it creates,
 * the columns it changes, what it leaves alone, and what repeating a
 * request does.
 */
module ApiProperties {
  import opened Records
  import opened Tables
  import opened Store
  import opened Api
  import StoreProperties

  // ========== create_new_order ==========

  /**
   * The order is booked for the customer with the request's email when
   * there is one; otherwise exactly one customer is added, with the
   * request's name, phone, address, email and city.
   */
  lemma CreateNewOrderCustomer(s: State, env: Env, now: Time, req: OrderRequest)
    requires Valid(s)
    ensures var (s', orderId, customerId) := CreateNewOrder(s, env, now, req);
      var found := FindCustomer(s, OrEmpty(req.email), "");
      && (found.Some? ==> customerId == found.value.id && s'.customers == s.customers
                          && s.customers.rows[customerId].data.email == req.email.value)
      && (found.None? ==> Added(s.customers, s'.customers, customerId,
            Customer(req.name, req.phone, req.address, OrEmpty(req.email), OrEmpty(req.city), "")))
      && (!Truthy(req.email) ==> found.None?)
  {
  }

  /**
   * The new order belongs to that customer, is pending, costs the requested
   * price (50.0 when none is named) and is due one day later; no other
   * order changes.
   */
  lemma CreateNewOrderOrder(s: State, env: Env, now: Time, req: OrderRequest)
    requires Valid(s)
    ensures var (s', orderId, customerId) := CreateNewOrder(s, env, now, req);
      var o := s'.orders.rows[orderId].data;
      && orderId !in s.orders.rows
      && s'.orders.rows.Keys == s.orders.rows.Keys + {orderId}
      && (forall k :: k in s.orders.rows ==> s'.orders.rows[k] == s.orders.rows[k])
      && o.customerId == customerId && customerId in s'.customers.rows
      && o.pickupAddress == req.pickupAddress && o.deliveryAddress == req.deliveryAddress
      && o.status == Pending
      && o.basePrice == o.totalPrice == PriceOf(req)
      && (req.price.None? ==> o.totalPrice == DefaultPrice)
      && o.deadline == now + SecondsPerDay
      && o.parcelDescription == req.description && o.weightKg == Some(WeightOf(req))
      && o.assignedDriverId.None?
      && Entry(orderId, o) in OrdersByStatus(s', Pending)
  {
    var (s1, customerId) := OrderCustomer(s, req);
    var (s2, orderId) := CreateOrder(s1, env, now, customerId, req.pickupAddress, req.deliveryAddress,
                                     PriceOf(req), None, OrderColumns(req));
    var s3 := CreateTask(s2, now, AssignTaskTitle(orderId), TaskAssignDriver, Scheduler, None,
                         AssignTaskColumns(orderId)).0;
    assert CreateNewOrder(s, env, now, req) == (s3, orderId, customerId);
    assert s3.orders == s2.orders;
    var o := s2.orders.rows[orderId].data;
    assert o == NewOrder(env, now, s1.drawn, customerId, req.pickupAddress, req.deliveryAddress,
                         PriceOf(req), None, OrderColumns(req));
    assert o.status == Pending;
  }

  /**
   * Exactly one task is filed: a pending, high-priority 'assign_driver'
   * task for the scheduler about the new order, which the scheduler's
   * pending list then holds.
   */
  lemma CreateNewOrderTask(s: State, env: Env, now: Time, req: OrderRequest)
    requires Valid(s)
    ensures var (s', orderId, customerId) := CreateNewOrder(s, env, now, req);
      var t := Task(AssignTaskTitle(orderId), TaskAssignDriver, Scheduler, now + 24 * SecondsPerHour,
                    Pending, Some(High), Some(orderId), None, None, None);
      exists id ::
        && Added(s.tasks, s'.tasks, id, t)
        && Entry(id, t) in PendingTasks(s', Scheduler)
  {
    var (s1, customerId) := OrderCustomer(s, req);
    var (s2, orderId) := CreateOrder(s1, env, now, customerId, req.pickupAddress, req.deliveryAddress,
                                     PriceOf(req), None, OrderColumns(req));
    var (s3, id) := CreateTask(s2, now, AssignTaskTitle(orderId), TaskAssignDriver, Scheduler, None,
                               AssignTaskColumns(orderId));
    StoreProperties.CreateTaskPending(s2, now, AssignTaskTitle(orderId), TaskAssignDriver, Scheduler, None,
                                      AssignTaskColumns(orderId));
    assert s3 == CreateNewOrder(s, env, now, req).0;
  }

  // ========== driver endpoints ==========

  /**
   * A successful login puts the driver online (its location kept) and
   * returns exactly the orders assigned to it, by deadline.
   */
  lemma DriverLoginEffect(s: State, now: Time, driverId: Option<int>, phone: Option<string>)
    requires Valid(s)
    ensures var (s', code, orders) := DriverLogin(s, now, driverId, phone);
      code == Ok ==>
        var d := s.drivers.rows[driverId.value].data;
        && Truthy(phone) && d.phone == phone.value
        && s'.drivers.rows[driverId.value].data == d.(status := Online, lastActive := Some(now))
        && (forall k :: k in s.drivers.rows && k != driverId.value ==> s'.drivers.rows[k] == s.drivers.rows[k])
        && orders == OrdersByDriver(s, driverId.value)
        && (forall e :: e in orders <==> e.id in s.orders.rows && e.data == s.orders.rows[e.id].data
                                         && e.data.assignedDriverId == driverId)
  {
    var (s', code, orders) := DriverLogin(s, now, driverId, phone);
    if code == Ok {
      StoreProperties.UpdateDriverStatusEffect(s, now, driverId.value, Online, None);
      assert s'.orders == s.orders;
    }
  }

  /** A status update for a driver id no row has still answers 200, and changes nothing. */
  lemma UpdateDriverStatusUnknown(s: State, now: Time, driverId: int, status: string, location: Option<string>)
    requires Valid(s)
    requires driverId != 0 && status != "" && driverId !in s.drivers.rows
    ensures UpdateDriverStatusRequest(s, now, Some(driverId), Some(status), location) == (s, Ok)
  {
  }

  /** A valid status update sets the status and activity time, and the location only when one is sent. */
  lemma UpdateDriverStatusRequestEffect(s: State, now: Time, driverId: int, status: string, location: Option<string>)
    requires Valid(s)
    requires driverId != 0 && status != "" && driverId in s.drivers.rows
    ensures var (s', code) := UpdateDriverStatusRequest(s, now, Some(driverId), Some(status), location);
      var d := s.drivers.rows[driverId].data;
      && code == Ok
      && s'.drivers.rows[driverId].data ==
           d.(status := status, lastActive := Some(now),
              currentLocation := if Truthy(location) then location else d.currentLocation)
  {
    StoreProperties.UpdateDriverStatusEffect(s, now, driverId, status, location);
  }

  // ========== start_delivery ==========

  /**
   * Starting a delivery puts the order in transit with a pickup time,
   * whatever its status was, leaves every other order alone and logs one
   * system message from the driver.
   */
  lemma StartDeliveryEffect(s: State, now: Time, orderId: int, driverId: Option<int>)
    requires Valid(s)
    requires orderId in s.orders.rows
    ensures var (s', code) := StartDelivery(s, now, orderId, driverId);
      var o := s.orders.rows[orderId].data;
      && code == Ok
      && s'.orders.rows.Keys == s.orders.rows.Keys
      && s'.orders.rows[orderId].data == o.(status := InTransit, pickupTime := Some(now))
      && (forall k :: k in s.orders.rows && k != orderId ==> s'.orders.rows[k] == s.orders.rows[k])
      && exists id :: Added(s.messages, s'.messages, id,
           Message(orderId, FromDriver, driverId, RecipientSystem, 0, StartedText(o), ChannelSystem, now))
  {
    var o := s.orders.rows[orderId].data;
    StoreProperties.UpdateOrderStatusEffect(s, now, orderId, InTransit);
    var s1 := UpdateOrderStatus(s, now, orderId, InTransit).0;
    var (s2, id) := LogMessage(s1, now, orderId, FromDriver, driverId, StartedText(o), ChannelSystem);
    assert (s2, Ok) == StartDelivery(s, now, orderId, driverId);
  }

  // ========== complete_delivery ==========

  /**
   * Completing a delivery marks the order delivered now and records the
   * proofs that were sent; a proof that was not sent keeps its old value.
   */
  lemma CompleteDeliveryOrder(s: State, env: Env, now: Time, orderId: int, driverId: Option<int>, c: Completion)
    requires Valid(s)
    requires orderId in s.orders.rows
    ensures var (s', code, invoiceId) := CompleteDelivery(s, env, now, orderId, driverId, c);
      var o := s.orders.rows[orderId].data;
      && s'.orders.rows.Keys == s.orders.rows.Keys
      && s'.orders.rows[orderId].data ==
           o.(status := Delivered, deliveryTime := Some(now),
              photoPath := if Truthy(c.photoPath) then c.photoPath else o.photoPath,
              signaturePath := if Truthy(c.signaturePath) then c.signaturePath else o.signaturePath)
      && (forall k :: k in s.orders.rows && k != orderId ==> s'.orders.rows[k] == s.orders.rows[k])
  {
    var s1 := UpdateOrder(s, now, orderId, DeliveredColumns(now, c)).0;
    assert CompleteDelivery(s, env, now, orderId, driverId, c).0.orders == s1.orders;
  }

  /**
   * Completing a delivery creates one draft invoice for the order's
   * customer over the order's total price, due 30 days after issue.
   */
  lemma CompleteDeliveryInvoice(s: State, env: Env, now: Time, orderId: int, driverId: Option<int>, c: Completion)
    requires Valid(s)
    requires orderId in s.orders.rows
    ensures var (s', code, invoiceId) := CompleteDelivery(s, env, now, orderId, driverId, c);
      var o := s.orders.rows[orderId].data;
      && invoiceId.Some?
      && invoiceId.value !in s.invoices.rows
      && s'.invoices.rows.Keys == s.invoices.rows.Keys + {invoiceId.value}
      && |s'.invoices.rows| == |s.invoices.rows| + 1
      && (forall k :: k in s.invoices.rows ==> s'.invoices.rows[k] == s.invoices.rows[k])
      && var inv := s'.invoices.rows[invoiceId.value].data;
         && inv.orderId == orderId && inv.customerId == o.customerId
         && inv.totalAmount == o.totalPrice && inv.subtotal + inv.taxAmount == inv.totalAmount
         && inv.status == Draft && inv.dueDate == inv.issueDate + 30
  {
    var o := s.orders.rows[orderId].data;
    var s1 := UpdateOrder(s, now, orderId, DeliveredColumns(now, c)).0;
    var s2 := LogMessage(s1, now, orderId, FromDriver, driverId, CompletedText(c), ChannelSystem).0;
    StoreProperties.CreateInvoiceAmounts(s2, env, now, o.customerId, orderId, o.totalPrice, 30);
    var (s3, invoiceId) := CreateInvoice(s2, env, now, o.customerId, orderId, o.totalPrice, 30);
    assert CompleteDelivery(s, env, now, orderId, driverId, c).0.invoices == s3.invoices;
  }

  /**
   * Completing a delivery logs one system message from the driver and
   * files one secretary task to mail the customer a confirmation.
   */
  lemma CompleteDeliveryRecords(s: State, env: Env, now: Time, orderId: int, driverId: Option<int>, c: Completion)
    requires Valid(s)
    requires orderId in s.orders.rows
    ensures var (s', code, invoiceId) := CompleteDelivery(s, env, now, orderId, driverId, c);
      var o := s.orders.rows[orderId].data;
      var t := Task(ConfirmationTitle(o.customerId), TaskSendEmail, Secretary, now + 24 * SecondsPerHour,
                    Pending, None, Some(orderId), Some(o.customerId), None, None);
      && (exists id :: Added(s.messages, s'.messages, id,
            Message(orderId, FromDriver, driverId, RecipientSystem, 0, CompletedText(c), ChannelSystem, now)))
      && (exists id :: Added(s.tasks, s'.tasks, id, t))
  {
    var o := s.orders.rows[orderId].data;
    var s1 := UpdateOrder(s, now, orderId, DeliveredColumns(now, c)).0;
    var (s2, mid) := LogMessage(s1, now, orderId, FromDriver, driverId, CompletedText(c), ChannelSystem);
    var s3 := CreateInvoice(s2, env, now, o.customerId, orderId, o.totalPrice, 30).0;
    var (s4, tid) := CreateTask(s3, now, ConfirmationTitle(o.customerId), TaskSendEmail, Secretary, None,
                                ConfirmationColumns(orderId, o.customerId));
    assert CompleteDelivery(s, env, now, orderId, driverId, c).0 == s4;
  }

  /**
   * Nothing stops a delivery from being completed twice: the second call
   * creates a second invoice for the same order, logs a second message and
   * files a second confirmation task for the secretary.
   */
  lemma CompleteDeliveryTwice(s: State, env: Env, now: Time, later: Time, orderId: int, driverId: Option<int>,
                              c: Completion, c': Completion)
    requires Valid(s)
    requires orderId in s.orders.rows
    ensures var (s1, code1, first) := CompleteDelivery(s, env, now, orderId, driverId, c);
      var (s2, code2, second) := CompleteDelivery(s1, env, later, orderId, driverId, c');
      && code1 == Ok && code2 == Ok
      && first.Some? && second.Some? && first.value != second.value
      && first.value in s2.invoices.rows && second.value in s2.invoices.rows
      && s2.invoices.rows[first.value].data.orderId == orderId
      && s2.invoices.rows[second.value].data.orderId == orderId
      && |s2.invoices.rows| == |s.invoices.rows| + 2
      && |s2.messages.rows| == |s.messages.rows| + 2
      && |s2.tasks.rows| == |s.tasks.rows| + 2
      && var customerId := s.orders.rows[orderId].data.customerId;
         var t1 := Task(ConfirmationTitle(customerId), TaskSendEmail, Secretary, now + 24 * SecondsPerHour,
                        Pending, None, Some(orderId), Some(customerId), None, None);
         var t2 := Task(ConfirmationTitle(customerId), TaskSendEmail, Secretary, later + 24 * SecondsPerHour,
                        Pending, None, Some(orderId), Some(customerId), None, None);
         && (exists id :: Added(s.tasks, s1.tasks, id, t1))
         && (exists id :: Added(s1.tasks, s2.tasks, id, t2))
  {
    CompleteDeliveryInvoice(s, env, now, orderId, driverId, c);
    var (s1, code1, first) := CompleteDelivery(s, env, now, orderId, driverId, c);
    CompleteDeliveryOrder(s, env, now, orderId, driverId, c);
    CompleteDeliveryRecords(s, env, now, orderId, driverId, c);
    CompleteDeliveryInvoice(s1, env, later, orderId, driverId, c');
    CompleteDeliveryRecords(s1, env, later, orderId, driverId, c');
    var (s2, code2, second) := CompleteDelivery(s1, env, later, orderId, driverId, c');
  }

  // ========== update_order_message ==========

  /**
   * A driver's update is logged as an SMS; the driver moves to
   * 'on_delivery' at the sent location only when a location and a known
   * driver id were sent; one high-priority comms task to notify the order's
   * customer is filed.
   */
  lemma UpdateOrderMessageEffect(s: State, now: Time, orderId: int, driverId: Option<int>, message: string,
                                 location: Option<string>)
    requires Valid(s)
    requires orderId in s.orders.rows
    ensures var (s', code) := UpdateOrderMessage(s, now, orderId, driverId, message, location);
      var customerId := s.orders.rows[orderId].data.customerId;
      && code == Ok
      && (exists id :: Added(s.messages, s'.messages, id,
            Message(orderId, FromDriver, driverId, RecipientSystem, 0, message, ChannelSms, now)))
      && (if Truthy(location) && driverId.Some? && driverId.value in s.drivers.rows then
            var d := s.drivers.rows[driverId.value].data;
            && s'.drivers.rows[driverId.value].data ==
                 d.(status := OnDelivery, currentLocation := location, lastActive := Some(now))
            && (forall k :: k in s.drivers.rows && k != driverId.value ==> s'.drivers.rows[k] == s.drivers.rows[k])
          else s'.drivers == s.drivers)
      && var t := Task(NotifyTitle(message), TaskNotifyCustomer, Comms, now + 24 * SecondsPerHour,
                       Pending, Some(High), Some(orderId), Some(customerId), None, None);
         exists id :: Added(s.tasks, s'.tasks, id, t)
  {
    var customerId := s.orders.rows[orderId].data.customerId;
    var (s1, mid) := LogMessage(s, now, orderId, FromDriver, driverId, message, ChannelSms);
    var s2 := if Truthy(location) && driverId.Some?
              then UpdateDriverStatus(s1, now, driverId.value, OnDelivery, location).0
              else s1;
    if Truthy(location) && driverId.Some? {
      StoreProperties.UpdateDriverStatusEffect(s1, now, driverId.value, OnDelivery, location);
    }
    var (s3, tid) := CreateTask(s2, now, NotifyTitle(message), TaskNotifyCustomer, Comms, None,
                                NotifyColumns(orderId, customerId));
    assert UpdateOrderMessage(s, now, orderId, driverId, message, location).0 == s3;
  }

  // ========== acknowledge_task ==========

  /**
   * An acknowledged task drops out of every pending list; every other
   * pending task stays. Acknowledging without an id changes nothing.
   */
  lemma AcknowledgeTaskEffect(s: State, now: Time, taskId: Option<int>, role: string)
    requires Valid(s)
    ensures var s' := AcknowledgeTask(s, now, taskId);
      forall e :: e in PendingTasks(s', role) <==>
        e in PendingTasks(s, role) && (taskId.None? || e.id != taskId.value)
  {
    if taskId.Some? {
      StoreProperties.CompleteTaskPending(s, now, taskId.value, role);
    }
  }

  /** Acknowledging the same task again leaves the pending lists with the same tasks. */
  lemma AcknowledgeTaskTwice(s: State, now: Time, later: Time, taskId: Option<int>, role: string)
    requires Valid(s)
    ensures var once := AcknowledgeTask(s, now, taskId);
      forall e :: e in PendingTasks(AcknowledgeTask(once, later, taskId), role) <==> e in PendingTasks(once, role)
  {
    var once := AcknowledgeTask(s, now, taskId);
    AcknowledgeTaskEffect(s, now, taskId, role);
    AcknowledgeTaskEffect(once, later, taskId, role);
  }
}
