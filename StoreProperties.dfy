/**
 * What the store's operations promise, stated over the value model: the
 * defaults of the create helpers, the columns each update touches, the
 * invoice arithmetic, and how completing a task changes the pending list.
 */
module StoreProperties {
  import opened Records
  import opened Tables
  import opened Ordering
  import opened Store
  import Text

  // ========== orders ==========

  /**
   * create_order: the defaults are status 'pending', a total price equal to
   * the base price and a deadline one day ahead; a column given in `kwargs`
   * wins over its default.
   */
  lemma CreateOrderDefaults(s: State, env: Env, now: Time, customerId: int, pickupAddress: string,
                            deliveryAddress: string, basePrice: real, deadline: Option<Time>,
                            kwargs: OrderPatch)
    requires Valid(s)
    ensures var (s', id) := CreateOrder(s, env, now, customerId, pickupAddress, deliveryAddress,
                                        basePrice, deadline, kwargs);
      var o := s'.orders.rows[id].data;
      && id !in s.orders.rows
      && |s'.orders.rows| == |s.orders.rows| + 1
      && o.customerId == customerId && o.pickupAddress == pickupAddress
      && o.deliveryAddress == deliveryAddress && o.basePrice == basePrice
      && o.status == (if kwargs.status.Some? then kwargs.status.value else Pending)
      && o.totalPrice == (if kwargs.totalPrice.Some? then kwargs.totalPrice.value else basePrice)
      && o.deadline == (if kwargs.deadline.Some? then kwargs.deadline.value
                        else if deadline.Some? then deadline.value else now + SecondsPerDay)
      && o.assignedDriverId == kwargs.assignedDriverId
      && o.orderNumber == Text.OrderNumber(env.yyyymmdd(now), env.uuid4(s.drawn))
  {
  }

  /** Without extra columns the new order is pending, at its base price, due in a day. */
  lemma CreateOrderPlain(s: State, env: Env, now: Time, customerId: int, pickupAddress: string,
                         deliveryAddress: string, basePrice: real)
    requires Valid(s)
    ensures var (s', id) := CreateOrder(s, env, now, customerId, pickupAddress, deliveryAddress,
                                        basePrice, None, NoOrderColumns);
      var o := s'.orders.rows[id].data;
      && o.status == Pending && o.totalPrice == basePrice && o.deadline == now + SecondsPerDay
      && o.assignedDriverId.None? && o.assignedAt.None? && o.pickupTime.None? && o.deliveryTime.None?
      && Entry(id, o) in OrdersByStatus(s', Pending)
  {
    var (s', id) := CreateOrder(s, env, now, customerId, pickupAddress, deliveryAddress,
                                basePrice, None, NoOrderColumns);
    assert s'.orders.rows[id].data.status == Pending;
  }

  /**
   * The order number is "ORD-", the eight date digits, "-" and the first
   * eight characters of the uuid in upper case, whenever the clock renders
   * the date as eight digits and the uuid has its standard text form.
   */
  lemma CreateOrderNumber(s: State, env: Env, now: Time, customerId: int, pickupAddress: string,
                          deliveryAddress: string, basePrice: real, deadline: Option<Time>,
                          kwargs: OrderPatch)
    requires Valid(s)
    requires |env.yyyymmdd(now)| == 8 && Text.AllDigits(env.yyyymmdd(now))
    requires Text.IsUuidText(env.uuid4(s.drawn))
    ensures var (s', id) := CreateOrder(s, env, now, customerId, pickupAddress, deliveryAddress,
                                        basePrice, deadline, kwargs);
      var n := s'.orders.rows[id].data.orderNumber;
      Text.HasNumberFormat(n, "ORD", 8) && n[4..12] == env.yyyymmdd(now)
  {
    Text.OrderNumberFormat(env.yyyymmdd(now), env.uuid4(s.drawn));
  }

  /**
   * assign_order: whatever the order's prior status, it gets the driver,
   * status 'assigned' and the assignment time; every other column and every
   * other row stay as they were.
   */
  lemma AssignOrderEffect(s: State, now: Time, orderId: int, driverId: int)
    requires Valid(s)
    ensures var (s', ok) := AssignOrder(s, now, orderId, driverId);
      && s' == s.(orders := s'.orders)
      && (ok <==> orderId in s.orders.rows)
      && (!ok ==> s' == s)
      && s'.orders.rows.Keys == s.orders.rows.Keys
      && (forall k :: k in s.orders.rows && k != orderId ==> s'.orders.rows[k] == s.orders.rows[k])
      && (ok ==>
           var o := s.orders.rows[orderId].data;
           var o' := s'.orders.rows[orderId].data;
           && o'.assignedDriverId == Some(driverId) && o'.status == Assigned
           && o'.assignedAt == Some(now) && s'.orders.rows[orderId].updatedAt == Some(now)
           && o' == o.(assignedDriverId := Some(driverId), status := Assigned, assignedAt := Some(now)))
  {
  }

  /**
   * update_order_status: the new status always; `delivery_time` only for
   * 'delivered', `pickup_time` only for 'in_transit'; nothing else.
   */
  lemma UpdateOrderStatusEffect(s: State, now: Time, orderId: int, status: string)
    requires Valid(s)
    ensures var (s', ok) := UpdateOrderStatus(s, now, orderId, status);
      && s' == s.(orders := s'.orders)
      && (ok <==> orderId in s.orders.rows)
      && (!ok ==> s' == s)
      && (forall k :: k in s.orders.rows && k != orderId ==> s'.orders.rows[k] == s.orders.rows[k])
      && (ok ==>
           var o := s.orders.rows[orderId].data;
           var o' := s'.orders.rows[orderId].data;
           o' == o.(status := status,
                    deliveryTime := if status == Delivered then Some(now) else o.deliveryTime,
                    pickupTime := if status == InTransit then Some(now) else o.pickupTime))
  {
  }

  // ========== drivers ==========

  /**
   * update_driver_status: status and last activity always; the location
   * only when a non-empty one is given. Whether the driver exists decides
   * the result and nothing else.
   */
  lemma UpdateDriverStatusEffect(s: State, now: Time, driverId: int, status: string, location: Option<string>)
    requires Valid(s)
    ensures var (s', ok) := UpdateDriverStatus(s, now, driverId, status, location);
      ok ==>
        var d := s.drivers.rows[driverId].data;
        s'.drivers.rows[driverId].data ==
          d.(status := status, lastActive := Some(now),
             currentLocation := if Truthy(location) then location else d.currentLocation)
  {
  }

  /** The first online driver has the smallest name of all online drivers. */
  lemma FirstActiveDriver(s: State)
    requires Valid(s)
    requires ActiveDrivers(s) != []
    ensures var best := ActiveDrivers(s)[0];
      && best.id in s.drivers.rows && IsOnline(s.drivers.rows[best.id].data)
      && forall k :: k in s.drivers.rows && IsOnline(s.drivers.rows[k].data) ==>
           StrLe(best.data.name, s.drivers.rows[k].data.name)
  {
    var r := ActiveDrivers(s);
    forall k | k in s.drivers.rows && IsOnline(s.drivers.rows[k].data)
      ensures StrLe(r[0].data.name, s.drivers.rows[k].data.name)
    {
      var e := Entry(k, s.drivers.rows[k].data);
      assert e in r;
      var j :| 0 <= j < |r| && r[j] == e;
      if j > 0 {
        assert StrLe(DriverName(r[0]), DriverName(r[j]));
      } else {
        StrLeTotalPreorder();
        assert StrLe(DriverName(r[0]), DriverName(r[0]));
      }
    }
  }

  // ========== invoices ==========

  /** Due `d` days after a time falls on the day `d` days after that time's day. */
  lemma DayOfShift(now: Time, d: int)
    ensures DayOf(now + d * SecondsPerDay) == DayOf(now) + d
  {
    var q := now / SecondsPerDay;
    var m := now % SecondsPerDay;
    assert now + d * SecondsPerDay == (q + d) * SecondsPerDay + m;
    assert 0 <= m < SecondsPerDay;
  }

  /**
   * create_invoice: net plus tax is the total exactly, the net amount times
   * 1.19 is the total, the status is 'draft' and the due date lies `dueDays`
   * days after the issue date.
   */
  lemma CreateInvoiceAmounts(s: State, env: Env, now: Time, customerId: int, orderId: int,
                             total: real, dueDays: int)
    requires Valid(s)
    ensures var (s', id) := CreateInvoice(s, env, now, customerId, orderId, total, dueDays);
      var inv := s'.invoices.rows[id].data;
      && inv.subtotal + inv.taxAmount == inv.totalAmount == total
      && inv.subtotal * GrossFactor == total
      && inv.status == Draft
      && inv.customerId == customerId && inv.orderId == orderId
      && inv.issueDate == DayOf(now)
      && inv.dueDate == inv.issueDate + dueDays
      && (total >= 0.0 ==> 0.0 <= inv.taxAmount <= inv.totalAmount)
  {
    DayOfShift(now, dueDays);
  }

  /** An illustration of CreateInvoiceAmounts, which holds for every total:
      at the 50.0 default order price the net lies in 42.01..42.02 and the tax in 7.98..7.99. */
  lemma InvoiceForDefaultPrice(s: State, env: Env, now: Time, customerId: int, orderId: int)
    requires Valid(s)
    ensures var (s', id) := CreateInvoice(s, env, now, customerId, orderId, 50.0, 30);
      var inv := s'.invoices.rows[id].data;
      42.01 < inv.subtotal < 42.02 && 7.98 < inv.taxAmount < 7.99
  {
    var sub := 50.0 / GrossFactor;
    assert sub * 1.19 == 50.0;
  }

  /**
   * A fresh invoice is a draft, so it is not among the unpaid invoices: the
   * unpaid list is the same before and after.
   */
  lemma FreshInvoiceNotUnpaid(s: State, env: Env, now: Time, customerId: int, orderId: int,
                              total: real, dueDays: int)
    requires Valid(s)
    ensures var (s', id) := CreateInvoice(s, env, now, customerId, orderId, total, dueDays);
      && Entry(id, s'.invoices.rows[id].data) !in UnpaidInvoices(s')
      && forall e :: e in UnpaidInvoices(s') <==> e in UnpaidInvoices(s)
  {
    var (s', id) := CreateInvoice(s, env, now, customerId, orderId, total, dueDays);
    assert !IsUnpaid(s'.invoices.rows[id].data);
  }

  // ========== tasks ==========

  /**
   * create_task: a pending task due 24 hours ahead unless a deadline is
   * given; it then shows among the pending tasks, of its role and of all.
   */
  lemma CreateTaskPending(s: State, now: Time, title: string, taskType: string, assignedTo: string,
                          deadline: Option<Time>, kwargs: TaskPatch)
    requires Valid(s)
    requires kwargs.status.None?
    ensures var (s', id) := CreateTask(s, now, title, taskType, assignedTo, deadline, kwargs);
      var t := s'.tasks.rows[id].data;
      && t.status == Pending
      && t.title == title && t.taskType == taskType && t.assignedTo == assignedTo
      && t.deadline == (if deadline.Some? then deadline.value else now + 24 * SecondsPerHour)
      && Entry(id, t) in PendingTasks(s', "")
      && Entry(id, t) in PendingTasks(s', assignedTo)
  {
    var (s', id) := CreateTask(s, now, title, taskType, assignedTo, deadline, kwargs);
    var t := s'.tasks.rows[id].data;
    assert IsPendingFor(t, "") && IsPendingFor(t, assignedTo);
  }

  /** create_task adds its task to the full pending list and leaves every other entry as it was. */
  lemma CreateTaskPendingList(s: State, now: Time, title: string, taskType: string, assignedTo: string,
                              deadline: Option<Time>, kwargs: TaskPatch)
    requires Valid(s)
    requires kwargs.status.None?
    ensures var (s', id) := CreateTask(s, now, title, taskType, assignedTo, deadline, kwargs);
      forall e :: e in PendingTasks(s', "") <==> e in PendingTasks(s, "") || e == Entry(id, s'.tasks.rows[id].data)
  {
    var (s', id) := CreateTask(s, now, title, taskType, assignedTo, deadline, kwargs);
    var t := s'.tasks.rows[id].data;
    assert IsPendingFor(t, "");
    forall e ensures e in PendingTasks(s', "") <==> e in PendingTasks(s, "") || e == Entry(id, t) {
      if e.id == id {
        assert e.id !in s.tasks.rows;
      }
    }
  }

  /**
   * complete_task: the completed task leaves every pending list; every other
   * task is listed exactly as before.
   */
  lemma CompleteTaskPending(s: State, now: Time, taskId: int, assignedTo: string)
    requires Valid(s)
    ensures var (s', ok) := CompleteTask(s, now, taskId);
      && (ok ==> s'.tasks.rows[taskId].data.status == Completed
                 && s'.tasks.rows[taskId].data.completedAt == Some(now))
      && forall e :: e in PendingTasks(s', assignedTo) <==>
           e in PendingTasks(s, assignedTo) && e.id != taskId
  {
    var (s', ok) := CompleteTask(s, now, taskId);
    forall e ensures e in PendingTasks(s', assignedTo) <==> e in PendingTasks(s, assignedTo) && e.id != taskId {
      if e.id == taskId && ok {
        assert !IsPendingFor(s'.tasks.rows[taskId].data, assignedTo);
      }
    }
  }
}
