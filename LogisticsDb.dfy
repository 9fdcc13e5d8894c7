/**
 * `LogisticsDB`: the store object the engine and the HTTP handlers share.
 * Its six tables are fields that every helper reassigns in place; each
 * helper is proved to leave the object in the state the matching function
 * of `Store` describes. Reads go through `State()` and the query functions
 * of `Store`.
 */
module LogisticsDb {
  import opened Records
  import opened Tables
  import Store

  class LogisticsDB {
    var customers: Table<Customer>
    var orders: Table<Order>
    var drivers: Table<Driver>
    var invoices: Table<Invoice>
    var messages: Table<Message>
    var tasks: Table<Task>
    /** How many uuids the create helpers have drawn so far. */
    var drawn: nat
    /** The source of uuid texts and date renderings. */
    const env: Env

    function State(): Store.State
      reads this
    {
      Store.State(customers, orders, drivers, invoices, messages, tasks, drawn)
    }

    ghost predicate Valid()
      reads this
    {
      Store.Valid(State())
    }

    /** An empty store. */
    constructor(env: Env)
      ensures Valid()
      ensures State() == Store.Empty() && this.env == env
    {
      customers := Tables.Empty();
      orders := Tables.Empty();
      drivers := Tables.Empty();
      invoices := Tables.Empty();
      messages := Tables.Empty();
      tasks := Tables.Empty();
      drawn := 0;
      this.env := env;
    }

    // ========== customers ==========

    method CreateCustomer(name: string, phone: string, address: string, email: Option<string>,
                          city: Option<string>, companyName: Option<string>) returns (id: int)
      requires Valid()
      modifies this
      ensures Valid()
      ensures (State(), id) == Store.CreateCustomer(old(State()), name, phone, address, email, city, companyName)
    {
      var data := Customer(name, phone, address, Store.OrEmpty(email), Store.OrEmpty(city), Store.OrEmpty(companyName));
      var r := Insert(customers, data);
      customers, id := r.0, r.1;
    }

    // ========== orders ==========

    method CreateOrder(now: Time, customerId: int, pickupAddress: string, deliveryAddress: string,
                       basePrice: real, deadline: Option<Time>, kwargs: OrderPatch) returns (id: int)
      requires Valid()
      modifies this
      ensures Valid()
      ensures (State(), id) == Store.CreateOrder(old(State()), env, now, customerId, pickupAddress,
                                                 deliveryAddress, basePrice, deadline, kwargs)
    {
      var data := Store.NewOrder(env, now, drawn, customerId, pickupAddress, deliveryAddress,
                                 basePrice, deadline, kwargs);
      drawn := drawn + 1;
      var r := Insert(orders, data);
      orders, id := r.0, r.1;
    }

    /** `update('orders', id, data)`. */
    method UpdateOrder(now: Time, orderId: int, patch: OrderPatch) returns (ok: bool)
      requires Valid()
      modifies this
      ensures Valid()
      ensures (State(), ok) == Store.UpdateOrder(old(State()), now, orderId, patch)
    {
      var r := Update(orders, orderId, patch, PatchOrder, now);
      orders, ok := r.0, r.1;
    }

    method AssignOrder(now: Time, orderId: int, driverId: int) returns (ok: bool)
      requires Valid()
      modifies this
      ensures Valid()
      ensures (State(), ok) == Store.AssignOrder(old(State()), now, orderId, driverId)
    {
      ok := UpdateOrder(now, orderId, Store.AssignPatch(driverId, now));
    }

    method UpdateOrderStatus(now: Time, orderId: int, status: string) returns (ok: bool)
      requires Valid()
      modifies this
      ensures Valid()
      ensures (State(), ok) == Store.UpdateOrderStatus(old(State()), now, orderId, status)
    {
      var data := NoOrderColumns.(status := Some(status));
      if status == Delivered {
        data := data.(deliveryTime := Some(now));
      } else if status == InTransit {
        data := data.(pickupTime := Some(now));
      }
      ok := UpdateOrder(now, orderId, data);
    }

    // ========== drivers ==========

    /** A direct `insert('drivers', data)`. */
    method InsertDriver(d: Driver) returns (id: int)
      requires Valid()
      modifies this
      ensures Valid()
      ensures (State(), id) == Store.InsertDriver(old(State()), d)
    {
      var r := Insert(drivers, d);
      drivers, id := r.0, r.1;
    }

    method UpdateDriverStatus(now: Time, driverId: int, status: string, location: Option<string>)
      returns (ok: bool)
      requires Valid()
      modifies this
      ensures Valid()
      ensures (State(), ok) == Store.UpdateDriverStatus(old(State()), now, driverId, status, location)
    {
      var data := DriverPatch(Some(status), None, Some(now));
      if Truthy(location) {
        data := data.(currentLocation := location);
      }
      var r := Update(drivers, driverId, data, PatchDriver, now);
      drivers, ok := r.0, r.1;
    }

    // ========== invoices ==========

    method CreateInvoice(now: Time, customerId: int, orderId: int, totalAmount: real, dueDays: int)
      returns (id: int)
      requires Valid()
      modifies this
      ensures Valid()
      ensures (State(), id) == Store.CreateInvoice(old(State()), env, now, customerId, orderId, totalAmount, dueDays)
    {
      var data := Store.NewInvoice(env, now, drawn, customerId, orderId, totalAmount, dueDays);
      drawn := drawn + 1;
      var r := Insert(invoices, data);
      invoices, id := r.0, r.1;
    }

    // ========== messages ==========

    method LogMessage(now: Time, orderId: int, fromType: string, fromId: Option<int>,
                      text: string, channel: string) returns (id: int)
      requires Valid()
      modifies this
      ensures Valid()
      ensures (State(), id) == Store.LogMessage(old(State()), now, orderId, fromType, fromId, text, channel)
    {
      var r := Insert(messages, Message(orderId, fromType, fromId, RecipientSystem, 0, text, channel, now));
      messages, id := r.0, r.1;
    }

    // ========== tasks ==========

    method CreateTask(now: Time, title: string, taskType: string, assignedTo: string,
                      deadline: Option<Time>, kwargs: TaskPatch) returns (id: int)
      requires Valid()
      modifies this
      ensures Valid()
      ensures (State(), id) == Store.CreateTask(old(State()), now, title, taskType, assignedTo, deadline, kwargs)
    {
      var r := Insert(tasks, Store.NewTask(now, title, taskType, assignedTo, deadline, kwargs));
      tasks, id := r.0, r.1;
    }

    method CompleteTask(now: Time, taskId: int) returns (ok: bool)
      requires Valid()
      modifies this
      ensures Valid()
      ensures (State(), ok) == Store.CompleteTask(old(State()), now, taskId)
    {
      var r := Update(tasks, taskId, Store.CompletePatch(now), PatchTask, now);
      tasks, ok := r.0, r.1;
    }
  }
}
