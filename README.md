# Logistik core in Dafny

Logistik is a small delivery-logistics back end. It has three parts:

- **The store (`LogisticsDB`).** A thin wrapper over six tables: customers, orders, drivers, invoices, messages and tasks. It offers insert, update and query helpers.
- **The workflow engine.** A dispatcher that polls the pending tasks, groups them by the agent role they are assigned to, and hands each group to that role's handler: secretary, accounting, scheduler or comms.
- **The HTTP handlers.** They book orders, log drivers in, move deliveries through their states, record driver messages and acknowledge tasks.

This project models those three parts and proves what they promise.

Layout:

- `Records.dfy`: the row types, status and role constants, column patches, and time as whole seconds.
- `Tables.dfy`: a table as a map from id to row plus the next id. It defines insert, update, get by id, and a filtered, ordered select.
- `Ordering.dfy`: sortedness, insertion sort by key, and the integer and text orders.
- `Text.dfy`: `str(int)`, `upper()` and the `ORD-…`/`INV-…` number formats.
- `Store.dfy`: the store as a value `State`, with one function per `LogisticsDB` helper.
- `StoreProperties.dfy`: lemmas about those functions.
- `LogisticsDb.dfy`: the `LogisticsDB` class. Its fields are the six tables, which every method reassigns in place. Each method is proved to leave `State()` as the `Store` function of the same name says.
- `Workflow.dfy`: one dispatcher cycle as a function of the store, role handlers included.
- `WorkflowProperties.dfy`: lemmas about the cycle.
- `WorkflowEngine.dfy`: the `WorkflowEngine` class with the grouping loop, the routing loop and the handler loops. Each loop is proved against `Workflow`.
- `Api.dfy`: one function per HTTP handler. The JSON body becomes parameters, with an absent key as `None`. The response becomes a status code plus the ids or rows the handler reports.
- `ApiHandlers.dfy`: the handler bodies as sequences of calls on a `LogisticsDB` object, proved against `Api`.
- `ApiProperties.dfy`: lemmas about the handlers.

Time is a whole number of seconds and a day is `time / 86400`. The current time and the uuid texts are inputs: each operation takes `now`, and the uuid source is an `Env` fixed in the store object. Each uuid drawn advances a counter, so two numbers drawn in one run come from different draws.

The model follows the code as written, which guards less than an order state machine would:

- **No status transition is guarded.** `start_delivery`, `complete_delivery`, `assign_order` and `_task_assign_driver` overwrite the status whatever it was.
- **Drivers are not tied to status.** A delivered order keeps its driver, a pending order may have one through `update`, and a completed delivery never clears it.
- **A repeated completion repeats everything.** Completing a delivery twice creates a second invoice for the same order.
- **Tasks are never completed by the engine.** No handler marks its task done, so a pending task is handled again on every cycle until an agent acknowledges it.

## Model

| member | source | states |
|---|---|---|
| Tables.Insert | logistik_db.py:34-48 | the new row gets a fresh positive id; every old row is kept; exactly one row more |
| Tables.Update | logistik_db.py:50-63 | true iff the id exists; only that row changes, to the patched columns with `updated_at` set; a missing id changes nothing |
| Tables.Get | logistik_db.py:97-100 | a row is found iff the id is given and stored, and it is that row's current content |
| Tables.Select | logistik_db.py:21-32 | a query returns each matching row exactly once and nothing else |
| Tables.Query | logistik_db.py:102-104 | a query with ORDER BY returns each matching row exactly once, sorted by the key |
| Ordering.SortBy | logistik_db.py:102-104 | the result is a permutation of the input and sorted by the key |
| Ordering.StrLeTotalPreorder | logistik_db.py:166-168 | ORDER BY name compares texts by a total, transitive order |
| Text.ParseNatToString | logistik_api.py:288 | the decimal text of a number reads back as that number |
| Text.IntToString | logistik_api.py:288 | `str(i)`: decimal digits that read back as `i`, behind a `-` when `i` is negative |
| Text.Upper | logistik_db.py:123 | `upper()` keeps the length, turns each lower-case ASCII letter into its own capital and keeps every other character |
| Text.OrderNumberFormat | logistik_db.py:123 | an order number is `ORD-`, the 8-character date, `-`, and 8 upper-case hex characters from the uuid |
| Text.InvoiceNumberFormat | logistik_db.py:188 | an invoice number is `INV-`, the date, `-`, and 6 upper-case hex characters from the uuid |
| Store.Empty | logistik_db.py:18-19 | the state the model starts from: an empty database, no rows in any table |
| Store.FindCustomer | logistik_db.py:72-80 | by email when one is given, else by phone, else nothing; a found customer is a stored row with that email or phone |
| Store.OrEmpty | logistik_db.py:89-90 | an absent or empty optional text becomes `""` |
| Store.CreateCustomer | logistik_db.py:82-93 | exactly one customer row is added with the given columns; no other table changes |
| Store.CreateOrder | logistik_db.py:119-137 | exactly one order row is added; one uuid is drawn; no other table changes |
| Store.UpdateOrder | logistik_db.py:50-63 | true iff the order exists; only its patched columns and `updated_at` change |
| Store.AssignOrder | logistik_db.py:139-145 | true iff the order exists, and then it gets the driver, status 'assigned' and the assignment time; only orders change; a missing order changes nothing |
| Store.UpdateOrderStatus | logistik_db.py:147-157 | true iff the order exists, and then it gets the status, plus its pickup time for 'in_transit' or its delivery time for 'delivered'; only orders change; a missing order changes nothing |
| Store.OrdersByStatus | logistik_db.py:102-104 | exactly the orders in that status, each once, by ascending deadline |
| Store.OrdersByDriver | logistik_db.py:106-111 | exactly the orders assigned to that driver, each once, by ascending deadline |
| Store.OverdueOrders | logistik_db.py:113-117 | exactly the orders not delivered whose deadline has passed, each once |
| Store.InsertDriver | logistik_db.py:34-48 | a direct insert adds exactly one driver row |
| Store.ActiveDrivers | logistik_db.py:166-168 | exactly the online drivers, each once, ordered by name |
| Store.UpdateDriverStatus | logistik_db.py:170-175 | true iff the driver exists; it gets the status and activity time, and the location only when one is given |
| Store.CreateInvoice | logistik_db.py:184-202 | exactly one draft invoice row is added; one uuid is drawn; no other table changes |
| Store.UnpaidInvoices | logistik_db.py:204-208 | exactly the invoices sent, viewed or overdue, each once, by ascending due date |
| Store.OverdueInvoices | logistik_db.py:210-214 | exactly the invoices due before today and not paid, each once |
| Store.LogMessage | logistik_db.py:218-230 | exactly one message row is added, addressed to the system |
| Store.OrderMessages | logistik_db.py:232-237 | exactly the order's messages, each once, newest first |
| Store.CreateTask | logistik_db.py:241-252 | exactly one pending task row is added, due in 24 hours unless a deadline is given |
| Store.PendingTasks | logistik_db.py:254-261 | exactly the pending tasks of that role (of any role for `""`), each once, by ascending deadline |
| Store.CompleteTask | logistik_db.py:263-268 | true iff the task exists; it becomes 'completed' with a completion time |
| Store.GetSummary | logistik_db.py:279-289 | each count is the number of rows its query matches |
| StoreProperties.CreateOrderDefaults | logistik_db.py:119-137 | a new order belongs to its customer and addresses; its status, total price and deadline default to pending, the base price and one day ahead, and an extra column given wins over its default; its number comes from today's date and the next uuid |
| StoreProperties.CreateOrderPlain | logistik_db.py:119-137 | without extra columns the new order is pending, at its base price, due in a day |
| StoreProperties.CreateOrderNumber | logistik_db.py:123 | the new order's number has the `ORD-YYYYMMDD-XXXXXXXX` form, with today's date |
| StoreProperties.AssignOrderEffect | logistik_db.py:139-145 | after an assignment the order has that driver and status 'assigned', whatever its status was; no other order changes |
| StoreProperties.UpdateOrderStatusEffect | logistik_db.py:147-157 | the status is set without a guard; the pickup or delivery time is set only for its status; no other order changes |
| StoreProperties.UpdateDriverStatusEffect | logistik_db.py:170-175 | the status is set; the old location is kept when none is given |
| StoreProperties.FirstActiveDriver | logistik_db.py:166-168 | the first online driver has the smallest name of all online drivers |
| StoreProperties.DayOfShift | logistik_db.py:189 | a due date `d` days after issue falls `d` days after the issue day |
| StoreProperties.CreateInvoiceAmounts | logistik_db.py:184-202 | net is total / 1.19, tax is total minus net, net plus tax is total, due `due_days` after issue, status 'draft' |
| StoreProperties.InvoiceForDefaultPrice | logistik_db.py:195-196 | an illustration of `CreateInvoiceAmounts` at the 50.0 default price: net 42.01–42.02 and tax 7.98–7.99 |
| StoreProperties.FreshInvoiceNotUnpaid | logistik_db.py:204-208 | a new draft invoice is not among the unpaid invoices |
| StoreProperties.CreateTaskPending | logistik_db.py:241-252 | the new task is pending, in its role's list and in the full list |
| StoreProperties.CreateTaskPendingList | logistik_db.py:241-252 | the full pending list gains exactly the new task |
| StoreProperties.CompleteTaskPending | logistik_db.py:263-268 | a completed task drops out of the pending list; all other pending tasks stay |
| LogisticsDb.LogisticsDB.constructor | logistik_db.py:18-19 | a new store object starts from an empty database |
| LogisticsDb.LogisticsDB.CreateCustomer | logistik_db.py:82-93 | the object's new state and id are those of `Store.CreateCustomer` |
| LogisticsDb.LogisticsDB.CreateOrder | logistik_db.py:119-137 | the object's new state and id are those of `Store.CreateOrder` |
| LogisticsDb.LogisticsDB.UpdateOrder | logistik_db.py:50-63 | the object's new state is that of `Store.UpdateOrder` |
| LogisticsDb.LogisticsDB.AssignOrder | logistik_db.py:139-145 | the object's new state is that of `Store.AssignOrder` |
| LogisticsDb.LogisticsDB.UpdateOrderStatus | logistik_db.py:147-157 | the object's new state is that of `Store.UpdateOrderStatus` |
| LogisticsDb.LogisticsDB.InsertDriver | logistik_db.py:34-48 | the object's new state is that of `Store.InsertDriver` |
| LogisticsDb.LogisticsDB.UpdateDriverStatus | logistik_db.py:170-175 | the object's new state is that of `Store.UpdateDriverStatus` |
| LogisticsDb.LogisticsDB.CreateInvoice | logistik_db.py:184-202 | the object's new state and id are those of `Store.CreateInvoice` |
| LogisticsDb.LogisticsDB.LogMessage | logistik_db.py:218-230 | the object's new state is that of `Store.LogMessage` |
| LogisticsDb.LogisticsDB.CreateTask | logistik_db.py:241-252 | the object's new state is that of `Store.CreateTask` |
| LogisticsDb.LogisticsDB.CompleteTask | logistik_db.py:263-268 | the object's new state is that of `Store.CompleteTask` |
| Workflow.TimeSince | workflow_engine.py:312-325 | "unknown" for an empty stamp; "?" when it does not parse; else minutes below an hour, hours above |
| Workflow.Roles | workflow_engine.py:49-54 | the roles of the pending tasks, each once |
| Workflow.Group | workflow_engine.py:49-54 | exactly the tasks of that role |
| Workflow.SecretaryStep | workflow_engine.py:71-130 | the secretary handlers change nothing; only `prepare_contract` can raise |
| Workflow.InvoiceForTask | workflow_engine.py:150-165 | only the invoices and the uuid counter can change |
| Workflow.AccountingStep | workflow_engine.py:136-174 | only invoices can be added; only `calculate_driver_wage` raises, and then nothing changed |
| Workflow.AssignDriver | workflow_engine.py:194-222 | only orders change and tasks are added; no task is removed or altered |
| Workflow.Escalate | workflow_engine.py:237-244 | one task is added per listed order, and no task is removed or altered |
| Workflow.CheckOverdue | workflow_engine.py:229-244 | only tasks change, every existing task is kept, and exactly as many tasks are added as there are overdue orders |
| Workflow.SchedulerStep | workflow_engine.py:180-244 | the scheduler handlers never raise and keep every task |
| Workflow.CommsStep | workflow_engine.py:250-293 | the comms handlers change nothing; only `send_status_update` can raise |
| Workflow.Batch | workflow_engine.py:71-86 | a handler loop keeps every task row |
| Workflow.Route | workflow_engine.py:57-65 | a role outside the four routed ones changes nothing |
| Workflow.ProcessTasks | workflow_engine.py:39-65 | a cycle keeps every task row as it was |
| WorkflowProperties.TimeSinceReadBack | workflow_engine.py:312-325 | for a past time the text reads back as the whole minutes (below an hour) or whole hours elapsed |
| WorkflowProperties.NothingPendingNoChange | workflow_engine.py:43-46 | with nothing pending the cycle changes nothing and raises nothing |
| WorkflowProperties.PendingStaysPending | workflow_engine.py:39-65 | every task pending before a cycle is still pending, unchanged, after it |
| WorkflowProperties.GroupsPartition | workflow_engine.py:49-54 | the groups, taken in role order, hold exactly the pending tasks: a partition |
| WorkflowProperties.OneGroupEach | workflow_engine.py:49-54 | each task lies in the group of its own role and in no other |
| WorkflowProperties.GroupKeepsOrder | workflow_engine.py:49-54 | a group of a sorted list is sorted, for any order |
| WorkflowProperties.GroupsByDeadline | workflow_engine.py:43-54 | each group lists its tasks by ascending deadline |
| WorkflowProperties.OnlyFourRoles | workflow_engine.py:57-65 | when no pending task belongs to a routed role, the cycle changes nothing |
| WorkflowProperties.DispatcherNotRouted | workflow_engine.py:57-65 | the dispatcher's escalation tasks are never handled |
| WorkflowProperties.StepRaises | workflow_engine.py:127-130 | a handler raises iff it reads a missing row: the customer in prepare_contract, the driver in calculate_driver_wage (171-174) or the order in send_status_update (290-293); a raising handler changes nothing |
| WorkflowProperties.QuietHandlers | workflow_engine.py:88-125 | every handler other than create_invoice, assign_driver and check_overdue changes nothing |
| WorkflowProperties.BatchStopsAtRaise | workflow_engine.py:71-86 | the tasks after a raising one in its batch are not handled |
| WorkflowProperties.CreateInvoiceTask | workflow_engine.py:150-165 | exactly one invoice, over the order's total and due in 30 days, iff order and customer exist |
| WorkflowProperties.AssignDriverEffect | workflow_engine.py:194-222 | the order goes to the online driver with the smallest name, whatever its status, and one pending high-priority `notify_driver` task for comms is added; with no order or no online driver nothing changes |
| WorkflowProperties.EscalateCovers | workflow_engine.py:237-244 | every listed order gets its escalation task |
| WorkflowProperties.EscalateOnly | workflow_engine.py:237-244 | every added task is the escalation of a listed order |
| WorkflowProperties.CheckOverdueEffect | workflow_engine.py:229-244 | one new task per overdue order, and only tasks change |
| WorkflowProperties.CheckOverdueCovers | workflow_engine.py:229-244 | every overdue order gets an escalation task |
| WorkflowProperties.CheckOverdueOnly | workflow_engine.py:229-244 | every added task escalates an overdue order |
| WorkflowProperties.EscalationTaskShape | workflow_engine.py:238-244 | an escalation is a pending critical `escalate` task for the dispatcher naming its order |
| WorkflowProperties.CheckOverdueTwice | workflow_engine.py:229-244 | a second check with nothing in between adds the escalations again: no deduplication |
| Engine.WorkflowEngine.constructor | workflow_engine.py:16-19 | a new engine uses the given store, is not running and has its last-check time set to now |
| Engine.WorkflowEngine.Stop | workflow_engine.py:34-37 | the engine is no longer running |
| Engine.WorkflowEngine.ProcessTasks | workflow_engine.py:39-65 | the store and the raise are those of `Workflow.ProcessTasks` |
| Engine.WorkflowEngine.RouteGroup | workflow_engine.py:57-65 | one group's routing has the effect of `Workflow.Route` |
| Engine.WorkflowEngine.GroupByAgent | workflow_engine.py:49-54 | the roles in order of first appearance, and for each its tasks in input order |
| Engine.WorkflowEngine.HandleSecretaryTasks | workflow_engine.py:71-86 | the loop's raise is that of `Workflow.Batch` for the secretary; the store is untouched |
| Engine.WorkflowEngine.SecretaryTask | workflow_engine.py:78-83 | one task's effect is `Workflow.SecretaryStep` |
| Engine.WorkflowEngine.SendConfirmationEmail | workflow_engine.py:88-115 | a mail goes out iff the order and its customer exist, to the customer's address, about that order |
| Engine.WorkflowEngine.SendThankyouEmail | workflow_engine.py:117-125 | a mail goes out iff the order and its customer exist, to the customer's address |
| Engine.WorkflowEngine.PrepareContract | workflow_engine.py:127-130 | raises iff the customer is missing |
| Engine.WorkflowEngine.HandleAccountingTasks | workflow_engine.py:136-148 | the loop's store and raise are those of `Workflow.Batch` for accounting |
| Engine.WorkflowEngine.AccountingTask | workflow_engine.py:143-148 | one task's effect is `Workflow.AccountingStep` |
| Engine.WorkflowEngine.CreateInvoiceForTask | workflow_engine.py:150-165 | the effect is `Workflow.InvoiceForTask` |
| Engine.WorkflowEngine.CalculateDriverWage | workflow_engine.py:171-174 | raises iff the driver is missing |
| Engine.WorkflowEngine.HandleSchedulerTasks | workflow_engine.py:180-192 | the loop's store and raise are those of `Workflow.Batch` for the scheduler |
| Engine.WorkflowEngine.SchedulerTask | workflow_engine.py:187-192 | one task's effect is `Workflow.SchedulerStep` |
| Engine.WorkflowEngine.AssignDriver | workflow_engine.py:194-222 | the effect is `Workflow.AssignDriver` |
| Engine.WorkflowEngine.SendDailyReminder | workflow_engine.py:224-227 | the count reported is the number of online drivers; the store is untouched |
| Engine.WorkflowEngine.CheckOverdue | workflow_engine.py:229-244 | the effect is `Workflow.CheckOverdue` |
| Engine.WorkflowEngine.EscalateOrders | workflow_engine.py:237-244 | the loop's effect is `Workflow.Escalate` |
| Engine.WorkflowEngine.HandleCommsTasks | workflow_engine.py:250-262 | the loop's raise is that of `Workflow.Batch` for comms; the store is untouched |
| Engine.WorkflowEngine.CommsTask | workflow_engine.py:255-262 | one task's effect is `Workflow.CommsStep` |
| Engine.WorkflowEngine.NotifyCustomer | workflow_engine.py:264-275 | a text goes out iff the order and its customer exist, to the customer's phone, naming the order's number and status |
| Engine.WorkflowEngine.NotifyDriver | workflow_engine.py:277-288 | a text goes out iff the driver and the order exist, to the driver's phone, naming the order's number and pickup address |
| Engine.WorkflowEngine.SendStatusUpdate | workflow_engine.py:290-293 | raises iff the order is missing |
| Api.OrderCustomer | logistik_api.py:263-275 | the customer is found by email or created; only customers change |
| Api.CreateNewOrder | logistik_api.py:258-300 | drivers, invoices and messages are untouched; exactly one uuid is drawn |
| Api.DriverLogin | logistik_api.py:78-102 | 400 iff no driver id or phone; 401 iff the driver is unknown or the phone differs; else 200; on an error nothing changes and no orders are returned |
| Api.UpdateDriverStatusRequest | logistik_api.py:104-117 | 400 iff no driver id or status, and then nothing changes; else 200; only drivers change |
| Api.StartDelivery | logistik_api.py:129-154 | 404 iff the order is unknown, and then nothing changes; else 200; only orders and messages change |
| Api.CompleteDelivery | logistik_api.py:156-212 | 404 iff the order is unknown, and then nothing changes; else 200 with an invoice id; customers and drivers are untouched |
| Api.UpdateOrderMessage | logistik_api.py:214-252 | 404 iff the order is unknown, and then nothing changes; else 200; only drivers, messages and tasks change |
| Api.AcknowledgeTask | logistik_api.py:393-401 | only tasks change; without a task id nothing changes |
| ApiHandlers.CreateNewOrder | logistik_api.py:258-300 | answers 201; the store and ids are those of `Api.CreateNewOrder` |
| ApiHandlers.DriverLogin | logistik_api.py:78-102 | the store, code and orders are those of `Api.DriverLogin` |
| ApiHandlers.UpdateDriverStatus | logistik_api.py:104-117 | the store and code are those of `Api.UpdateDriverStatusRequest` |
| ApiHandlers.StartDelivery | logistik_api.py:129-154 | the store and code are those of `Api.StartDelivery` |
| ApiHandlers.CompleteDelivery | logistik_api.py:156-212 | the store, code and invoice id are those of `Api.CompleteDelivery` |
| ApiHandlers.UpdateOrderMessage | logistik_api.py:214-252 | the store and code are those of `Api.UpdateOrderMessage` |
| ApiHandlers.AcknowledgeTask | logistik_api.py:393-401 | answers 200; the store is that of `Api.AcknowledgeTask` |
| ApiProperties.CreateNewOrderCustomer | logistik_api.py:263-275 | the order goes to the customer with the request's email if there is one; otherwise exactly one customer is added from the request |
| ApiProperties.CreateNewOrderOrder | logistik_api.py:276-284 | the new order belongs to that customer, is pending, costs the requested price or 50.0, is due a day later and is listed among pending orders; no other order changes |
| ApiProperties.CreateNewOrderTask | logistik_api.py:286-293 | exactly one pending high-priority `assign_driver` task for the scheduler about the order is added, and the scheduler's pending list holds it |
| ApiProperties.DriverLoginEffect | logistik_api.py:78-102 | a successful login puts the driver online, keeps its location, and returns exactly its orders by deadline |
| ApiProperties.UpdateDriverStatusUnknown | logistik_api.py:104-117 | an update for an unknown driver still answers 200 and changes nothing |
| ApiProperties.UpdateDriverStatusRequestEffect | logistik_api.py:104-117 | a valid update sets the status and activity time, and the location only when one is sent |
| ApiProperties.StartDeliveryEffect | logistik_api.py:129-154 | the order goes in transit with a pickup time, whatever its status; no other order changes; one system message from the driver is logged |
| ApiProperties.CompleteDeliveryOrder | logistik_api.py:165-179 | the order is delivered now; sent proofs are recorded and unsent ones keep their old value |
| ApiProperties.CompleteDeliveryInvoice | logistik_api.py:190-196 | exactly one draft invoice for the order's customer over its total price, due 30 days after issue |
| ApiProperties.CompleteDeliveryRecords | logistik_api.py:181-205 | one system message from the driver and one secretary task to send a confirmation are added |
| ApiProperties.CompleteDeliveryTwice | logistik_api.py:156-212 | completing twice yields two different invoices for the same order, two messages and two secretary `send_email` confirmation tasks |
| ApiProperties.UpdateOrderMessageEffect | logistik_api.py:214-252 | the message is logged as an SMS; the driver moves to 'on_delivery' at the location only when both are sent; one high-priority comms task to notify the customer is filed |
| ApiProperties.AcknowledgeTaskEffect | logistik_api.py:393-401 | the task drops out of every pending list; every other pending task stays |
| ApiProperties.AcknowledgeTaskTwice | logistik_api.py:393-401 | acknowledging the same task again leaves the pending lists as they were |

## Left out

- **The HTTP layer.** Flask routing, CORS, JSON parsing and response bodies beyond the status code and the ids or rows returned are not modelled. The static and dashboard routes, the read-only admin endpoints, the webhook and `agent_send_message` are also outside the modelled core.
- **SQLite itself.** SQL text, connections and constraint errors are not modelled. A table is a map from id to row; an absent id (`NULL`) matches no row.
- **Schema defaults.** The schema is not modelled. The one default the core depends on is assumed: `log_message` never writes `sent_at`, so the model takes it to be the insert time. `Store.OrderMessages`'s newest-first order rests on that assumption.
- **The starting database.** `LogisticsDB()` only records the path of a file that may already hold rows. The model starts every store from an empty database (`Store.Empty`); every operation is modelled for any valid state.
- **Python truthiness of `None` fields.** A `None` for a required text field, or a `float(None)` that raises, is not modelled. Required fields are plain values; optional ones are `Option`.
- **Extra keyword columns.** `create_order`, `update_order_status` and `create_task` accept arbitrary `**kwargs`. Only the columns the core passes are modelled, as patch records.
- **Time.** Times are whole seconds and a day is `time / 86400`. The following are not modelled:
  - sub-second precision;
  - local time against UTC;
  - the textual comparison of ISO timestamps written with `T` against SQLite's `CURRENT_TIMESTAMP`.
  The clock reads the same `now` throughout one handler call or one dispatcher cycle.
- **Uuids.** `uuid4()` texts come from an input function. Nothing is claimed about their uniqueness, so nothing is claimed about the uniqueness of order or invoice numbers.
- **Real arithmetic.** Amounts are exact `real` numbers, so float rounding of prices and VAT is not modelled.
- **Upper-casing.** `Text.Upper` upper-cases only ASCII letters. Uuid texts are ASCII.
- **The engine's running loop.** `start`, its sleep, `KeyboardInterrupt`, threads and the engine building its own store are left out. The store object is passed to the constructor.
- **Output only.** Only console output is not modelled. The recipients and the SMS/WhatsApp texts the comms and secretary handlers would send are modelled as return values (`Workflow.CustomerNotice`, `Workflow.DriverNotice`); the wording of the confirmation e-mail is not. `print_summary`, `handle_dispatcher_escalation` and `_task_send_payment_reminder` only print, so they have no store effect to model.
- **`get_daily_metrics`.** It reads a metrics table that no core operation writes.
- **Other scripts.** `START_SYSTEM.py` and `push_to_github.py` are not part of this model.
- Store.FindCustomer: when several customers share the email or phone, SQLite returns whichever row it finds first. The model returns the one with the smallest id and claims only that the row found matches.
- **Odd request values.** A `driver_id` in a JSON body that is not an integer is not modelled. An absent `message` in `update_order_message` is not modelled either; the message is always a text.
- ApiProperties.UpdateDriverStatusUnknown: it states only the no-match case of an update by id, which Dafny derives from `Store.UpdateDriverStatus`'s own contract.
