/**
 * What one dispatcher cycle promises: grouping is a partition that keeps
 * the deadline order, only four roles are handled, no task is ever
 * completed, and the store effects of the handlers that change it.
 */
module WorkflowProperties {
  import opened Records
  import opened Tables
  import opened Ordering
  import opened Store
  import opened Workflow
  import Text
  import StoreProperties

  // ========== _time_since ==========

  /**
   * For a time not in the future, the text reads back as the whole minutes
   * elapsed (below one hour) or the whole hours elapsed.
   */
  lemma TimeSinceReadBack(t: Time, now: Time)
    requires t <= now
    ensures var r := TimeSince(At(t), now);
      && |r| >= 2
      && Text.AllDigits(r[..|r| - 1])
      && (now - t < 60 * SecondsPerMinute ==>
            r[|r| - 1] == 'm' && Text.ParseNat(r[..|r| - 1]) == (now - t) / SecondsPerMinute)
      && (now - t >= 60 * SecondsPerMinute ==>
            r[|r| - 1] == 'h' && Text.ParseNat(r[..|r| - 1]) == (now - t) / SecondsPerHour)
  {
    var r := TimeSince(At(t), now);
    var d := now - t;
    var minutes := d / 60;
    assert minutes * 60 <= d < minutes * 60 + 60;
    if d < 3600 {
      assert minutes < 60;
      assert r == Text.NatToString(minutes) + "m";
      assert r[..|r| - 1] == Text.NatToString(minutes);
      Text.ParseNatToString(minutes);
    } else {
      assert minutes >= 60;
      var hours := minutes / 60;
      assert hours * 60 <= minutes < hours * 60 + 60;
      assert hours * 3600 <= d < hours * 3600 + 3600;
      assert hours == d / 3600;
      assert r == Text.NatToString(hours) + "h";
      assert r[..|r| - 1] == Text.NatToString(hours);
      Text.ParseNatToString(hours);
    }
  }

  // ========== the cycle as a whole ==========

  /** With nothing pending the cycle returns at once and changes nothing. */
  lemma NothingPendingNoChange(s: State, env: Env, now: Time)
    requires Valid(s)
    requires PendingTasks(s, "") == []
    ensures ProcessTasks(s, env, now) == Outcome(s, false)
  {
  }

  /**
   * No handler completes a task: every task pending before a cycle is
   * pending after it, unchanged (so delivery is at least once).
   */
  lemma PendingStaysPending(s: State, env: Env, now: Time, role: string)
    requires Valid(s)
    ensures forall e :: e in PendingTasks(s, role) ==> e in PendingTasks(ProcessTasks(s, env, now).st, role)
  {
    var s' := ProcessTasks(s, env, now).st;
    forall e | e in PendingTasks(s, role) ensures e in PendingTasks(s', role) {
      assert e.id in s.tasks.rows;
      assert s'.tasks.rows[e.id] == s.tasks.rows[e.id];
    }
  }

  // ========== grouping ==========

  /** The groups of the given roles, one after the other. */
  function Flatten(tasks: seq<Entry<Task>>, roles: seq<string>): seq<Entry<Task>> {
    if roles == [] then [] else Group(tasks, roles[0]) + Flatten(tasks, roles[1..])
  }

  predicate Distinct(roles: seq<string>) {
    forall i, j :: 0 <= i < j < |roles| ==> roles[i] != roles[j]
  }

  lemma GroupSnoc(p: seq<Entry<Task>>, t: Entry<Task>, role: string)
    ensures Group(p + [t], role) == Group(p, role) + (if t.data.assignedTo == role then [t] else [])
  {
    assert (p + [t])[..|p + [t]| - 1] == p;
  }

  lemma RolesSnoc(p: seq<Entry<Task>>, t: Entry<Task>)
    ensures Roles(p + [t]) == if t.data.assignedTo in Roles(p) then Roles(p) else Roles(p) + [t.data.assignedTo]
  {
    assert (p + [t])[..|p + [t]| - 1] == p;
  }

  /**
   * `agents` and `groups` are the grouping of `seen`: the roles in order of
   * first appearance, and a key per role holding that role's tasks.
   */
  ghost predicate Grouping(agents: seq<string>, groups: map<string, seq<Entry<Task>>>, seen: seq<Entry<Task>>) {
    && agents == Roles(seen)
    && (forall a :: a in groups <==> a in agents)
    && (forall a :: a in agents ==> groups[a] == Group(seen, a))
  }

  /** Appending a task to its role's list, opened empty for a new role, keeps the grouping. */
  lemma GroupingStep(agents: seq<string>, groups: map<string, seq<Entry<Task>>>, seen: seq<Entry<Task>>,
                     t: Entry<Task>)
    requires Grouping(agents, groups, seen)
    ensures var a := t.data.assignedTo;
      Grouping(if a in groups then agents else agents + [a],
               groups[a := (if a in groups then groups[a] else []) + [t]], seen + [t])
  {
    var a := t.data.assignedTo;
    var agents' := if a in groups then agents else agents + [a];
    var g := groups[a := (if a in groups then groups[a] else []) + [t]];
    assert a in groups <==> a in Roles(seen);
    RolesSnoc(seen, t);
    assert agents' == Roles(seen + [t]);
    GroupingKeysStep(agents, groups, a, (if a in groups then groups[a] else []) + [t], agents', g);
    GroupingListsStep(agents, groups, seen, t);
  }

  lemma GroupingKeysStep(agents: seq<string>, groups: map<string, seq<Entry<Task>>>, a: string,
                         tasks: seq<Entry<Task>>, agents': seq<string>, g: map<string, seq<Entry<Task>>>)
    requires forall r :: r in groups <==> r in agents
    requires agents' == (if a in groups then agents else agents + [a]) && g == groups[a := tasks]
    ensures forall r :: r in g <==> r in agents'
  {
  }

  lemma GroupingListsStep(agents: seq<string>, groups: map<string, seq<Entry<Task>>>, seen: seq<Entry<Task>>,
                          t: Entry<Task>)
    requires Grouping(agents, groups, seen)
    ensures var a := t.data.assignedTo;
      var g := groups[a := (if a in groups then groups[a] else []) + [t]];
      forall role :: role in g ==> g[role] == Group(seen + [t], role)
  {
    var a := t.data.assignedTo;
    var g := groups[a := (if a in groups then groups[a] else []) + [t]];
    forall role | role in g ensures g[role] == Group(seen + [t], role) {
      GroupSnoc(seen, t, role);
      if role == a && a !in groups {
        GroupEmpty(seen, a);
      }
    }
  }

  /** One task of a handler loop, then the rest. */
  lemma BatchStep(role: string, s: State, env: Env, now: Time, tasks: seq<Entry<Task>>)
    requires Valid(s) && tasks != []
    ensures var o := Step(role, s, env, now, tasks[0].data);
      Batch(role, s, env, now, tasks) == if o.raised then o else Batch(role, o.st, env, now, tasks[1..])
  {
  }

  /** One role of the routing loop, then the rest. */
  lemma RouteAllStep(s: State, env: Env, now: Time, roles: seq<string>, pending: seq<Entry<Task>>)
    requires Valid(s) && roles != []
    ensures var o := Route(roles[0], s, env, now, Group(pending, roles[0]));
      RouteAll(s, env, now, roles, pending) == if o.raised then o else RouteAll(o.st, env, now, roles[1..], pending)
  {
  }

  /** One escalation, then the rest. */
  lemma EscalateStep(s: State, now: Time, overdue: seq<Entry<Order>>)
    requires Valid(s) && overdue != []
    ensures Escalate(s, now, overdue) ==
      Escalate(CreateTask(s, now, EscalationTitle(overdue[0], now), TaskEscalate, Dispatcher, None,
                          EscalationColumns(overdue[0].id)).0, now, overdue[1..])
  {
  }

  /** What appending one task adds to a group: the task itself, or nothing. */
  function Extra(t: Entry<Task>, role: string): multiset<Entry<Task>> {
    if t.data.assignedTo == role then multiset{t} else multiset{}
  }

  lemma GroupSnocMultiset(p: seq<Entry<Task>>, t: Entry<Task>, role: string)
    ensures multiset(Group(p + [t], role)) == multiset(Group(p, role)) + Extra(t, role)
  {
    GroupSnoc(p, t, role);
  }

  lemma FlattenCons(p: seq<Entry<Task>>, roles: seq<string>)
    requires roles != []
    ensures multiset(Flatten(p, roles)) == multiset(Group(p, roles[0])) + multiset(Flatten(p, roles[1..]))
  {
  }

  lemma {:induction false} FlattenSnoc(p: seq<Entry<Task>>, t: Entry<Task>, roles: seq<string>)
    requires Distinct(roles)
    ensures multiset(Flatten(p + [t], roles)) ==
      multiset(Flatten(p, roles)) + (if t.data.assignedTo in roles then multiset{t} else multiset{})
    decreases |roles|
  {
    if roles != [] {
      var role := roles[0];
      var rest := roles[1..];
      assert Distinct(rest);
      FlattenSnoc(p, t, rest);
      GroupSnocMultiset(p, t, role);
      FlattenCons(p + [t], roles);
      FlattenCons(p, roles);
      var extraRest: multiset<Entry<Task>> := if t.data.assignedTo in rest then multiset{t} else multiset{};
      assert multiset(Flatten(p + [t], roles)) == multiset(Flatten(p, roles)) + Extra(t, role) + extraRest;
      if t.data.assignedTo == role {
        assert t.data.assignedTo !in rest;
      } else {
        assert t.data.assignedTo in roles <==> t.data.assignedTo in rest;
      }
    }
  }

  lemma {:induction false} FlattenAppendRole(p: seq<Entry<Task>>, roles: seq<string>, role: string)
    ensures Flatten(p, roles + [role]) == Flatten(p, roles) + Group(p, role)
    decreases |roles|
  {
    if roles == [] {
      assert Flatten(p, [role]) == Group(p, role) + Flatten(p, []);
    } else {
      assert (roles + [role])[1..] == roles[1..] + [role];
      FlattenAppendRole(p, roles[1..], role);
    }
  }

  /**
   * Grouping partitions the pending list: the groups, taken in the order
   * of their roles, hold every task exactly as often as the input does.
   */
  lemma GroupEmpty(p: seq<Entry<Task>>, role: string)
    requires !HasRole(p, role)
    ensures Group(p, role) == []
  {
    var g := Group(p, role);
    assert forall e :: e !in g;
  }

  lemma {:induction false} GroupsPartition(tasks: seq<Entry<Task>>)
    ensures multiset(Flatten(tasks, Roles(tasks))) == multiset(tasks)
    decreases |tasks|
  {
    if tasks != [] {
      var p := tasks[..|tasks| - 1];
      var t := tasks[|tasks| - 1];
      assert tasks == p + [t];
      GroupsPartition(p);
      var role := t.data.assignedTo;
      var rp := Roles(p);
      assert Distinct(rp);
      FlattenSnoc(p, t, rp);
      if role in rp {
        assert Roles(tasks) == rp;
      } else {
        assert Roles(tasks) == rp + [role];
        FlattenAppendRole(tasks, rp, role);
        GroupSnocMultiset(p, t, role);
        GroupEmpty(p, role);
        assert multiset(Flatten(tasks, Roles(tasks))) == multiset(Flatten(tasks, rp)) + multiset(Group(tasks, role));
      }
    }
  }

  /** Each task is in the group of its own role and in no other. */
  lemma OneGroupEach(tasks: seq<Entry<Task>>, e: Entry<Task>, role: string)
    requires e in tasks
    ensures e.data.assignedTo in Roles(tasks)
    ensures e in Group(tasks, role) <==> role == e.data.assignedTo
  {
    var i :| 0 <= i < |tasks| && tasks[i] == e;
    assert HasRole(tasks, e.data.assignedTo);
  }

  /** A group keeps the order of the input: sorted input, sorted group, for any order. */
  lemma {:induction false} GroupKeepsOrder<K>(tasks: seq<Entry<Task>>, role: string,
                                              key: Entry<Task> -> K, le: (K, K) -> bool)
    requires SortedBy(tasks, key, le)
    ensures SortedBy(Group(tasks, role), key, le)
    decreases |tasks|
  {
    if tasks != [] {
      var p := tasks[..|tasks| - 1];
      var t := tasks[|tasks| - 1];
      assert tasks == p + [t];
      assert SortedBy(p, key, le) by {
        forall i, j | 0 <= i < j < |p| ensures le(key(p[i]), key(p[j])) {
          assert p[i] == tasks[i] && p[j] == tasks[j];
        }
      }
      GroupKeepsOrder(p, role, key, le);
      GroupSnoc(p, t, role);
      var g := Group(p, role);
      if t.data.assignedTo == role {
        var g' := g + [t];
        forall i, j | 0 <= i < j < |g'| ensures le(key(g'[i]), key(g'[j])) {
          if j == |g| {
            assert g'[i] in p;
            var k :| 0 <= k < |p| && p[k] == g'[i];
            assert tasks[k] == g'[i] && tasks[|tasks| - 1] == t;
          } else {
            assert g'[i] == g[i] && g'[j] == g[j];
          }
        }
      }
    }
  }

  /** The cycle's groups each list their tasks by ascending deadline. */
  lemma GroupsByDeadline(s: State, role: string)
    requires Valid(s)
    ensures SortedBy(Group(PendingTasks(s, ""), role), TaskDeadline, IntLe)
  {
    GroupKeepsOrder(PendingTasks(s, ""), role, TaskDeadline, IntLe);
  }

  // ========== routing ==========

  lemma {:induction false} RouteAllUnrouted(s: State, env: Env, now: Time, roles: seq<string>,
                                            pending: seq<Entry<Task>>)
    requires Valid(s)
    requires forall r :: r in roles ==> !IsRouted(r)
    ensures RouteAll(s, env, now, roles, pending) == Outcome(s, false)
    decreases |roles|
  {
    if roles != [] {
      RouteAllUnrouted(s, env, now, roles[1..], pending);
    }
  }

  /**
   * Only secretary, accounting, scheduler and comms are handled: when every
   * pending task belongs to another role (such as the dispatcher's
   * escalations) the cycle changes nothing.
   */
  lemma OnlyFourRoles(s: State, env: Env, now: Time)
    requires Valid(s)
    requires forall e :: e in PendingTasks(s, "") ==> !IsRouted(e.data.assignedTo)
    ensures ProcessTasks(s, env, now) == Outcome(s, false)
  {
    var pending := PendingTasks(s, "");
    forall r | r in Roles(pending) ensures !IsRouted(r) {
      assert HasRole(pending, r);
      var i :| 0 <= i < |pending| && pending[i].data.assignedTo == r;
      assert pending[i] in pending;
    }
    RouteAllUnrouted(s, env, now, Roles(pending), pending);
  }

  /** The dispatcher role, to which escalations go, is not routed. */
  lemma DispatcherNotRouted(s: State, env: Env, now: Time, tasks: seq<Entry<Task>>)
    requires Valid(s)
    ensures !IsRouted(Dispatcher)
    ensures Route(Dispatcher, s, env, now, tasks) == Outcome(s, false)
  {
  }

  // ========== handlers ==========

  /**
   * A handler raises exactly when it dereferences a missing row:
   * prepare_contract without its customer, calculate_driver_wage without
   * its driver, send_status_update without its order.
   */
  lemma StepRaises(role: string, s: State, env: Env, now: Time, task: Task)
    requires Valid(s)
    ensures Step(role, s, env, now, task).raised <==>
      || (role == Secretary && task.taskType == TaskPrepareContract && Get(s.customers, task.relatedCustomerId).None?)
      || (role == Accounting && task.taskType == TaskCalculateDriverWage && Get(s.drivers, task.relatedDriverId).None?)
      || (role == Comms && task.taskType == TaskSendStatusUpdate && Get(s.orders, task.relatedOrderId).None?)
    ensures Step(role, s, env, now, task).raised ==> Step(role, s, env, now, task).st == s
  {
  }

  /**
   * The mail, message and reminder handlers and every unknown task type
   * leave the store as it was; only create_invoice, assign_driver and
   * check_overdue change it.
   */
  lemma QuietHandlers(role: string, s: State, env: Env, now: Time, task: Task)
    requires Valid(s)
    requires task.taskType != TaskCreateInvoice && task.taskType != TaskAssignDriver
    requires task.taskType != TaskCheckOverdue
    ensures Step(role, s, env, now, task).st == s
  {
  }

  /**
   * A cycle ends at the first handler that raises: the tasks after it in
   * its batch are not handled.
   */
  lemma BatchStopsAtRaise(role: string, s: State, env: Env, now: Time, tasks: seq<Entry<Task>>)
    requires Valid(s)
    requires tasks != [] && Step(role, s, env, now, tasks[0].data).raised
    ensures Batch(role, s, env, now, tasks) == Outcome(s, true)
  {
    StepRaises(role, s, env, now, tasks[0].data);
  }

  /**
   * `create_invoice`: exactly one invoice, for the order's total price and
   * due 30 days after issue, when order and customer both exist; otherwise
   * nothing.
   */
  lemma CreateInvoiceTask(s: State, env: Env, now: Time, task: Task)
    requires Valid(s)
    requires task.taskType == TaskCreateInvoice
    ensures var r := Step(Accounting, s, env, now, task);
      var order := Get(s.orders, task.relatedOrderId);
      var customer := Get(s.customers, task.relatedCustomerId);
      && !r.raised
      && r.st == s.(invoices := r.st.invoices, drawn := r.st.drawn)
      && (order.None? || customer.None? ==> r.st == s)
      && (order.Some? && customer.Some? ==>
            && |r.st.invoices.rows| == |s.invoices.rows| + 1
            && exists k :: k !in s.invoices.rows && k in r.st.invoices.rows
                 && r.st.invoices.rows == s.invoices.rows[k := r.st.invoices.rows[k]]
                 && var inv := r.st.invoices.rows[k].data;
                    && inv.customerId == customer.value.id && inv.orderId == order.value.id
                    && inv.totalAmount == order.value.data.totalPrice
                    && inv.subtotal + inv.taxAmount == inv.totalAmount
                    && inv.dueDate == inv.issueDate + 30 && inv.status == Draft)
  {
    var order := Get(s.orders, task.relatedOrderId);
    var customer := Get(s.customers, task.relatedCustomerId);
    if order.Some? && customer.Some? {
      var (s', k) := CreateInvoice(s, env, now, customer.value.id, order.value.id, order.value.data.totalPrice, 30);
      StoreProperties.CreateInvoiceAmounts(s, env, now, customer.value.id, order.value.id, order.value.data.totalPrice, 30);
      assert s'.invoices.rows == s.invoices.rows[k := s'.invoices.rows[k]];
    }
  }

  /**
   * `assign_driver`: with no order or no online driver the store is
   * unchanged. Otherwise, whatever the order's status, it is assigned to
   * the online driver with the smallest name, and exactly one task is
   * added: a pending `notify_driver` task for comms with priority 'high'
   * naming the order and the driver.
   */
  lemma AssignDriverEffect(s: State, now: Time, task: Task)
    requires Valid(s)
    ensures var r := AssignDriver(s, now, task);
      var order := Get(s.orders, task.relatedOrderId);
      && (order.None? || ActiveDrivers(s) == [] ==> r == s)
      && (order.Some? && ActiveDrivers(s) != [] ==>
            var oid := order.value.id;
            var best := ActiveDrivers(s)[0];
            && IsOnline(s.drivers.rows[best.id].data)
            && (forall k :: k in s.drivers.rows && IsOnline(s.drivers.rows[k].data) ==>
                  StrLe(best.data.name, s.drivers.rows[k].data.name))
            && r.orders.rows.Keys == s.orders.rows.Keys
            && (forall k :: k in s.orders.rows && k != oid ==> r.orders.rows[k] == s.orders.rows[k])
            && r.orders.rows[oid].data ==
                 s.orders.rows[oid].data.(assignedDriverId := Some(best.id), status := Assigned,
                                          assignedAt := Some(now))
            && |r.tasks.rows| == |s.tasks.rows| + 1
            && exists k :: k !in s.tasks.rows && k in r.tasks.rows && r.tasks.rows == s.tasks.rows[k := r.tasks.rows[k]]
                 && var t := r.tasks.rows[k].data;
                    && t.taskType == TaskNotifyDriver && t.assignedTo == Comms && t.status == Pending
                    && t.priority == Some(High) && t.relatedOrderId == Some(oid)
                    && t.relatedDriverId == Some(best.id))
  {
    var order := Get(s.orders, task.relatedOrderId);
    if order.Some? && ActiveDrivers(s) != [] {
      var oid := order.value.id;
      var best := ActiveDrivers(s)[0];
      StoreProperties.FirstActiveDriver(s);
      StoreProperties.AssignOrderEffect(s, now, oid, best.id);
      var s1 := AssignOrder(s, now, oid, best.id).0;
      var (s2, k) := CreateTask(s1, now, NotifyDriverTitle(best.data.name, oid), TaskNotifyDriver, Comms,
                                None, NotifyDriverColumns(oid, best.id));
      assert s2.tasks.rows == s.tasks.rows[k := s2.tasks.rows[k]];
    }
  }

  // ========== check_overdue ==========

  /** Every listed order gets its escalation task. */
  lemma {:induction false} EscalateCovers(s: State, now: Time, overdue: seq<Entry<Order>>)
    requires Valid(s)
    ensures var r := Escalate(s, now, overdue);
      forall o :: o in overdue ==>
        exists k :: k in r.tasks.rows && k !in s.tasks.rows && r.tasks.rows[k].data == EscalationTask(o, now)
    decreases |overdue|
  {
    if overdue != [] {
      var o0 := overdue[0];
      var (s1, k1) := CreateTask(s, now, EscalationTitle(o0, now), TaskEscalate, Dispatcher, None, EscalationColumns(o0.id));
      EscalateCovers(s1, now, overdue[1..]);
      var r := Escalate(s1, now, overdue[1..]);
      assert r.tasks.rows[k1].data == EscalationTask(o0, now);
      forall o | o in overdue
        ensures exists k :: k in r.tasks.rows && k !in s.tasks.rows && r.tasks.rows[k].data == EscalationTask(o, now)
      {
        if o != o0 {
          assert o in overdue[1..];
        }
      }
    }
  }

  /** Every task an escalation run adds is the escalation of a listed order. */
  lemma {:induction false} EscalateOnly(s: State, now: Time, overdue: seq<Entry<Order>>)
    requires Valid(s)
    ensures var r := Escalate(s, now, overdue);
      forall k :: k in r.tasks.rows && k !in s.tasks.rows ==>
        exists o :: o in overdue && r.tasks.rows[k].data == EscalationTask(o, now)
    decreases |overdue|
  {
    if overdue != [] {
      var o0 := overdue[0];
      var (s1, k1) := CreateTask(s, now, EscalationTitle(o0, now), TaskEscalate, Dispatcher, None, EscalationColumns(o0.id));
      EscalateOnly(s1, now, overdue[1..]);
      var r := Escalate(s1, now, overdue[1..]);
      assert r.tasks.rows[k1].data == EscalationTask(o0, now);
      forall k | k in r.tasks.rows && k !in s.tasks.rows
        ensures exists o :: o in overdue && r.tasks.rows[k].data == EscalationTask(o, now)
      {
        if k != k1 {
          var o :| o in overdue[1..] && r.tasks.rows[k].data == EscalationTask(o, now);
          assert o in overdue;
        }
      }
    }
  }

  /**
   * `check_overdue`: one critical `escalate` task for the dispatcher per
   * overdue order, and nothing else changes.
   */
  lemma CheckOverdueEffect(s: State, now: Time)
    requires Valid(s)
    ensures var r := CheckOverdue(s, now);
      && r == s.(tasks := r.tasks)
      && |r.tasks.rows| == |s.tasks.rows| + |set k | k in s.orders.rows && IsOverdue(s.orders.rows[k].data, now)|
      && (forall k :: k in s.orders.rows && IsOverdue(s.orders.rows[k].data, now) ==>
            exists j :: j in r.tasks.rows && j !in s.tasks.rows
              && r.tasks.rows[j].data == EscalationTask(Entry(k, s.orders.rows[k].data), now))
      && (forall j :: j in r.tasks.rows && j !in s.tasks.rows ==>
            exists k :: k in s.orders.rows && IsOverdue(s.orders.rows[k].data, now)
              && r.tasks.rows[j].data == EscalationTask(Entry(k, s.orders.rows[k].data), now))
  {
    CheckOverdueCovers(s, now);
    CheckOverdueOnly(s, now);
  }

  lemma CheckOverdueCovers(s: State, now: Time)
    requires Valid(s)
    ensures var r := CheckOverdue(s, now);
      forall k :: k in s.orders.rows && IsOverdue(s.orders.rows[k].data, now) ==>
        exists j :: j in r.tasks.rows && j !in s.tasks.rows
          && r.tasks.rows[j].data == EscalationTask(Entry(k, s.orders.rows[k].data), now)
  {
    var overdue := OverdueOrders(s, now);
    EscalateCovers(s, now, overdue);
    var r := CheckOverdue(s, now);
    forall k | k in s.orders.rows && IsOverdue(s.orders.rows[k].data, now)
      ensures exists j :: (j in r.tasks.rows && j !in s.tasks.rows
              && r.tasks.rows[j].data == EscalationTask(Entry(k, s.orders.rows[k].data), now))
    {
      assert Entry(k, s.orders.rows[k].data) in overdue;
    }
  }

  lemma CheckOverdueOnly(s: State, now: Time)
    requires Valid(s)
    ensures var r := CheckOverdue(s, now);
      forall j :: j in r.tasks.rows && j !in s.tasks.rows ==>
        exists k :: k in s.orders.rows && IsOverdue(s.orders.rows[k].data, now)
          && r.tasks.rows[j].data == EscalationTask(Entry(k, s.orders.rows[k].data), now)
  {
    var overdue := OverdueOrders(s, now);
    EscalateOnly(s, now, overdue);
    var r := CheckOverdue(s, now);
    forall j | j in r.tasks.rows && j !in s.tasks.rows
      ensures exists k :: (k in s.orders.rows && IsOverdue(s.orders.rows[k].data, now)
              && r.tasks.rows[j].data == EscalationTask(Entry(k, s.orders.rows[k].data), now))
    {
      var o :| o in overdue && r.tasks.rows[j].data == EscalationTask(o, now);
      assert o == Entry(o.id, s.orders.rows[o.id].data);
    }
  }

  /** The escalation rows are pending, critical, for the dispatcher and name their order. */
  lemma EscalationTaskShape(o: Entry<Order>, now: Time)
    ensures var t := EscalationTask(o, now);
      && t.taskType == TaskEscalate && t.assignedTo == Dispatcher && t.status == Pending
      && t.priority == Some(Critical) && t.relatedOrderId == Some(o.id)
      && t.deadline == now + 24 * SecondsPerHour
  {
  }

  /**
   * No deduplication: running the check twice with nothing else in between
   * creates twice as many escalations.
   */
  lemma CheckOverdueTwice(s: State, now: Time)
    requires Valid(s)
    ensures var s1 := CheckOverdue(s, now);
      |CheckOverdue(s1, now).tasks.rows| == |s.tasks.rows| + 2 * |OverdueOrders(s, now)|
  {
    var s1 := CheckOverdue(s, now);
    CheckOverdueEffect(s, now);
    CheckOverdueEffect(s1, now);
    assert s1.orders == s.orders;
  }
}
