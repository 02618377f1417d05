/** The food delivery matcher (food_delivery.py): waiting drivers and pending
    orders are paired first come, first served, with a priority lane for orders,
    cancellation of whoever is still waiting, an append-only log of assignments
    and a status per order and per driver.

    The functions ending in `On` give each operation's effect on a `Matcher`
    value; the class `FoodDeliverySystem` keeps the same state in fields that its
    methods update in place, each proved to agree with its function. */
module Delivery {
  import opened Wrappers
  import opened Seqs

  type OrderId = string
  type DriverId = string

  datatype Status = Pending | Assigned | Cancelled | Waiting

  /** The `AssignedOrders` dataclass. */
  datatype Assignment = Assignment(driverId: DriverId, orderId: OrderId)

  /** `cancel_order`/`cancel_driver` raise for an id that is not waiting; the
      status readers raise `KeyError` for an id they never saw. */
  datatype DeliveryError = OrderNotFound | DriverNotFound | UnknownId

  datatype Matcher = Matcher(
    drivers: seq<DriverId>,          // waiting drivers, longest-waiting first
    awaiting: seq<OrderId>,          // pending regular orders, oldest first
    priority: seq<OrderId>,          // pending priority orders, oldest first
    log: seq<Assignment>,       // every pairing made, in order
    driverStatus: map<DriverId, Status>,
    orderStatus: map<OrderId, Status>)

  /** Drivers wait only when no order is pending, and orders pend only when no
      driver waits. */
  predicate NeverBothWaiting(m: Matcher) {
    m.drivers == [] || (m.awaiting == [] && m.priority == [])
  }

  /** `m2` only appended to the assignment log of `m`. */
  predicate LogExtends(m: Matcher, m2: Matcher) {
    |m.log| <= |m2.log| && m2.log[..|m.log|] == m.log
  }

  /** What `_get_next_order` returns, and the two lanes afterwards. */
  datatype Taken = Taken(next: Option<OrderId>, priority: seq<OrderId>, awaiting: seq<OrderId>)

  /** `_get_next_order`: the oldest priority order, else the oldest regular order,
      else None. */
  function NextOrder(priority: seq<OrderId>, awaiting: seq<OrderId>): (t: Taken)
    ensures t.next.None? <==> priority == [] && awaiting == []
    ensures priority != [] ==> t == Taken(Some(priority[0]), priority[1..], awaiting)
    ensures priority == [] && awaiting != [] ==> t == Taken(Some(awaiting[0]), priority, awaiting[1..])
    ensures t.next.None? ==> t.priority == priority && t.awaiting == awaiting
  {
    if priority != [] then Taken(Some(priority[0]), priority[1..], awaiting)
    else if awaiting != [] then Taken(Some(awaiting[0]), priority, awaiting[1..])
    else Taken(None, priority, awaiting)
  }

  /** `place_order`: the longest-waiting driver takes the order; with no driver the
      order joins the end of its lane as pending. */
  function PlaceOrderOn(m: Matcher, id: OrderId, isPriority: bool): (r: Matcher)
    ensures LogExtends(m, r)
    ensures NeverBothWaiting(m) ==> NeverBothWaiting(r)
    ensures m.drivers != [] ==>
      && r.log == m.log + [Assignment(m.drivers[0], id)]
      && r.drivers == m.drivers[1..]
      && r.awaiting == m.awaiting && r.priority == m.priority
      && r.orderStatus == m.orderStatus[id := Assigned]
      && r.driverStatus == m.driverStatus[m.drivers[0] := Assigned]
    ensures m.drivers == [] ==>
      && r.log == m.log && r.drivers == []
      && r.priority == (if isPriority then m.priority + [id] else m.priority)
      && r.awaiting == (if isPriority then m.awaiting else m.awaiting + [id])
      && r.orderStatus == m.orderStatus[id := Pending]
      && r.driverStatus == m.driverStatus
  {
    if m.drivers != [] then
      var d := m.drivers[0];
      m.(drivers := m.drivers[1..], log := m.log + [Assignment(d, id)],
         orderStatus := m.orderStatus[id := Assigned], driverStatus := m.driverStatus[d := Assigned])
    else if isPriority then
      m.(priority := m.priority + [id], orderStatus := m.orderStatus[id := Pending])
    else
      m.(awaiting := m.awaiting + [id], orderStatus := m.orderStatus[id := Pending])
  }

  /** `driver_available`, with the test on the next order read as `is not None`:
      the driver takes the next order, or joins the end of the driver queue. */
  function DriverAvailableOn(m: Matcher, d: DriverId): (r: Matcher)
    ensures LogExtends(m, r)
    ensures NeverBothWaiting(m) ==> NeverBothWaiting(r)
    ensures var t := NextOrder(m.priority, m.awaiting);
      && (t.next.Some? ==>
            && r.log == m.log + [Assignment(d, t.next.value)]
            && r.drivers == m.drivers && r.priority == t.priority && r.awaiting == t.awaiting
            && r.driverStatus == m.driverStatus[d := Assigned]
            && r.orderStatus == m.orderStatus[t.next.value := Assigned])
      && (t.next.None? ==>
            && r.log == m.log
            && r.drivers == m.drivers + [d] && r.priority == [] && r.awaiting == []
            && r.driverStatus == m.driverStatus[d := Waiting]
            && r.orderStatus == m.orderStatus)
  {
    var t := NextOrder(m.priority, m.awaiting);
    match t.next
    case Some(o) =>
      m.(priority := t.priority, awaiting := t.awaiting, log := m.log + [Assignment(d, o)],
         driverStatus := m.driverStatus[d := Assigned], orderStatus := m.orderStatus[o := Assigned])
    case None =>
      m.(drivers := m.drivers + [d], driverStatus := m.driverStatus[d := Waiting])
  }

  /** `driver_available` as written: `if next_order:` also rejects an order whose
      id is the empty string, which has already been taken off its lane. */
  function DriverAvailableAsWritten(m: Matcher, d: DriverId): (r: Matcher)
    ensures LogExtends(m, r)
    ensures var t := NextOrder(m.priority, m.awaiting);
      && (t.next != Some("") ==> r == DriverAvailableOn(m, d))
      && (t.next == Some("") ==>
            && r.log == m.log && r.drivers == m.drivers + [d]
            && r.priority == t.priority && r.awaiting == t.awaiting
            && r.driverStatus == m.driverStatus[d := Waiting] && r.orderStatus == m.orderStatus)
  {
    var t := NextOrder(m.priority, m.awaiting);
    if t.next.Some? && t.next.value != "" then
      var o := t.next.value;
      m.(priority := t.priority, awaiting := t.awaiting, log := m.log + [Assignment(d, o)],
         driverStatus := m.driverStatus[d := Assigned], orderStatus := m.orderStatus[o := Assigned])
    else
      m.(priority := t.priority, awaiting := t.awaiting,
         drivers := m.drivers + [d], driverStatus := m.driverStatus[d := Waiting])
  }

  /** An order with the empty id pending ahead of another: as written, the next
      driver drops it and waits although an order is still pending. */
  lemma EmptyOrderIdBreaksMatching()
    ensures var m := Matcher([], ["", "o2"], [], [], map[], map["" := Pending, "o2" := Pending]);
      && NeverBothWaiting(m)
      && var r := DriverAvailableAsWritten(m, "d");
      && !NeverBothWaiting(r)
      && r.drivers == ["d"] && r.awaiting == ["o2"]
      && "" !in r.awaiting && r.orderStatus[""] == Pending
      && DriverAvailableOn(m, "d").log == [Assignment("d", "")]
  {
    var m := Matcher([], ["", "o2"], [], [], map[], map["" := Pending, "o2" := Pending]);
    assert ["", "o2"][1..] == ["o2"];
  }

  /** `cancel_order`: a pending order leaves the first lane that holds it, checking
      the regular lane first; anything else raises and changes nothing. */
  function CancelOrderOn(m: Matcher, id: OrderId): (r: Result<Matcher, DeliveryError>)
    ensures r.Failure? <==> id !in m.awaiting && id !in m.priority
    ensures r.Failure? ==> r.error == OrderNotFound
    ensures r.Success? ==>
      && r.value.orderStatus == m.orderStatus[id := Cancelled]
      && r.value.drivers == m.drivers && r.value.log == m.log
      && r.value.driverStatus == m.driverStatus
      && multiset(r.value.awaiting) + multiset(r.value.priority) + multiset{id}
           == multiset(m.awaiting) + multiset(m.priority)
      && (id in m.awaiting ==> r.value.awaiting == RemoveFirst(m.awaiting, id) && r.value.priority == m.priority)
      && (id !in m.awaiting ==> r.value.priority == RemoveFirst(m.priority, id) && r.value.awaiting == m.awaiting)
    ensures r.Success? && NeverBothWaiting(m) ==> NeverBothWaiting(r.value)
  {
    if id in m.awaiting then
      Success(m.(awaiting := RemoveFirst(m.awaiting, id), orderStatus := m.orderStatus[id := Cancelled]))
    else if id in m.priority then
      Success(m.(priority := RemoveFirst(m.priority, id), orderStatus := m.orderStatus[id := Cancelled]))
    else Failure(OrderNotFound)
  }

  /** `cancel_driver`: a waiting driver leaves the queue; anything else raises and
      changes nothing. */
  function CancelDriverOn(m: Matcher, d: DriverId): (r: Result<Matcher, DeliveryError>)
    ensures r.Failure? <==> d !in m.drivers
    ensures r.Failure? ==> r.error == DriverNotFound
    ensures r.Success? ==>
      && r.value == m.(drivers := RemoveFirst(m.drivers, d), driverStatus := m.driverStatus[d := Cancelled])
      && multiset(r.value.drivers) == multiset(m.drivers) - multiset{d}
    ensures r.Success? && NeverBothWaiting(m) ==> NeverBothWaiting(r.value)
  {
    if d in m.drivers then
      Success(m.(drivers := RemoveFirst(m.drivers, d), driverStatus := m.driverStatus[d := Cancelled]))
    else Failure(DriverNotFound)
  }

  /** `get_assignments`: the (order id, driver id) pairs, oldest first. */
  function AssignmentsOf(m: Matcher): (r: seq<(OrderId, DriverId)>)
    ensures |r| == |m.log|
    ensures forall i :: 0 <= i < |r| ==> r[i] == (m.log[i].orderId, m.log[i].driverId)
  {
    seq(|m.log|, i requires 0 <= i < |m.log| => (m.log[i].orderId, m.log[i].driverId))
  }

  /** Pairs once reported keep their place: a later state's report starts with an
      earlier one's. */
  lemma AssignmentsPrefix(m: Matcher, m2: Matcher)
    requires LogExtends(m, m2)
    ensures |AssignmentsOf(m)| <= |AssignmentsOf(m2)|
    ensures AssignmentsOf(m2)[..|AssignmentsOf(m)|] == AssignmentsOf(m)
  {
    assert forall i :: 0 <= i < |m.log| ==> m2.log[i] == m2.log[..|m.log|][i];
  }

  /** `get_status` and `get_driver_status`: a plain dict lookup. */
  function StatusIn<K>(statuses: map<K, Status>, id: K): (r: Result<Status, DeliveryError>)
    ensures r.Success? <==> id in statuses
    ensures r.Success? ==> r.value == statuses[id]
    ensures r.Failure? ==> r.error == UnknownId
  {
    if id in statuses then Success(statuses[id]) else Failure(UnknownId)
  }

  /** The empty matcher `__init__` builds. */
  function Initial(): (m: Matcher)
    ensures NeverBothWaiting(m) && m.log == []
  {
    Matcher([], [], [], [], map[], map[])
  }

  /** food_delivery/test.py, level 4, first part, for any distinct ids: o1, priority
      o2 and o3 arrive with no driver waiting, so all three pend; o3 is then
      cancelled out of the regular lane. */
  lemma CancelPendingScenario(o1: OrderId, o2: OrderId, o3: OrderId)
    requires o1 != o2 && o1 != o3 && o2 != o3
    ensures var m1 := PlaceOrderOn(PlaceOrderOn(PlaceOrderOn(Initial(), o1, false), o2, true), o3, false);
      CancelOrderOn(m1, o3) == Success(Matcher([], [o1], [o2], [], map[],
                                               map[o1 := Pending, o2 := Pending, o3 := Cancelled]))
  {
    var p1 := PlaceOrderOn(Initial(), o1, false);
    var p2 := PlaceOrderOn(p1, o2, true);
    var m1 := PlaceOrderOn(p2, o3, false);
    assert m1.awaiting == [o1, o3] && m1.priority == [o2];
    assert FirstIndex([o1, o3], o3) == 1;
    assert RemoveFirst([o1, o3], o3) == [o1];
    assert m1.orderStatus[o3 := Cancelled] == map[o1 := Pending, o2 := Pending, o3 := Cancelled];
  }

  /** food_delivery/test.py, level 4, second part: from that state drivers A, B
      and C arrive. A takes the priority o2, B the older o1, and C waits until it
      is cancelled; o4 then pends. */
  lemma StatusTrackingScenario(o1: OrderId, o2: OrderId, o3: OrderId, o4: OrderId,
                               dA: DriverId, dB: DriverId, dC: DriverId)
    requires o1 != o2 && o1 != o3 && o2 != o3 && o4 != o1 && o4 != o2 && o4 != o3
    requires dA != dB && dA != dC && dB != dC
    ensures var c := Matcher([], [o1], [o2], [], map[], map[o1 := Pending, o2 := Pending, o3 := Cancelled]);
      var m2 := DriverAvailableOn(DriverAvailableOn(DriverAvailableOn(c, dA), dB), dC);
      && CancelDriverOn(m2, dC).Success?
      && var m3 := PlaceOrderOn(CancelDriverOn(m2, dC).value, o4, false);
      && AssignmentsOf(m3) == [(o2, dA), (o1, dB)]
      && StatusIn(m3.orderStatus, o2) == Success(Assigned)
      && StatusIn(m3.orderStatus, o4) == Success(Pending)
      && StatusIn(m3.orderStatus, o3) == Success(Cancelled)
      && StatusIn(m3.driverStatus, dA) == Success(Assigned)
      && StatusIn(m3.driverStatus, dC) == Success(Cancelled)
  {
    DriversArrive(o1, o2, o3, dA, dB, dC);
    var m2 := Matcher([dC], [], [], [Assignment(dA, o2), Assignment(dB, o1)],
                      map[dA := Assigned][dB := Assigned][dC := Waiting],
                      map[o1 := Pending, o2 := Pending, o3 := Cancelled][o2 := Assigned][o1 := Assigned]);
    assert RemoveFirst([dC], dC) == [];
    var d := CancelDriverOn(m2, dC).value;
    assert d == m2.(drivers := [], driverStatus := m2.driverStatus[dC := Cancelled]);
    var m3 := PlaceOrderOn(d, o4, false);
    assert m3 == d.(awaiting := [o4], orderStatus := d.orderStatus[o4 := Pending]);
    assert AssignmentsOf(m3) == [(o2, dA), (o1, dB)];
  }

  /** The middle of that trace: A takes the priority order, B the regular one,
      and C waits until it is cancelled. */
  lemma DriversArrive(o1: OrderId, o2: OrderId, o3: OrderId, dA: DriverId, dB: DriverId, dC: DriverId)
    requires o1 != o2 && o1 != o3 && o2 != o3
    requires dA != dB && dA != dC && dB != dC
    ensures var c := Matcher([], [o1], [o2], [], map[], map[o1 := Pending, o2 := Pending, o3 := Cancelled]);
      DriverAvailableOn(DriverAvailableOn(DriverAvailableOn(c, dA), dB), dC)
      == Matcher([dC], [], [], [Assignment(dA, o2), Assignment(dB, o1)],
                 map[dA := Assigned][dB := Assigned][dC := Waiting],
                 c.orderStatus[o2 := Assigned][o1 := Assigned])
  {
    var c := Matcher([], [o1], [o2], [], map[], map[o1 := Pending, o2 := Pending, o3 := Cancelled]);
    var a := DriverAvailableOn(c, dA);
    assert a == c.(priority := [], log := [Assignment(dA, o2)], driverStatus := map[dA := Assigned],
                   orderStatus := c.orderStatus[o2 := Assigned]);
    var b := DriverAvailableOn(a, dB);
    assert b == a.(awaiting := [], log := a.log + [Assignment(dB, o1)], driverStatus := a.driverStatus[dB := Assigned],
                   orderStatus := a.orderStatus[o1 := Assigned]);
    var m2 := DriverAvailableOn(b, dC);
    assert m2 == b.(drivers := [dC], driverStatus := b.driverStatus[dC := Waiting]);
  }

  /** `FoodDeliverySystem`: the three queues, the assignment log and the two status
      dicts, updated in place. */
  class FoodDeliverySystem {
    var drivers: seq<DriverId>
    var awaitingOrders: seq<OrderId>
    var awaitingPriorityOrders: seq<OrderId>
    var assignedOrders: seq<Assignment>
    var driverStatus: map<DriverId, Status>
    var orderStatus: map<OrderId, Status>

    function State(): Matcher
      reads this
    {
      Matcher(drivers, awaitingOrders, awaitingPriorityOrders, assignedOrders, driverStatus, orderStatus)
    }

    ghost predicate Valid()
      reads this
    {
      NeverBothWaiting(State())
    }

    constructor ()
      ensures Valid() && State() == Initial()
    {
      drivers, awaitingOrders, awaitingPriorityOrders, assignedOrders := [], [], [], [];
      driverStatus, orderStatus := map[], map[];
    }

    method GetNextOrder() returns (next: Option<OrderId>)
      modifies this`awaitingOrders, this`awaitingPriorityOrders
      ensures Taken(next, awaitingPriorityOrders, awaitingOrders)
              == NextOrder(old(awaitingPriorityOrders), old(awaitingOrders))
    {
      if awaitingPriorityOrders != [] {
        next := Some(awaitingPriorityOrders[0]);
        awaitingPriorityOrders := awaitingPriorityOrders[1..];
        return;
      }
      if awaitingOrders != [] {
        next := Some(awaitingOrders[0]);
        awaitingOrders := awaitingOrders[1..];
        return;
      }
      return None;
    }

    method PlaceOrder(orderId: OrderId, isPriority: bool := false)
      requires Valid()
      modifies this
      ensures Valid() && State() == PlaceOrderOn(old(State()), orderId, isPriority)
    {
      if drivers != [] {
        var nextDriver := drivers[0];
        drivers := drivers[1..];
        assignedOrders := assignedOrders + [Assignment(nextDriver, orderId)];
        orderStatus := orderStatus[orderId := Assigned];
        driverStatus := driverStatus[nextDriver := Assigned];
      } else if isPriority {
        awaitingPriorityOrders := awaitingPriorityOrders + [orderId];
        orderStatus := orderStatus[orderId := Pending];
      } else {
        awaitingOrders := awaitingOrders + [orderId];
        orderStatus := orderStatus[orderId := Pending];
      }
    }

    method DriverAvailable(driverId: DriverId)
      requires Valid()
      modifies this
      ensures Valid() && State() == DriverAvailableOn(old(State()), driverId)
    {
      var nextOrder := GetNextOrder();
      if nextOrder.Some? {
        assignedOrders := assignedOrders + [Assignment(driverId, nextOrder.value)];
        driverStatus := driverStatus[driverId := Assigned];
        orderStatus := orderStatus[nextOrder.value := Assigned];
      } else {
        drivers := drivers + [driverId];
        driverStatus := driverStatus[driverId := Waiting];
      }
    }

    method CancelOrder(orderId: OrderId) returns (r: Outcome<DeliveryError>)
      requires Valid()
      modifies this
      ensures Valid()
      ensures match CancelOrderOn(old(State()), orderId)
        case Success(m) => r.Pass? && State() == m
        case Failure(e) => r == Fail(e) && State() == old(State())
    {
      if orderId in awaitingOrders {
        awaitingOrders := RemoveFirst(awaitingOrders, orderId);
      } else if orderId in awaitingPriorityOrders {
        awaitingPriorityOrders := RemoveFirst(awaitingPriorityOrders, orderId);
      } else {
        return Fail(OrderNotFound);
      }
      orderStatus := orderStatus[orderId := Cancelled];
      return Pass;
    }

    method CancelDriver(driverId: DriverId) returns (r: Outcome<DeliveryError>)
      requires Valid()
      modifies this
      ensures Valid()
      ensures match CancelDriverOn(old(State()), driverId)
        case Success(m) => r.Pass? && State() == m
        case Failure(e) => r == Fail(e) && State() == old(State())
    {
      if driverId in drivers {
        drivers := RemoveFirst(drivers, driverId);
      } else {
        return Fail(DriverNotFound);
      }
      driverStatus := driverStatus[driverId := Cancelled];
      return Pass;
    }

    function GetAssignments(): (r: seq<(OrderId, DriverId)>)
      reads this
      ensures r == AssignmentsOf(State())
    {
      seq(|assignedOrders|, i requires 0 <= i < |assignedOrders| reads this =>
        (assignedOrders[i].orderId, assignedOrders[i].driverId))
    }

    function GetStatus(orderId: OrderId): (r: Result<Status, DeliveryError>)
      reads this
      ensures r == StatusIn(orderStatus, orderId)
    {
      if orderId in orderStatus then Success(orderStatus[orderId]) else Failure(UnknownId)
    }

    function GetDriverStatus(driverId: DriverId): (r: Result<Status, DeliveryError>)
      reads this
      ensures r == StatusIn(driverStatus, driverId)
    {
      if driverId in driverStatus then Success(driverStatus[driverId]) else Failure(UnknownId)
    }
  }
}
