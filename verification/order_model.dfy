/** The order document (models/Order.js): line items, contact and address
    snapshot, payment and delivery flags, the tracking-event log, and the
    `totalPrice` that the pre-save hook derives on every save. */
module OrderModel {
  import opened Wrappers
  import opened Common

  /** The inline snapshot a custom line item carries instead of a product. */
  datatype CustomData = CustomData(name: string, description: string, image: string)

  /** One line item. `price` is the snapshot taken at checkout, in minor units. */
  datatype LineItem = LineItem(
    itemType: ItemType,
    product: Option<ProductId>,
    customData: Option<CustomData>,
    quantity: int,
    price: int)

  /** What the item schema demands on save: `quantity` at least 1 (`min: 1`),
      and a product reference whenever the item is standard (the conditional
      `required`). A custom item need not carry one. */
  predicate ItemValid(it: LineItem) {
    && it.quantity >= 1
    && (it.itemType == Standard ==> it.product.Some?)
  }

  datatype OrderStatus = Pending | Processing | Shipped | Delivered | Cancelled

  datatype PaymentMethod = CreditCard | PayPal | CashOnDelivery

  datatype ShippingAddress = ShippingAddress(
    street: string, city: string, state: string, zipCode: string, country: string)

  /** street, city, state and country are required strings; zipCode is optional. */
  predicate AddressValid(a: ShippingAddress) {
    a.street != "" && a.city != "" && a.state != "" && a.country != ""
  }

  datatype PaymentResult = PaymentResult(
    id: string, status: string, updateTime: string, emailAddress: string)

  /** A tracking event: a date and a required description; the location is
      an optional string (every writer of the log supplies one). */
  datatype TrackingEvent = TrackingEvent(date: int, description: string, location: string)

  predicate EventValid(e: TrackingEvent) {
    e.description != ""
  }

  predicate EventsValid(events: seq<TrackingEvent>) {
    forall k :: 0 <= k < |events| ==> EventValid(events[k])
  }

  // ---------------------------------------------------------------------
  // The derived total

  function LineTotal(it: LineItem): int {
    it.price * it.quantity
  }

  /** The `reduce` of the pre-save hook: price × quantity summed over the
      items from left to right, starting at 0. */
  function ItemsTotal(items: seq<LineItem>): int {
    if items == [] then 0 else ItemsTotal(items[..|items| - 1]) + LineTotal(items[|items| - 1])
  }

  /** The value the pre-save hook stores in `totalPrice`. */
  function OrderTotal(items: seq<LineItem>, shippingCharges: int): int {
    ItemsTotal(items) + shippingCharges
  }

  /** The total of a concatenation is the sum of the totals, so the result of
      the reduction does not depend on how the item list is split. */
  lemma {:induction false} ItemsTotalAppend(a: seq<LineItem>, b: seq<LineItem>)
    ensures ItemsTotal(a + b) == ItemsTotal(a) + ItemsTotal(b)
    decreases |b|
  {
    if b != [] {
      var b' := b[..|b| - 1];
      assert (a + b)[..|a + b| - 1] == a + b';
      ItemsTotalAppend(a, b');
    } else {
      assert a + b == a;
    }
  }

  /** Seen from the front: the first item's line total plus the rest. */
  lemma ItemsTotalCons(items: seq<LineItem>)
    requires items != []
    ensures ItemsTotal(items) == LineTotal(items[0]) + ItemsTotal(items[1..])
  {
    assert items == [items[0]] + items[1..];
    ItemsTotalAppend([items[0]], items[1..]);
    assert [items[0]][..0] == [];
  }

  /** With no item the order costs exactly its shipping charges; with valid
      items at non-negative prices it never costs less, and it costs more as
      soon as one item has a positive price. */
  lemma {:induction false} OrderTotalBounds(items: seq<LineItem>, shippingCharges: int)
    requires forall k :: 0 <= k < |items| ==> ItemValid(items[k]) && items[k].price >= 0
    ensures items == [] ==> OrderTotal(items, shippingCharges) == shippingCharges
    ensures OrderTotal(items, shippingCharges) >= shippingCharges
    ensures (exists k :: 0 <= k < |items| && items[k].price > 0) ==>
              OrderTotal(items, shippingCharges) > shippingCharges
    decreases |items|
  {
    if items != [] {
      var init := items[..|items| - 1];
      var last := items[|items| - 1];
      OrderTotalBounds(init, shippingCharges);
      assert LineTotal(last) >= 0 by {
        assert last.quantity >= 1 && last.price >= 0;
      }
      if last.price > 0 {
        assert LineTotal(last) >= last.price;
      } else if exists k :: 0 <= k < |items| && items[k].price > 0 {
        var k :| 0 <= k < |items| && items[k].price > 0;
        assert k < |items| - 1 && init[k] == items[k];
      }
    }
  }

  // ---------------------------------------------------------------------
  // The document

  /** The values an order is created from. */
  datatype NewOrder = NewOrder(
    user: UserId,
    items: seq<LineItem>,
    email: string,
    phoneNumber: string,
    shippingAddress: ShippingAddress,
    paymentMethod: PaymentMethod,
    shippingCharges: int,
    isPaid: bool)

  /** What the schema's validators demand before the first save. */
  predicate NewOrderValid(n: NewOrder) {
    && (forall k :: 0 <= k < |n.items| ==> ItemValid(n.items[k]))
    && n.email != "" && n.phoneNumber != ""
    && AddressValid(n.shippingAddress)
  }

  /** Milliseconds in a day: the calendar step of `setDate(getDate() + n)`. */
  const DAY_MS := 24 * 60 * 60 * 1000

  /** `req.body.estimatedDays || 3`. */
  function DeliveryDays(estimatedDays: Option<int>): (days: int)
    ensures days != 0
    ensures estimatedDays.Some? && estimatedDays.value != 0 ==> days == estimatedDays.value
    ensures estimatedDays.None? || estimatedDays.value == 0 ==> days == 3
  {
    if estimatedDays.None? || estimatedDays.value == 0 then 3 else estimatedDays.value
  }

  /** `s || fallback` for a string. */
  function OrElse(s: string, fallback: string): (r: string)
    ensures s != "" ==> r == s
    ensures s == "" ==> r == fallback
  {
    if s != "" then s else fallback
  }

  // ---------------------------------------------------------------------
  // The lifecycle

  /** The part of an order that the transitions update. */
  datatype Lifecycle = Lifecycle(
    status: OrderStatus,
    isPaid: bool,
    paidAt: Option<int>,
    paymentResult: Option<PaymentResult>,
    isDelivered: bool,
    deliveredAt: Option<int>,
    trackingNumber: Option<string>,
    estimatedDelivery: Option<int>,
    processingDate: Option<int>,
    shippedDate: Option<int>,
    trackingEvents: seq<TrackingEvent>)

  /** The lifecycle of a new order: the schema defaults, with `isPaid` as
      the checkout set it. */
  function Initial(isPaid: bool): (s: Lifecycle)
    ensures s.status == Pending && s.isPaid == isPaid && !s.isDelivered
    ensures s.paidAt == None && s.paymentResult == None && s.deliveredAt == None
    ensures s.trackingNumber == None && s.estimatedDelivery == None
    ensures s.processingDate == None && s.shippedDate == None
    ensures s.trackingEvents == []
  {
    Lifecycle(Pending, isPaid, None, None, false, None, None, None, None, None, [])
  }

  /** One transition. */
  datatype Step =
    | Pay(result: PaymentResult)
    | Process
    | Ship(number: string, estimatedDays: Option<int>, location: string)
    | Deliver(location: string)
    | Note(description: string, location: string)

  /** The arguments the handlers let through: a truthy tracking number to
      ship, a truthy description for a manual event. */
  predicate StepAllowed(step: Step) {
    match step
    case Ship(number, _, _) => number != ""
    case Note(description, _) => description != ""
    case _ => true
  }

  /** The effect of one transition at time `now`. None of them looks at the
      current status. */
  function Apply(s: Lifecycle, step: Step, now: int): Lifecycle {
    match step
    case Pay(result) =>
      s.(isPaid := true, paidAt := Some(now), paymentResult := Some(result))
    case Process =>
      s.(status := Processing, processingDate := Some(now),
         trackingEvents := s.trackingEvents + [TrackingEvent(now, "Order is being processed", "Processing Center")])
    case Ship(number, estimatedDays, location) =>
      s.(status := Shipped, shippedDate := Some(now), trackingNumber := Some(number),
         estimatedDelivery := Some(now + DeliveryDays(estimatedDays) * DAY_MS),
         trackingEvents := s.trackingEvents + [TrackingEvent(now, "Order has been shipped", OrElse(location, "Shipping Center"))])
    case Deliver(location) =>
      s.(isDelivered := true, deliveredAt := Some(now), status := Delivered,
         trackingEvents := s.trackingEvents + [TrackingEvent(now, "Order has been delivered", OrElse(location, "Destination"))])
    case Note(description, location) =>
      s.(trackingEvents := s.trackingEvents + [TrackingEvent(now, description, OrElse(location, ""))])
  }

  /** Whether a transition writes to the tracking log (all but Pay do). */
  predicate Logs(step: Step) {
    !step.Pay?
  }

  /** Each transition leaves earlier events as they were and appends exactly
      one event, except Pay, which leaves the log and the status alone; the
      status a logging transition sets does not depend on the status before. */
  lemma ApplyLog(s: Lifecycle, step: Step, now: int)
    ensures var t := Apply(s, step, now);
            && s.trackingEvents <= t.trackingEvents
            && |t.trackingEvents| == |s.trackingEvents| + (if Logs(step) then 1 else 0)
            && (step.Pay? || step.Note? ==> t.status == s.status)
            && (forall s': Lifecycle :: Apply(s', step, now).status == t.status || step.Pay? || step.Note?)
  {
  }

  /** A transition taken at a time. */
  datatype Timed = Timed(step: Step, at: int)

  /** The lifecycle after a series of transitions, applied in order. */
  function Run(s: Lifecycle, steps: seq<Timed>): Lifecycle
    decreases |steps|
  {
    if steps == [] then s
    else
      var last := steps[|steps| - 1];
      Apply(Run(s, steps[..|steps| - 1]), last.step, last.at)
  }

  /** The number of transitions in a series that write to the log. */
  function Logged(steps: seq<Timed>): nat {
    if steps == [] then 0
    else Logged(steps[..|steps| - 1]) + (if Logs(steps[|steps| - 1].step) then 1 else 0)
  }

  /** The tracking log is append-only: after any series of transitions the
      old log is a prefix of the new one, which is longer by exactly the
      number of logging transitions. */
  lemma {:induction false} RunLog(s: Lifecycle, steps: seq<Timed>)
    ensures s.trackingEvents <= Run(s, steps).trackingEvents
    ensures |Run(s, steps).trackingEvents| == |s.trackingEvents| + Logged(steps)
    decreases |steps|
  {
    if steps != [] {
      var init := steps[..|steps| - 1];
      var last := steps[|steps| - 1];
      RunLog(s, init);
      ApplyLog(Run(s, init), last.step, last.at);
    }
  }

  /** Paying twice is paying once, at the later time with the later result. */
  lemma PayTwice(s: Lifecycle, r1: PaymentResult, t1: int, r2: PaymentResult, t2: int)
    ensures Apply(Apply(s, Pay(r1), t1), Pay(r2), t2) == Apply(s, Pay(r2), t2)
  {
  }

  /** The facts the transitions keep about a lifecycle: every event has a
      description; a delivered order has a delivery date; a payment date
      comes with a payment result; a shipped date, a non-empty tracking
      number and an estimated delivery are set together. */
  predicate Coherent(s: Lifecycle) {
    && EventsValid(s.trackingEvents)
    && (s.isDelivered ==> s.deliveredAt.Some?)
    && (s.paidAt.Some? <==> s.paymentResult.Some?)
    && (s.shippedDate.Some? <==> s.trackingNumber.Some?)
    && (s.trackingNumber.Some? <==> s.estimatedDelivery.Some?)
    && (s.trackingNumber.Some? ==> s.trackingNumber.value != "")
  }

  lemma InitialCoherent(isPaid: bool)
    ensures Coherent(Initial(isPaid))
  {
  }

  /** Every allowed transition keeps a lifecycle coherent. */
  lemma ApplyCoherent(s: Lifecycle, step: Step, now: int)
    requires Coherent(s) && StepAllowed(step)
    ensures Coherent(Apply(s, step, now))
  {
    var t := Apply(s, step, now);
    assert forall k :: 0 <= k < |s.trackingEvents| ==> t.trackingEvents[k] == s.trackingEvents[k];
  }

  /** So does every series of allowed transitions. */
  lemma {:induction false} RunCoherent(s: Lifecycle, steps: seq<Timed>)
    requires Coherent(s)
    requires forall k :: 0 <= k < |steps| ==> StepAllowed(steps[k].step)
    ensures Coherent(Run(s, steps))
    decreases |steps|
  {
    if steps != [] {
      var init := steps[..|steps| - 1];
      var last := steps[|steps| - 1];
      RunCoherent(s, init);
      ApplyCoherent(Run(s, init), last.step, last.at);
    }
  }

  // ---------------------------------------------------------------------
  // The document

  /** A saved order. The fields fixed at checkout are constants; the
      lifecycle fields and the tracking log are updated in place by the
      transitions, each of which ends with a save. */
  class Order {
    const id: string
    const user: UserId
    const items: seq<LineItem>
    const email: string
    const phoneNumber: string
    const shippingAddress: ShippingAddress
    const paymentMethod: PaymentMethod
    const shippingCharges: int
    const createdAt: int

    var totalPrice: int
    var status: OrderStatus
    var isPaid: bool
    var paidAt: Option<int>
    var paymentResult: Option<PaymentResult>
    var isDelivered: bool
    var deliveredAt: Option<int>
    var trackingNumber: Option<string>
    var estimatedDelivery: Option<int>
    var processingDate: Option<int>
    var shippedDate: Option<int>
    var trackingEvents: seq<TrackingEvent>

    /** The lifecycle fields, as one value. */
    function State(): Lifecycle
      reads this
    {
      Lifecycle(status, isPaid, paidAt, paymentResult, isDelivered, deliveredAt,
                trackingNumber, estimatedDelivery, processingDate, shippedDate, trackingEvents)
    }

    /** Everything the schema checks on save holds, `totalPrice` is the
        derived total, and the lifecycle is coherent. */
    ghost predicate Valid()
      reads this
    {
      && (forall k :: 0 <= k < |items| ==> ItemValid(items[k]))
      && email != "" && phoneNumber != ""
      && AddressValid(shippingAddress)
      && totalPrice == OrderTotal(items, shippingCharges)
      && Coherent(State())
    }

    /** `new Order({...})` followed by the first save: unset fields take the
        schema defaults. */
    constructor Create(id: string, n: NewOrder, now: int)
      requires NewOrderValid(n)
      ensures Valid()
      ensures this.id == id && user == n.user && items == n.items
      ensures email == n.email && phoneNumber == n.phoneNumber
      ensures shippingAddress == n.shippingAddress && paymentMethod == n.paymentMethod
      ensures shippingCharges == n.shippingCharges && createdAt == now
      ensures totalPrice == ItemsTotal(n.items) + n.shippingCharges
      ensures State() == Initial(n.isPaid)
    {
      this.id := id;
      user := n.user;
      items := n.items;
      email := n.email;
      phoneNumber := n.phoneNumber;
      shippingAddress := n.shippingAddress;
      paymentMethod := n.paymentMethod;
      shippingCharges := n.shippingCharges;
      createdAt := now;
      totalPrice := 0;
      status := Pending;
      isPaid := n.isPaid;
      paidAt := None;
      paymentResult := None;
      isDelivered := false;
      deliveredAt := None;
      trackingNumber := None;
      estimatedDelivery := None;
      processingDate := None;
      shippedDate := None;
      trackingEvents := [];
      new;
      Save();
    }

    /** The pre-save hook: whatever `totalPrice` held is overwritten by the
        items' total plus the shipping charges. */
    method Save()
      modifies this`totalPrice
      ensures totalPrice == ItemsTotal(items) + shippingCharges
    {
      totalPrice := ItemsTotal(items) + shippingCharges;
    }

    /** Mark paid: the payment flags and the gateway's result; neither the
        status nor the tracking log changes. */
    method MarkPaid(now: int, result: PaymentResult)
      requires Valid()
      modifies this`isPaid, this`paidAt, this`paymentResult, this`totalPrice
      ensures Valid()
      ensures State() == Apply(old(State()), Pay(result), now)
      ensures totalPrice == old(totalPrice)
    {
      ghost var next := Apply(State(), Pay(result), now);
      ApplyCoherent(State(), Pay(result), now);
      isPaid := true;
      paidAt := Some(now);
      paymentResult := Some(result);
      assert State() == next;
      Save();
      assert totalPrice == OrderTotal(items, shippingCharges);
      assert Coherent(State());
    }

    /** Mark processing, from whatever status the order is in. */
    method MarkProcessing(now: int)
      requires Valid()
      modifies this`status, this`processingDate, this`trackingEvents, this`totalPrice
      ensures Valid()
      ensures State() == Apply(old(State()), Process, now)
      ensures totalPrice == old(totalPrice)
    {
      ghost var next := Apply(State(), Process, now);
      ApplyCoherent(State(), Process, now);
      status := Processing;
      processingDate := Some(now);
      trackingEvents := trackingEvents + [TrackingEvent(now, "Order is being processed", "Processing Center")];
      assert State() == next;
      Save();
      assert totalPrice == OrderTotal(items, shippingCharges);
      assert Coherent(State());
    }

    /** Mark shipped, from whatever status the order is in: the estimated
        delivery is `estimatedDays || 3` days after now. */
    method MarkShipped(now: int, number: string, estimatedDays: Option<int>, location: string)
      requires Valid()
      requires number != ""
      modifies this`status, this`shippedDate, this`trackingNumber, this`estimatedDelivery,
               this`trackingEvents, this`totalPrice
      ensures Valid()
      ensures State() == Apply(old(State()), Ship(number, estimatedDays, location), now)
      ensures totalPrice == old(totalPrice)
    {
      ghost var next := Apply(State(), Ship(number, estimatedDays, location), now);
      ApplyCoherent(State(), Ship(number, estimatedDays, location), now);
      status := Shipped;
      shippedDate := Some(now);
      trackingNumber := Some(number);
      estimatedDelivery := Some(now + DeliveryDays(estimatedDays) * DAY_MS);
      trackingEvents := trackingEvents + [TrackingEvent(now, "Order has been shipped", OrElse(location, "Shipping Center"))];
      assert State() == next;
      Save();
      assert totalPrice == OrderTotal(items, shippingCharges);
      assert Coherent(State());
    }

    /** Mark delivered, from whatever status the order is in. */
    method MarkDelivered(now: int, location: string)
      requires Valid()
      modifies this`status, this`isDelivered, this`deliveredAt, this`trackingEvents, this`totalPrice
      ensures Valid()
      ensures State() == Apply(old(State()), Deliver(location), now)
      ensures totalPrice == old(totalPrice)
    {
      ghost var next := Apply(State(), Deliver(location), now);
      ApplyCoherent(State(), Deliver(location), now);
      isDelivered := true;
      deliveredAt := Some(now);
      status := Delivered;
      trackingEvents := trackingEvents + [TrackingEvent(now, "Order has been delivered", OrElse(location, "Destination"))];
      assert State() == next;
      Save();
      assert totalPrice == OrderTotal(items, shippingCharges);
      assert Coherent(State());
    }

    /** A manual tracking event; the status does not change. */
    method AddEvent(now: int, description: string, location: string)
      requires Valid()
      requires description != ""
      modifies this`trackingEvents, this`totalPrice
      ensures Valid()
      ensures State() == Apply(old(State()), Note(description, location), now)
      ensures totalPrice == old(totalPrice)
    {
      ghost var next := Apply(State(), Note(description, location), now);
      ApplyCoherent(State(), Note(description, location), now);
      trackingEvents := trackingEvents + [TrackingEvent(now, description, OrElse(location, ""))];
      assert State() == next;
      Save();
      assert totalPrice == OrderTotal(items, shippingCharges);
      assert Coherent(State());
    }
  }
}
