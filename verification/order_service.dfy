/** The order handlers (controllers/orderController.js): checkout
    (`payment`), the owner-or-admin read, the four lifecycle transitions, the
    manual tracking event and the public tracking projection. The order
    lookup `Order.findById` is a parameter (null when there is no such
    order); the clock is the parameter `now`. */
module OrderService {
  import opened Wrappers
  import opened Common
  import opened OrderModel
  import CartModel
  import Text

  // ---------------------------------------------------------------------
  // Checkout

  /** One item of the checkout payload. A number the client left out is 0
      and a string it left out is "": the handler reads each of them through
      `||`, which treats the two alike. `product` is the raw product id, if
      any. */
  datatype CheckoutItem = CheckoutItem(
    itemType: string,
    product: Option<string>,
    name: string,
    description: string,
    image: string,
    quantity: int,
    price: int)

  datatype Customer = Customer(email: string, phone: string)

  datatype AddressInput = AddressInput(
    street: string, city: string, state: string, zipCode: string, country: string)

  /** `req.body.orderData`. `items` is None when it is missing or not an
      array; `customer` and `shippingAddress` are None when missing. */
  datatype OrderData = OrderData(
    items: Option<seq<CheckoutItem>>,
    customer: Option<Customer>,
    shippingAddress: Option<AddressInput>,
    paymentMethod: string,
    shippingCharges: int)

  /** A mapped item before the schema casts and validates it. */
  datatype ItemDraft = ItemDraft(
    itemType: string,
    product: Option<string>,
    customData: Option<CustomData>,
    quantity: int,
    price: int)

  /** The `dbItems` mapping of one checkout item: the product only for a
      standard item, the custom snapshot only for a custom one, quantity
      defaulting to 1 and price to 0. */
  function MapItem(it: CheckoutItem): (d: ItemDraft)
    ensures d.itemType == it.itemType
    ensures d.product.Some? ==> it.itemType == "standard" && d.product == it.product
    ensures it.itemType == "standard" ==> d.product == it.product
    ensures d.customData.Some? <==> it.itemType == "custom"
    ensures d.customData.Some? ==> d.customData.value.name == it.name
    ensures it.quantity != 0 ==> d.quantity == it.quantity
    ensures it.quantity == 0 ==> d.quantity == 1
    ensures d.price == it.price
  {
    ItemDraft(
      it.itemType,
      if it.itemType == "standard" then it.product else None,
      if it.itemType == "custom" then Some(CustomData(it.name, it.description, it.image)) else None,
      if it.quantity != 0 then it.quantity else 1,
      it.price)
  }

  /** What the item schema makes of a draft on save: the enum on
      `itemType`, the ObjectId cast of `product` (stored in its printed,
      lower-case form), `min: 1` on `quantity` and the conditional
      `required` on `product`. Any failure fails the save (500). */
  function CastItem(d: ItemDraft): (r: Result<LineItem>)
    ensures r.Err? ==> r.code == SERVER_ERROR
    ensures r.Ok? <==>
              && ParseItemType(d.itemType).Some?
              && (d.product.Some? ==> IsValidObjectId(d.product.value))
              && d.quantity >= 1
              && (d.itemType == "standard" ==> d.product.Some?)
    ensures r.Ok? ==> ItemValid(r.value)
    ensures r.Ok? ==> Some(r.value.itemType) == ParseItemType(d.itemType)
    ensures r.Ok? ==> r.value.quantity == d.quantity && r.value.price == d.price
    ensures r.Ok? ==> r.value.customData == d.customData
    ensures r.Ok? ==> (r.value.product.Some? <==> d.product.Some?)
    ensures r.Ok? && d.product.Some? ==> r.value.product == Some(CanonicalId(d.product.value))
  {
    match ParseItemType(d.itemType)
    case None => Err(SERVER_ERROR)
    case Some(t) =>
      if d.product.Some? && !IsValidObjectId(d.product.value) then Err(SERVER_ERROR)
      else if d.quantity < 1 then Err(SERVER_ERROR)
      else if t == Standard && d.product.None? then Err(SERVER_ERROR)
      else
        var product := if d.product.Some? then Some(CanonicalId(d.product.value)) else None;
        Ok(LineItem(t, product, d.customData, d.quantity, d.price))
  }

  /** The whole item list casts, or the save fails. */
  function CastItems(ds: seq<ItemDraft>): (r: Result<seq<LineItem>>)
    ensures r.Err? ==> r.code == SERVER_ERROR
    ensures r.Ok? <==> forall k :: 0 <= k < |ds| ==> CastItem(ds[k]).Ok?
    ensures r.Ok? ==> |r.value| == |ds| && forall k :: 0 <= k < |ds| ==> r.value[k] == CastItem(ds[k]).value
    decreases |ds|
  {
    if ds == [] then Ok([])
    else
      var init := ds[..|ds| - 1];
      var rest := CastItems(init);
      var last := CastItem(ds[|ds| - 1]);
      if rest.Err? then
        assert !CastItem(init[|init| - 1]).Ok? || exists k :: 0 <= k < |init| && !CastItem(init[k]).Ok?;
        Err(SERVER_ERROR)
      else if last.Err? then Err(SERVER_ERROR)
      else
        assert forall k :: 0 <= k < |init| ==> ds[k] == init[k];
        Ok(rest.value + [last.value])
  }

  function MapItems(items: seq<CheckoutItem>): (ds: seq<ItemDraft>)
    ensures |ds| == |items| && forall k :: 0 <= k < |items| ==> ds[k] == MapItem(items[k])
  {
    seq(|items|, k requires 0 <= k < |items| => MapItem(items[k]))
  }

  /** `'creditCard'` is a card payment; anything else is cash on delivery. */
  function PaymentMethodOf(s: string): (m: PaymentMethod)
    ensures m == CreditCard <==> s == "creditCard"
    ensures m != PayPal
  {
    if s == "creditCard" then CreditCard else CashOnDelivery
  }

  /** The address with the handler's defaults: state 'N/A', zip code '',
      country 'Pakistan'. */
  function AddressOf(a: AddressInput): (r: ShippingAddress)
    ensures r.street == a.street && r.city == a.city && r.zipCode == a.zipCode
    ensures r.state == (if a.state != "" then a.state else "N/A")
    ensures r.country == (if a.country != "" then a.country else "Pakistan")
  {
    ShippingAddress(a.street, a.city, OrElse(a.state, "N/A"), a.zipCode, OrElse(a.country, "Pakistan"))
  }

  /** The document `new Order({...})` is given: the cast items and the
      payload's customer, address (with its defaults), payment method and
      charges. */
  function Candidate(user: UserId, d: OrderData, items: seq<LineItem>): NewOrder
    requires d.customer.Some? && d.shippingAddress.Some?
  {
    NewOrder(user, items, d.customer.value.email, d.customer.value.phone,
             AddressOf(d.shippingAddress.value), PaymentMethodOf(d.paymentMethod),
             d.shippingCharges, d.paymentMethod == "creditCard")
  }

  /** The order `payment` builds and saves, or the status of its error
      response: 400 when the payload or its item list is missing (checked
      first); 500 when the customer or the address is missing (a TypeError)
      or the schema refuses the document on save; the order otherwise. */
  function BuildOrder(user: UserId, data: Option<OrderData>): (r: Result<NewOrder>)
    ensures r == Err(BAD_REQUEST) <==> data.None? || data.value.items.None?
    ensures r.Err? ==> r.code == BAD_REQUEST || r.code == SERVER_ERROR
    ensures r.Ok? <==>
              && data.Some? && data.value.items.Some?
              && data.value.customer.Some? && data.value.shippingAddress.Some?
              && CastItems(MapItems(data.value.items.value)).Ok?
              && NewOrderValid(Candidate(user, data.value, CastItems(MapItems(data.value.items.value)).value))
    ensures r.Ok? ==> NewOrderValid(r.value) && r.value.user == user
    ensures r.Ok? ==> (r.value.isPaid <==> data.value.paymentMethod == "creditCard")
    ensures r.Ok? ==> (r.value.paymentMethod == CreditCard <==> r.value.isPaid)
    ensures r.Ok? ==> r.value.paymentMethod != PayPal
    ensures r.Ok? ==> r.value.shippingCharges == data.value.shippingCharges
    ensures r.Ok? ==> r.value.email == data.value.customer.value.email &&
                      r.value.phoneNumber == data.value.customer.value.phone
    ensures r.Ok? ==> r.value.shippingAddress == AddressOf(data.value.shippingAddress.value)
    ensures r.Ok? ==> CastItems(MapItems(data.value.items.value)) == Ok(r.value.items)
  {
    if data.None? || data.value.items.None? then Err(BAD_REQUEST)
    else
      var d := data.value;
      if d.customer.None? || d.shippingAddress.None? then Err(SERVER_ERROR)
      else
        match CastItems(MapItems(d.items.value))
        case Err(code) => Err(code)
        case Ok(items) =>
          var n := Candidate(user, d, items);
          if NewOrderValid(n) then Ok(n) else Err(SERVER_ERROR)
  }

  /** A payload with an item list whose every item casts, a customer with an
      email and a phone, and an address with a street and a city is built:
      the state and country defaults fill in the rest of the address. */
  lemma WellFormedBodyBuilds(user: UserId, d: OrderData)
    requires d.items.Some? && d.customer.Some? && d.shippingAddress.Some?
    requires forall k :: 0 <= k < |d.items.value| ==> CastItem(MapItem(d.items.value[k])).Ok?
    requires d.customer.value.email != "" && d.customer.value.phone != ""
    requires d.shippingAddress.value.street != "" && d.shippingAddress.value.city != ""
    ensures BuildOrder(user, Some(d)).Ok?
  {
    var ds := MapItems(d.items.value);
    assert forall k :: 0 <= k < |ds| ==> CastItem(ds[k]).Ok?;
    var items := CastItems(ds).value;
    assert forall k :: 0 <= k < |items| ==> ItemValid(items[k]);
    assert NewOrderValid(Candidate(user, d, items));
  }

  /** Each built line item is the mapped checkout item at the same position:
      a standard item keeps its product (in canonical form) and no snapshot,
      a custom item its snapshot and no product, a zero quantity becomes 1
      and the price is kept. */
  lemma BuiltItems(user: UserId, data: Option<OrderData>, k: nat)
    requires BuildOrder(user, data).Ok?
    requires k < |data.value.items.value|
    ensures var it := data.value.items.value[k];
            var items := BuildOrder(user, data).value.items;
            && |items| == |data.value.items.value|
            && (items[k].itemType == Standard <==> it.itemType == "standard")
            && (items[k].itemType == Custom <==> it.itemType == "custom")
            && (it.itemType == "standard" ==> items[k].product == Some(CanonicalId(it.product.value)) && items[k].customData.None?)
            && (it.itemType == "custom" ==>
                  items[k].product.None? &&
                  items[k].customData == Some(CustomData(it.name, it.description, it.image)))
            && items[k].quantity == (if it.quantity != 0 then it.quantity else 1)
            && items[k].price == it.price
  {
    var ds := MapItems(data.value.items.value);
    assert ds[k] == MapItem(data.value.items.value[k]);
    assert CastItem(ds[k]).Ok?;
  }

  /** What the client is charged per item: price (0 when absent) times
      quantity (1 when absent). */
  function CheckoutTotal(items: seq<CheckoutItem>): int {
    if items == [] then 0
    else
      var last := items[|items| - 1];
      CheckoutTotal(items[..|items| - 1]) + last.price * (if last.quantity != 0 then last.quantity else 1)
  }

  /** The total the pre-save hook derives for a built order is the checkout
      total of the payload plus its shipping charges. */
  lemma BuiltTotal(user: UserId, data: Option<OrderData>)
    requires BuildOrder(user, data).Ok?
    ensures var n := BuildOrder(user, data).value;
            OrderTotal(n.items, n.shippingCharges) == CheckoutTotal(data.value.items.value) + data.value.shippingCharges
  {
    var n := BuildOrder(user, data).value;
    var src := data.value.items.value;
    forall k | 0 <= k < |src|
      ensures n.items[k].price * n.items[k].quantity == src[k].price * (if src[k].quantity != 0 then src[k].quantity else 1)
    {
      BuiltItems(user, data, k);
    }
    TotalsAgree(n.items, src);
  }

  lemma {:induction false} TotalsAgree(items: seq<LineItem>, src: seq<CheckoutItem>)
    requires |items| == |src|
    requires forall k :: 0 <= k < |src| ==>
               items[k].price * items[k].quantity == src[k].price * (if src[k].quantity != 0 then src[k].quantity else 1)
    ensures ItemsTotal(items) == CheckoutTotal(src)
    decreases |src|
  {
    if src != [] {
      TotalsAgree(items[..|items| - 1], src[..|src| - 1]);
    }
  }

  /** `payment`: the order is built and saved first; then the card session
      is opened (`session`, None when the gateway fails). The confirmation
      mail comes next, but the mailer returns quietly without an address
      and swallows its own failures, so it never decides the answer: once
      the session is open the user's cart is emptied and the session id
      returned. A gateway failure leaves the saved order in place and the
      cart untouched. */
  method Payment(user: UserId, data: Option<OrderData>, orderId: string, now: int,
                 session: Option<string>, cart: CartModel.Cart?)
    returns (r: Result<string>, order: Order?)
    requires cart != null ==> cart.user == user
    modifies cart
    ensures var built := BuildOrder(user, data);
            && (built.Err? ==> r == Err(built.code) && order == null)
            && (built.Ok? ==> order != null && fresh(order) && order.Valid() && order.id == orderId &&
                              order.user == user && order.items == built.value.items &&
                              order.email == built.value.email && order.phoneNumber == built.value.phoneNumber &&
                              order.shippingAddress == built.value.shippingAddress &&
                              order.paymentMethod == built.value.paymentMethod &&
                              order.shippingCharges == built.value.shippingCharges &&
                              order.createdAt == now && order.State() == Initial(built.value.isPaid))
            && (built.Ok? && session.Some? ==> r == Ok(session.value))
            && (built.Ok? && session.None? ==> r == Err(SERVER_ERROR))
    ensures cart != null && r.Ok? ==> cart.products == []
    ensures cart != null && r.Err? ==> cart.products == old(cart.products)
  {
    var built := BuildOrder(user, data);
    if built.Err? {
      return Err(built.code), null;
    }
    order := new Order.Create(orderId, built.value, now);
    if session.None? {
      return Err(SERVER_ERROR), order;
    }
    if cart != null {
      cart.Clear();
    }
    r := Ok(session.value);
  }

  // ---------------------------------------------------------------------
  // Reading an order

  /** `getOrderById`: a malformed id fails the cast inside the lookup and
      the catch answers 500; then 404 for an unknown order; the order itself
      for its owner or an admin; 401 for anyone else. `ownerExists` says
      whether populating the order's user found a document: without one,
      reading its id throws and the response is 500. */
  function ReadOrder(id: string, found: Order?, ownerExists: bool, caller: Principal): (r: Result<Order>)
    ensures !IsValidObjectId(id) ==> r == Err(SERVER_ERROR)
    ensures r == Err(NOT_FOUND) <==> IsValidObjectId(id) && found == null
    ensures r.Ok? <==> IsValidObjectId(id) && found != null && ownerExists && (found.user == caller.id || IsAdmin(caller))
    ensures r.Ok? ==> r.value == found
    ensures r == Err(UNAUTHORIZED) <==>
              IsValidObjectId(id) && found != null && ownerExists && found.user != caller.id && !IsAdmin(caller)
    ensures r == Err(SERVER_ERROR) <==> !IsValidObjectId(id) || (found != null && !ownerExists)
  {
    if !IsValidObjectId(id) then Err(SERVER_ERROR)
    else if found == null then Err(NOT_FOUND)
    else if !ownerExists then Err(SERVER_ERROR)
    else if found.user == caller.id || IsAdmin(caller) then Ok(found)
    else Err(UNAUTHORIZED)
  }

  // ---------------------------------------------------------------------
  // Transitions
  //
  // Each handler looks the order up by the id in the path: a malformed id
  // fails the cast, the catch answers 500 and nothing is saved.

  /** `updateOrderToPaid`. */
  method UpdateOrderToPaid(id: string, found: Order?, now: int, result: PaymentResult) returns (code: int)
    requires found != null ==> found.Valid()
    modifies found
    ensures code == SERVER_ERROR <==> !IsValidObjectId(id)
    ensures code == NOT_FOUND <==> IsValidObjectId(id) && found == null
    ensures found != null && !IsValidObjectId(id) ==> unchanged(found)
    ensures found != null && IsValidObjectId(id) ==>
              code == OK && found.Valid() &&
              found.State() == Apply(old(found.State()), Pay(result), now) &&
              found.totalPrice == old(found.totalPrice)
  {
    if !IsValidObjectId(id) {
      return SERVER_ERROR;
    }
    if found == null {
      return NOT_FOUND;
    }
    found.MarkPaid(now, result);
    return OK;
  }

  /** `updateOrderToProcessing`. */
  method UpdateOrderToProcessing(id: string, found: Order?, now: int) returns (code: int)
    requires found != null ==> found.Valid()
    modifies found
    ensures code == SERVER_ERROR <==> !IsValidObjectId(id)
    ensures code == NOT_FOUND <==> IsValidObjectId(id) && found == null
    ensures found != null && !IsValidObjectId(id) ==> unchanged(found)
    ensures found != null && IsValidObjectId(id) ==>
              code == OK && found.Valid() &&
              found.State() == Apply(old(found.State()), Process, now) &&
              found.totalPrice == old(found.totalPrice)
  {
    if !IsValidObjectId(id) {
      return SERVER_ERROR;
    }
    if found == null {
      return NOT_FOUND;
    }
    found.MarkProcessing(now);
    return OK;
  }

  /** `updateOrderToShipped`: 500 for a malformed id, 404 next, then 400
      without a tracking number, with nothing changed. */
  method UpdateOrderToShipped(id: string, found: Order?, now: int, trackingNumber: string,
                              estimatedDays: Option<int>, location: string) returns (code: int)
    requires found != null ==> found.Valid()
    modifies found
    ensures code == SERVER_ERROR <==> !IsValidObjectId(id)
    ensures code == NOT_FOUND <==> IsValidObjectId(id) && found == null
    ensures code == BAD_REQUEST <==> IsValidObjectId(id) && found != null && trackingNumber == ""
    ensures found != null && (code == BAD_REQUEST || code == SERVER_ERROR) ==> unchanged(found)
    ensures found != null && IsValidObjectId(id) && trackingNumber != "" ==>
              code == OK && found.Valid() &&
              found.State() == Apply(old(found.State()), Ship(trackingNumber, estimatedDays, location), now) &&
              found.totalPrice == old(found.totalPrice)
  {
    if !IsValidObjectId(id) {
      return SERVER_ERROR;
    }
    if found == null {
      return NOT_FOUND;
    }
    if trackingNumber == "" {
      return BAD_REQUEST;
    }
    found.MarkShipped(now, trackingNumber, estimatedDays, location);
    return OK;
  }

  /** `updateOrderToDelivered`. */
  method UpdateOrderToDelivered(id: string, found: Order?, now: int, location: string) returns (code: int)
    requires found != null ==> found.Valid()
    modifies found
    ensures code == SERVER_ERROR <==> !IsValidObjectId(id)
    ensures code == NOT_FOUND <==> IsValidObjectId(id) && found == null
    ensures found != null && !IsValidObjectId(id) ==> unchanged(found)
    ensures found != null && IsValidObjectId(id) ==>
              code == OK && found.Valid() &&
              found.State() == Apply(old(found.State()), Deliver(location), now) &&
              found.totalPrice == old(found.totalPrice)
  {
    if !IsValidObjectId(id) {
      return SERVER_ERROR;
    }
    if found == null {
      return NOT_FOUND;
    }
    found.MarkDelivered(now, location);
    return OK;
  }

  /** `addTrackingEvent`: 400 without a description, before the lookup;
      then 500 for a malformed id and 404 for an unknown order. */
  method AddTrackingEvent(id: string, found: Order?, now: int, description: string, location: string) returns (code: int)
    requires found != null ==> found.Valid()
    modifies found
    ensures code == BAD_REQUEST <==> description == ""
    ensures code == SERVER_ERROR <==> description != "" && !IsValidObjectId(id)
    ensures code == NOT_FOUND <==> description != "" && IsValidObjectId(id) && found == null
    ensures found != null && (code == BAD_REQUEST || code == SERVER_ERROR) ==> unchanged(found)
    ensures found != null && description != "" && IsValidObjectId(id) ==>
              code == OK && found.Valid() &&
              found.State() == Apply(old(found.State()), Note(description, location), now) &&
              found.totalPrice == old(found.totalPrice)
  {
    if description == "" {
      return BAD_REQUEST;
    }
    if !IsValidObjectId(id) {
      return SERVER_ERROR;
    }
    if found == null {
      return NOT_FOUND;
    }
    found.AddEvent(now, description, location);
    return OK;
  }

  // ---------------------------------------------------------------------
  // Public tracking

  /** The catalogue fields `populate` brings in for a product. */
  datatype ProductSummary = ProductSummary(name: string, image: string, price: int)

  /** The `product` object of a projected item; every field is absent when
      the referenced product no longer exists. */
  datatype ProductView = ProductView(
    id: Option<ProductId>, name: Option<string>, image: Option<string>, price: Option<int>)

  datatype ItemView = ItemView(
    itemType: ItemType,
    quantity: int,
    price: int,
    product: Option<ProductView>,
    customData: Option<CustomData>)

  datatype TrackingInfo = TrackingInfo(
    orderId: string,
    status: OrderStatus,
    isPaid: bool,
    email: string,
    phoneNumber: string,
    isDelivered: bool,
    createdAt: int,
    processingDate: Option<int>,
    shippedDate: Option<int>,
    deliveredAt: Option<int>,
    estimatedDelivery: Option<int>,
    shippingAddress: ShippingAddress,
    totalPrice: int,
    trackingEvents: seq<TrackingEvent>,
    items: seq<ItemView>)

  /** The projection of one line item: a product view only for a standard
      item, the custom snapshot only for a custom one. */
  function ProjectItem(it: LineItem, catalog: map<ProductId, ProductSummary>): (v: ItemView)
    ensures v.itemType == it.itemType && v.quantity == it.quantity && v.price == it.price
    ensures v.product.Some? <==> it.itemType == Standard
    ensures v.customData.Some? ==> it.itemType == Custom && v.customData == it.customData
    ensures it.itemType == Custom ==> v.customData == it.customData
    ensures v.product.Some? && it.product.Some? && it.product.value in catalog ==>
              v.product.value == ProductView(it.product, Some(catalog[it.product.value].name),
                                             Some(catalog[it.product.value].image),
                                             Some(catalog[it.product.value].price))
    ensures it.itemType == Standard && (it.product.None? || it.product.value !in catalog) ==>
              v.product == Some(ProductView(None, None, None, None))
  {
    var product :=
      if it.itemType != Standard then None
      else if it.product.Some? && it.product.value in catalog then
        var p := catalog[it.product.value];
        Some(ProductView(it.product, Some(p.name), Some(p.image), Some(p.price)))
      else Some(ProductView(None, None, None, None));
    ItemView(it.itemType, it.quantity, it.price, product,
             if it.itemType == Custom then it.customData else None)
  }

  /** `trackOrder`: 400 for an id that is not 24 hexadecimal characters,
      before any lookup; 404 for an unknown order; otherwise the public
      projection of the order. */
  function TrackOrder(id: string, found: Order?, catalog: map<ProductId, ProductSummary>): (r: Result<TrackingInfo>)
    reads found
    ensures r == Err(BAD_REQUEST) <==> !Text.IsObjectIdText(id)
    ensures r == Err(NOT_FOUND) <==> Text.IsObjectIdText(id) && found == null
    ensures r.Ok? ==> found != null && r.value.orderId == found.id
    ensures r.Ok? ==> r.value.status == found.status && r.value.isPaid == found.isPaid &&
                      r.value.isDelivered == found.isDelivered && r.value.totalPrice == found.totalPrice &&
                      r.value.trackingEvents == found.trackingEvents
    ensures r.Ok? ==> r.value.email == found.email && r.value.phoneNumber == found.phoneNumber &&
                      r.value.shippingAddress == found.shippingAddress && r.value.createdAt == found.createdAt
    ensures r.Ok? ==> r.value.processingDate == found.processingDate && r.value.shippedDate == found.shippedDate &&
                      r.value.deliveredAt == found.deliveredAt && r.value.estimatedDelivery == found.estimatedDelivery
    ensures r.Ok? ==> |r.value.items| == |found.items| &&
                      forall k :: 0 <= k < |found.items| ==> r.value.items[k] == ProjectItem(found.items[k], catalog)
  {
    if !Text.IsObjectIdText(id) then Err(BAD_REQUEST)
    else if found == null then Err(NOT_FOUND)
    else
      Ok(TrackingInfo(
        found.id, found.status, found.isPaid, found.email, found.phoneNumber, found.isDelivered,
        found.createdAt, found.processingDate, found.shippedDate, found.deliveredAt,
        found.estimatedDelivery, found.shippingAddress, found.totalPrice, found.trackingEvents,
        seq(|found.items|, k requires 0 <= k < |found.items| => ProjectItem(found.items[k], catalog))))
  }

  /** A malformed id is refused the same way whatever the store holds. */
  lemma TrackRejectsBeforeLookup(id: string, a: Order?, b: Order?, catalog: map<ProductId, ProductSummary>)
    requires !Text.IsObjectIdText(id)
    ensures TrackOrder(id, a, catalog) == TrackOrder(id, b, catalog) == Err(BAD_REQUEST)
  {
  }
}
