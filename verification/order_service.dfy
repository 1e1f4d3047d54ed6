/** The order aggregate: orders kept in a keyed store, changes announced by
    appending events to the service's event stream. Each operation is one
    atomic "load, check, write, emit" step. */
module OrderService {
  import opened Outcomes
  import opened Events
  import opened OrderDto
  import opened OrderSchema

  /** The store and the events emitted so far. */
  datatype OrderState = OrderState(orders: map<string, Order>, events: seq<Event>)

  /** Every stored record sits under its own id. */
  ghost predicate Keyed(orders: map<string, Order>)
  {
    forall k :: k in orders ==> orders[k].id == k
  }

  /** The event `publishSendInvoiceEvent` emits. */
  function SendInvoice(invoiceId: string, orderId: string): Event
  {
    InvoiceSend(InvoiceRef(invoiceId, orderId))
  }

  /** A record with a patch applied: present fields replace, absent ones stay. */
  function ApplyPatch(o: Order, p: UpdateOrderDto): (r: Order)
    ensures r.id == o.id && r.invoiceId == o.invoiceId
    ensures r.status == (if p.status.Some? then p.status.value else o.status)
    ensures r.price == (if p.price.Some? then p.price.value else o.price)
    ensures r.quantity == (if p.quantity.Some? then p.quantity.value else o.quantity)
    ensures r.productId == (if p.productId.Some? then p.productId.value else o.productId)
    ensures r.customerId == (if p.customerId.Some? then p.customerId.value else o.customerId)
    ensures r.sellerId == (if p.sellerId.Some? then p.sellerId.value else o.sellerId)
  {
    o.(status := if p.status.Some? then p.status.value else o.status,
       price := if p.price.Some? then p.price.value else o.price,
       quantity := if p.quantity.Some? then p.quantity.value else o.quantity,
       productId := if p.productId.Some? then p.productId.value else o.productId,
       customerId := if p.customerId.Some? then p.customerId.value else o.customerId,
       sellerId := if p.sellerId.Some? then p.sellerId.value else o.sellerId)
  }

  /** `createOrder`: persist the new record, then announce it. */
  function CreateStep(s: OrderState, id: string, dto: CreateOrderDto): (r: (OrderState, Order))
    requires id !in s.orders
    ensures r.1 == NewOrder(id, dto)
    ensures r.1.id == id && r.1.status == CREATED && r.1.invoiceId == ""
    ensures r.1.price == dto.price && r.1.quantity == dto.quantity && r.1.productId == dto.productId
    ensures r.0.orders == s.orders[id := r.1]
    ensures r.0.events == s.events + [OrderCreated(OrderCreatedPayload(id, dto.customerId, dto.sellerId))]
  {
    var created := NewOrder(id, dto);
    (OrderState(s.orders[id := created], s.events + [OrderCreated(OrderCreatedPayload(created.id, created.customerId, created.sellerId))]),
     created)
  }

  /** `updateOrder`: apply the patch through the store; never emits, even when
      the patch sets the status. */
  function PatchStep(s: OrderState, id: string, p: UpdateOrderDto): (r: (OrderState, Option<Order>))
    ensures r.0.events == s.events
    ensures r.1.None? <==> id !in s.orders
    ensures r.1.None? ==> r.0 == s
    ensures r.1.Some? ==> r.1.value == ApplyPatch(s.orders[id], p) && r.0.orders == s.orders[id := r.1.value]
  {
    if id in s.orders then
      var updated := ApplyPatch(s.orders[id], p);
      (s.(orders := s.orders[id := updated]), Some(updated))
    else (s, None)
  }

  /** `updateOrderStatus`: write only the status and, when the updated record
      is SHIPPED and already carries an invoice id, ask for the invoice to be
      sent. The post-update record is returned, or nothing when absent. */
  function StatusStep(s: OrderState, id: string, status: OrderStatus): (r: (OrderState, Option<Order>))
    ensures r.1.None? <==> id !in s.orders
    ensures r.1.None? ==> r.0 == s
    ensures r.1.Some? ==> r.1.value == s.orders[id].(status := status) && r.0.orders == s.orders[id := r.1.value]
    ensures |r.0.events| == |s.events| + 1 <==> id in s.orders && status == SHIPPED && s.orders[id].invoiceId != ""
    ensures r.0.events == s.events || r.0.events == s.events + [SendInvoice(s.orders[id].invoiceId, id)]
  {
    if id in s.orders then
      var updated := s.orders[id].(status := status);
      var emitted := if status == SHIPPED && updated.invoiceId != "" then [SendInvoice(updated.invoiceId, id)] else [];
      (OrderState(s.orders[id := updated], s.events + emitted), Some(updated))
    else (s, None)
  }

  /** The error `handleInvoiceUploaded` raises for an unknown order. */
  function OrderNotFound(orderId: string): string
  {
    "Order with ID " + orderId + " not found"
  }

  /** `handleInvoiceUploaded`: load the order (an error, and nothing changes,
      when it is absent), attach the invoice id and, when the order read
      before the write was already SHIPPED, ask for the invoice to be sent. */
  function UploadedStep(s: OrderState, invoiceId: string, orderId: string): (r: (OrderState, Result<(), string>))
    ensures r.1.Err? <==> orderId !in s.orders
    ensures r.1.Err? ==> r.0 == s && r.1.error == OrderNotFound(orderId)
    ensures r.1.Ok? ==> r.0.orders == s.orders[orderId := s.orders[orderId].(invoiceId := invoiceId)]
    ensures |r.0.events| == |s.events| + 1 <==> orderId in s.orders && s.orders[orderId].status == SHIPPED
    ensures r.0.events == s.events || r.0.events == s.events + [SendInvoice(invoiceId, orderId)]
  {
    if orderId !in s.orders then (s, Err(OrderNotFound(orderId)))
    else
      var order := s.orders[orderId];
      var emitted := if order.status == SHIPPED then [SendInvoice(invoiceId, orderId)] else [];
      (OrderState(s.orders[orderId := order.(invoiceId := invoiceId)], s.events + emitted), Ok(()))
  }

  /** Every step keeps each record under its own id. */
  lemma StepsKeepRecordsKeyed(s: OrderState, id: string, dto: CreateOrderDto, p: UpdateOrderDto,
                              status: OrderStatus, invoiceId: string)
    requires Keyed(s.orders)
    ensures id !in s.orders ==> Keyed(CreateStep(s, id, dto).0.orders)
    ensures Keyed(PatchStep(s, id, p).0.orders)
    ensures Keyed(StatusStep(s, id, status).0.orders)
    ensures Keyed(UploadedStep(s, invoiceId, id).0.orders)
  {
  }

  /** Shipping, then receiving the upload. */
  function ShipThenUpload(s: OrderState, id: string, invoiceId: string): OrderState
  {
    UploadedStep(StatusStep(s, id, SHIPPED).0, invoiceId, id).0
  }

  /** Receiving the upload, then shipping. */
  function UploadThenShip(s: OrderState, id: string, invoiceId: string): OrderState
  {
    StatusStep(UploadedStep(s, invoiceId, id).0, id, SHIPPED).0
  }

  /** Convergence: from an order that is not yet SHIPPED and has no invoice,
      one SHIPPED update and one invoice upload, run in either order, reach the
      same store and emit exactly one INVOICE_SEND, carrying the uploaded id. */
  lemma {:induction false} Convergence(s: OrderState, id: string, invoiceId: string)
    requires id in s.orders && s.orders[id].status != SHIPPED && s.orders[id].invoiceId == ""
    requires invoiceId != ""
    ensures ShipThenUpload(s, id, invoiceId) == UploadThenShip(s, id, invoiceId)
    ensures ShipThenUpload(s, id, invoiceId).events == s.events + [SendInvoice(invoiceId, id)]
    ensures SendsFor(ShipThenUpload(s, id, invoiceId).events, id) == SendsFor(s.events, id) + 1
  {
    var o := s.orders[id];
    var shipped := StatusStep(s, id, SHIPPED).0;
    assert shipped.events == s.events;
    assert shipped.orders[id] == o.(status := SHIPPED);
    var attached := UploadedStep(s, invoiceId, id).0;
    assert attached.events == s.events;
    assert attached.orders[id] == o.(invoiceId := invoiceId);
    assert o.(status := SHIPPED).(invoiceId := invoiceId) == o.(invoiceId := invoiceId).(status := SHIPPED);
    SendsForAppend(s.events, [SendInvoice(invoiceId, id)], id);
    assert SendsFor([SendInvoice(invoiceId, id)], id) == 1 by {
      assert [SendInvoice(invoiceId, id)][..0] == [];
    }
  }

  /** The order of the two triggers matters once the invoice id is empty: an
      empty id counts as "no invoice" for the status update but not for the
      upload handler, so only shipping first emits. */
  lemma EmptyInvoiceIdDiverges(s: OrderState, id: string)
    requires id in s.orders && s.orders[id].status != SHIPPED && s.orders[id].invoiceId == ""
    ensures ShipThenUpload(s, id, "").events == s.events + [SendInvoice("", id)]
    ensures UploadThenShip(s, id, "").events == s.events
  {
    assert StatusStep(s, id, SHIPPED).0.orders[id].status == SHIPPED;
  }

  /** No deduplication: a second upload for a SHIPPED order emits INVOICE_SEND
      again. */
  lemma RepeatedUploadSendsAgain(s: OrderState, id: string, invoiceId: string)
    requires id in s.orders && s.orders[id].status == SHIPPED
    ensures var once := UploadedStep(s, invoiceId, id).0;
            UploadedStep(once, invoiceId, id).0.events
            == s.events + [SendInvoice(invoiceId, id), SendInvoice(invoiceId, id)]
  {
    var once := UploadedStep(s, invoiceId, id).0;
    assert once.orders[id].status == SHIPPED;
  }

  /** No deduplication: a second SHIPPED update of an order with an invoice
      emits INVOICE_SEND again. */
  lemma RepeatedShipSendsAgain(s: OrderState, id: string)
    requires id in s.orders && s.orders[id].invoiceId != ""
    ensures var once := StatusStep(s, id, SHIPPED).0;
            var inv := s.orders[id].invoiceId;
            StatusStep(once, id, SHIPPED).0.events == s.events + [SendInvoice(inv, id), SendInvoice(inv, id)]
  {
    var once := StatusStep(s, id, SHIPPED).0;
    assert once.orders[id].invoiceId == s.orders[id].invoiceId;
  }

  /** An order that is already SHIPPED gets two INVOICE_SEND events when the
      upload arrives before a repeated SHIPPED update. */
  lemma ShippedOrderUploadThenShipSendsTwice(s: OrderState, id: string, invoiceId: string)
    requires id in s.orders && s.orders[id].status == SHIPPED && invoiceId != ""
    ensures UploadThenShip(s, id, invoiceId).events
            == s.events + [SendInvoice(invoiceId, id), SendInvoice(invoiceId, id)]
  {
    var attached := UploadedStep(s, invoiceId, id).0;
    assert attached.orders[id].invoiceId == invoiceId;
  }

  /** The order service: a store of orders and the stream of emitted events. */
  class OrderService {
    var orders: map<string, Order>
    var events: seq<Event>

    function State(): OrderState
      reads this
    {
      OrderState(orders, events)
    }

    /** The class invariant: every record sits under its own id. */
    ghost predicate Valid()
      reads this
    {
      Keyed(orders)
    }

    constructor ()
      ensures Valid()
      ensures orders == map[] && events == []
    {
      orders := map[];
      events := [];
    }

    /** `createOrder`; the store's fresh id is a parameter. */
    method CreateOrder(id: string, dto: CreateOrderDto) returns (created: Order)
      requires Valid() && id !in orders
      modifies this
      ensures Valid()
      ensures (State(), created) == CreateStep(old(State()), id, dto)
      ensures orders == old(orders)[id := created] && created.status == CREATED
      ensures events == old(events) + [OrderCreated(OrderCreatedPayload(id, created.customerId, created.sellerId))]
    {
      created := NewOrder(id, dto);
      orders := orders[id := created];
      var payload := OrderCreatedPayload(created.id, created.customerId, created.sellerId);
      events := events + [OrderCreated(payload)];
    }

    /** `findAllOrders`: every stored record; the listing order is not modelled. */
    function FindAllOrders(): (r: set<Order>)
      reads this
      ensures forall id :: id in orders ==> orders[id] in r
      ensures forall o :: o in r ==> exists id :: id in orders && orders[id] == o
    {
      orders.Values
    }

    /** `findOrderById`: the record, or nothing when absent. */
    function FindOrderById(id: string): (r: Option<Order>)
      reads this
      ensures r.Some? <==> id in orders
      ensures r.Some? ==> r.value == orders[id]
      ensures Valid() && r.Some? ==> r.value.id == id
    {
      if id in orders then Some(orders[id]) else None
    }

    /** `updateOrder`. */
    method UpdateOrder(id: string, patch: UpdateOrderDto) returns (updated: Option<Order>)
      requires Valid()
      modifies this
      ensures Valid()
      ensures (State(), updated) == PatchStep(old(State()), id, patch)
      ensures events == old(events)
    {
      if id in orders {
        var o := ApplyPatch(orders[id], patch);
        orders := orders[id := o];
        updated := Some(o);
      } else {
        updated := None;
      }
    }

    /** `updateOrderStatus`. */
    method UpdateOrderStatus(id: string, status: OrderStatus) returns (updated: Option<Order>)
      requires Valid()
      modifies this
      ensures Valid()
      ensures (State(), updated) == StatusStep(old(State()), id, status)
      ensures updated.Some? <==> id in old(orders)
      ensures events == old(events) + (if updated.Some? && status == SHIPPED && updated.value.invoiceId != ""
                                       then [SendInvoice(updated.value.invoiceId, id)] else [])
    {
      if id in orders {
        var o := orders[id].(status := status);
        orders := orders[id := o];
        updated := Some(o);
      } else {
        updated := None;
      }
      if updated.Some? && status == SHIPPED && updated.value.invoiceId != "" {
        events := events + [SendInvoice(updated.value.invoiceId, id)];
      }
    }

    /** `handleInvoiceUploaded`. */
    method HandleInvoiceUploaded(invoiceId: string, orderId: string) returns (r: Result<(), string>)
      requires Valid()
      modifies this
      ensures Valid()
      ensures (State(), r) == UploadedStep(old(State()), invoiceId, orderId)
      ensures r.Err? ==> orders == old(orders) && events == old(events)
      ensures r.Ok? ==> events == old(events) + (if old(orders)[orderId].status == SHIPPED
                                                  then [SendInvoice(invoiceId, orderId)] else [])
    {
      var order := FindOrderById(orderId);
      if order.None? {
        return Err(OrderNotFound(orderId));
      }
      orders := orders[orderId := orders[orderId].(invoiceId := invoiceId)];
      if order.value.status == SHIPPED {
        events := events + [SendInvoice(invoiceId, orderId)];
      }
      r := Ok(());
    }
  }
}
