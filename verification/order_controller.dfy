/** The order service's request and event entry points: validate the body,
    pick the service operation, wrap the result as `{ data: ... }`. */
module OrderController {
  import opened Outcomes
  import opened Events
  import opened OrderDto
  import opened OrderSchema
  import opened OrderService
  import opened ValidationPipe
  import opened Http

  /** Which service operation an update request goes to. */
  datatype UpdateRoute = ToStatus(status: OrderStatus) | ToPatch(patch: UpdateOrderDto)

  /** A status in the body (every status name is a non-empty, truthy string)
      sends the request to the status update alone; the body's other fields
      are dropped. Without one the whole body is the patch. */
  function Route(dto: UpdateOrderDto): (r: UpdateRoute)
    ensures r.ToStatus? <==> dto.status.Some?
    ensures r.ToStatus? ==> r.status == dto.status.value
    ensures r.ToPatch? ==> r.patch == dto && r.patch.status.None?
  {
    if dto.status.Some? then ToStatus(dto.status.value) else ToPatch(dto)
  }

  /** The effect of a validated update request on the order aggregate. */
  function UpdateDispatch(s: OrderState, id: string, dto: UpdateOrderDto): (OrderState, Option<Order>)
  {
    match Route(dto)
    case ToStatus(st) => StatusStep(s, id, st)
    case ToPatch(p) => PatchStep(s, id, p)
  }

  /** A request carrying a status changes only the status, whatever else it
      carries, and asks for the invoice to be sent exactly when the order is
      now SHIPPED and has an invoice. */
  lemma StatusRequestDropsOtherFields(s: OrderState, id: string, dto: UpdateOrderDto)
    requires dto.status.Some? && id in s.orders
    ensures var r := UpdateDispatch(s, id, dto);
            && r.1 == Some(s.orders[id].(status := dto.status.value))
            && (|r.0.events| == |s.events| + 1 <==> dto.status.value == SHIPPED && s.orders[id].invoiceId != "")
  {
  }

  /** A request without a status never emits, and an update request can never
      set the status without the emission check. */
  lemma PatchRequestNeverEmits(s: OrderState, id: string, dto: UpdateOrderDto)
    requires dto.status.None?
    ensures UpdateDispatch(s, id, dto).0.events == s.events
    ensures UpdateDispatch(s, id, dto).1.Some? ==> UpdateDispatch(s, id, dto).1.value.status == s.orders[id].status
  {
  }

  class OrderServiceController {
    const service: OrderService

    constructor (service: OrderService)
      ensures this.service == service
    {
      this.service := service;
    }

    /** GET /:id — a missing order is `{ data: null }`, not an error. */
    method GetOrderById(id: string) returns (r: Wrapped<Option<Order>>)
      ensures r.data.Some? <==> id in service.orders
      ensures r.data.Some? ==> r.data.value == service.orders[id]
      ensures service.Valid() && r.data.Some? ==> r.data.value.id == id
    {
      r := Wrapped(service.FindOrderById(id));
    }

    /** GET / — every stored order. */
    method GetAllOrders() returns (r: Wrapped<set<Order>>)
      ensures r.data == service.FindAllOrders()
    {
      r := Wrapped(service.FindAllOrders());
    }

    /** POST / — the body must pass the create schema before anything is
        stored or emitted. */
    method CreateOrder(body: Body, newId: string) returns (r: Result<Wrapped<Order>, BadRequest>)
      requires service.Valid() && newId !in service.orders
      modifies service
      ensures service.Valid()
      ensures r.Err? <==> !CreateRule(body)
      ensures r.Err? ==> Transform(ParseCreate(body)) == Err(r.error) && service.State() == old(service.State())
      ensures r.Ok? ==> (service.State(), r.value.data) == CreateStep(old(service.State()), newId, ParseCreate(body).value)
    {
      var dto := Transform(ParseCreate(body));
      if dto.Err? {
        return Err(dto.error);
      }
      var created := service.CreateOrder(newId, dto.value);
      r := Ok(Wrapped(created));
    }

    /** PUT /:id — validate, then route on the status. */
    method UpdateOrder(id: string, body: Body) returns (r: Result<Wrapped<Option<Order>>, BadRequest>)
      requires service.Valid()
      modifies service
      ensures service.Valid()
      ensures r.Err? <==> !UpdateRule(body)
      ensures r.Err? ==> Transform(ParseUpdate(body)) == Err(r.error) && service.State() == old(service.State())
      ensures r.Ok? ==> (service.State(), r.value.data) == UpdateDispatch(old(service.State()), id, ParseUpdate(body).value)
    {
      var dto := Transform(ParseUpdate(body));
      if dto.Err? {
        return Err(dto.error);
      }
      var updated: Option<Order>;
      match Route(dto.value) {
        case ToStatus(st) =>
          updated := service.UpdateOrderStatus(id, st);
        case ToPatch(p) =>
          updated := service.UpdateOrder(id, p);
      }
      r := Ok(Wrapped(updated));
    }

    /** The INVOICE_UPLOADED consumer: forward the payload's two ids. */
    method HandleInvoiceUploaded(data: InvoiceUploadedPayload) returns (r: Result<(), string>)
      requires service.Valid()
      modifies service
      ensures service.Valid()
      ensures (service.State(), r) == UploadedStep(old(service.State()), data.invoiceId, data.orderId)
    {
      r := service.HandleInvoiceUploaded(data.invoiceId, data.orderId);
    }
  }
}
