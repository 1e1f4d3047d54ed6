/** The stored order record. The store encodes a status as its position in
    the list CREATED..SHIPPED (0..4); requests and events use the names. */
module OrderSchema {
  import opened Outcomes
  import opened OrderDto

  /** The numeric encoding the stored record declares. */
  function StatusCode(s: OrderStatus): (n: nat)
    ensures n < 5
  {
    match s
    case CREATED => 0
    case ACCEPTED => 1
    case REJECTED => 2
    case SHIPPING => 3
    case SHIPPED => 4
  }

  function StatusOfCode(n: int): (r: Option<OrderStatus>)
    ensures r.Some? ==> StatusCode(r.value) == n
  {
    if n == 0 then Some(CREATED)
    else if n == 1 then Some(ACCEPTED)
    else if n == 2 then Some(REJECTED)
    else if n == 3 then Some(SHIPPING)
    else if n == 4 then Some(SHIPPED)
    else None
  }

  /** The numeric encoding is a bijection between the five statuses and 0..4. */
  lemma StatusCodesAreExact(n: int)
    ensures StatusOfCode(n).Some? <==> 0 <= n < 5
    ensures forall s: OrderStatus :: StatusOfCode(StatusCode(s)) == Some(s)
  {
    forall s: OrderStatus ensures StatusOfCode(StatusCode(s)) == Some(s) {
      match s
      case CREATED =>
      case ACCEPTED =>
      case REJECTED =>
      case SHIPPING =>
      case SHIPPED =>
    }
  }

  /** The status a record takes when none is given. */
  const DefaultStatus := CREATED

  /** A stored order. `invoiceId` is written by the service (the empty string
      stands for "not set", as a falsy value does in the source); the record
      declaration itself does not list it. */
  datatype Order = Order(
    id: string,
    status: OrderStatus,
    price: real,
    quantity: int,
    productId: string,
    customerId: string,
    sellerId: string,
    invoiceId: string)

  /** The record the store creates from validated create data. */
  function NewOrder(id: string, dto: CreateOrderDto): (o: Order)
    ensures o.id == id && o.status == DefaultStatus && StatusCode(o.status) == 0 && o.invoiceId == ""
    ensures o.price == dto.price && o.quantity == dto.quantity
    ensures o.productId == dto.productId && o.customerId == dto.customerId && o.sellerId == dto.sellerId
  {
    Order(id, DefaultStatus, dto.price, dto.quantity, dto.productId, dto.customerId, dto.sellerId, "")
  }
}
