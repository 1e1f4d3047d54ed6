/** The order status values and the two request-body schemas of the order
    service (create and update), as the issues each schema reports. */
module OrderDto {
  import opened Outcomes
  import opened ValidationPipe
  import opened Http
  import Strings

  /** The five statuses, exchanged as their own names. */
  datatype OrderStatus = CREATED | ACCEPTED | REJECTED | SHIPPING | SHIPPED

  function StatusName(s: OrderStatus): string
  {
    match s
    case CREATED => "CREATED"
    case ACCEPTED => "ACCEPTED"
    case REJECTED => "REJECTED"
    case SHIPPING => "SHIPPING"
    case SHIPPED => "SHIPPED"
  }

  /** The status a string names, if it names one. */
  function ParseStatus(name: string): (r: Option<OrderStatus>)
    ensures r.Some? ==> StatusName(r.value) == name
  {
    if name == "CREATED" then Some(CREATED)
    else if name == "ACCEPTED" then Some(ACCEPTED)
    else if name == "REJECTED" then Some(REJECTED)
    else if name == "SHIPPING" then Some(SHIPPING)
    else if name == "SHIPPED" then Some(SHIPPED)
    else None
  }

  /** Exactly five statuses, each recognised under its own name. */
  lemma StatusNamesAreExact(st: OrderStatus)
    ensures ParseStatus(StatusName(st)) == Some(st)
    ensures st in {CREATED, ACCEPTED, REJECTED, SHIPPING, SHIPPED}
  {
    match st
    case CREATED =>
    case ACCEPTED =>
      assert StatusName(st)[0] != "CREATED"[0];
    case REJECTED =>
      assert StatusName(st)[0] != "CREATED"[0];
      assert StatusName(st)[0] != "ACCEPTED"[0];
    case SHIPPING =>
      assert StatusName(st)[0] != "CREATED"[0];
      assert StatusName(st)[0] != "ACCEPTED"[0];
      assert StatusName(st)[0] != "REJECTED"[0];
      assert |StatusName(st)| != |"CREATED"|;
    case SHIPPED =>
      assert StatusName(st)[0] != "CREATED"[0];
      assert StatusName(st)[0] != "ACCEPTED"[0];
      assert StatusName(st)[0] != "REJECTED"[0];
      assert StatusName(st)[6] != "SHIPPING"[6];
  }

  /** A JSON value of a request body; only numbers and strings are inspected
      further. */
  datatype Json = JNum(n: real) | JStr(s: string) | JBool(b: bool) | JNull | JArray | JObject

  /** A request body: a JSON object. A missing key is an absent field. */
  type Body = map<string, Json>

  function TypeName(v: Json): string
  {
    match v
    case JNum(_) => "number"
    case JStr(_) => "string"
    case JBool(_) => "boolean"
    case JNull => "null"
    case JArray => "array"
    case JObject => "object"
  }

  const RequiredMessage := "Required"
  const NotIntegerMessage := "Expected integer, received float"
  const PriceMessage := "Price must be a positive number"
  const QuantityMessage := "Quantity must be a positive integer"
  const ProductIdMessage := "Product ID is required"
  const CustomerIdMessage := "Customer ID is required"
  const SellerIdMessage := "Seller ID is required"
  const StatusChoices := "'CREATED' | 'ACCEPTED' | 'REJECTED' | 'SHIPPING' | 'SHIPPED'"

  /** The rule one field of a schema applies to a present value. */
  datatype Rule =
    | PositiveNumber(message: string)   // number, > 0
    | PositiveInteger(message: string)  // number, whole, > 0
    | NonEmptyText(message: string)     // string, length >= 1
    | StatusValue                       // one of the five status names

  predicate IsInteger(n: real)
  {
    n.Floor as real == n
  }

  /** What a rule accepts, stated on its own. */
  predicate Admits(rule: Rule, v: Json)
  {
    match rule
    case PositiveNumber(_) => v.JNum? && v.n > 0.0
    case PositiveInteger(_) => v.JNum? && IsInteger(v.n) && v.n > 0.0
    case NonEmptyText(_) => v.JStr? && |v.s| >= 1
    case StatusValue => v.JStr? && ParseStatus(v.s).Some?
  }

  /** The issue messages a rule reports on a present value, in the order the
      checks run: type first, then every failing refinement. */
  function Issues(rule: Rule, v: Json): (ms: seq<string>)
    ensures ms == [] <==> Admits(rule, v)
  {
    match rule
    case PositiveNumber(m) =>
      if !v.JNum? then ["Expected number, received " + TypeName(v)]
      else if v.n > 0.0 then [] else [m]
    case PositiveInteger(m) =>
      if !v.JNum? then ["Expected number, received " + TypeName(v)]
      else (if IsInteger(v.n) then [] else [NotIntegerMessage]) + (if v.n > 0.0 then [] else [m])
    case NonEmptyText(m) =>
      if !v.JStr? then ["Expected string, received " + TypeName(v)]
      else if |v.s| >= 1 then [] else [m]
    case StatusValue =>
      if !v.JStr? then ["Expected " + StatusChoices + ", received " + TypeName(v)]
      else if ParseStatus(v.s).Some? then []
      else ["Invalid enum value. Expected " + StatusChoices + ", received '" + v.s + "'"]
  }

  /** A required field: absent is one "Required" issue. */
  function RequiredIssues(body: Body, key: string, rule: Rule): (ms: seq<string>)
    ensures ms == [] <==> key in body && Admits(rule, body[key])
  {
    if key in body then Issues(rule, body[key]) else [RequiredMessage]
  }

  /** An optional field: absent is fine, present must meet the rule. */
  function OptionalIssues(body: Body, key: string, rule: Rule): (ms: seq<string>)
    ensures ms == [] <==> key !in body || Admits(rule, body[key])
  {
    if key in body then Issues(rule, body[key]) else []
  }

  const PriceRule := PositiveNumber(PriceMessage)
  const QuantityRule := PositiveInteger(QuantityMessage)
  const ProductIdRule := NonEmptyText(ProductIdMessage)
  const CustomerIdRule := NonEmptyText(CustomerIdMessage)
  const SellerIdRule := NonEmptyText(SellerIdMessage)

  /** The parsed body of a create request; unknown keys are stripped. */
  datatype CreateOrderDto = CreateOrderDto(price: real, quantity: int, productId: string, customerId: string, sellerId: string)

  /** The parsed body of an update request: every field optional. */
  datatype UpdateOrderDto = UpdateOrderDto(
    status: Option<OrderStatus>,
    price: Option<real>,
    quantity: Option<int>,
    productId: Option<string>,
    customerId: Option<string>,
    sellerId: Option<string>)

  /** The create rule stated field by field: a positive price, a positive
      whole quantity and three non-empty ids. */
  predicate CreateRule(body: Body)
  {
    && "price" in body && body["price"].JNum? && body["price"].n > 0.0
    && "quantity" in body && body["quantity"].JNum? && IsInteger(body["quantity"].n) && body["quantity"].n > 0.0
    && "productId" in body && body["productId"].JStr? && |body["productId"].s| >= 1
    && "customerId" in body && body["customerId"].JStr? && |body["customerId"].s| >= 1
    && "sellerId" in body && body["sellerId"].JStr? && |body["sellerId"].s| >= 1
  }

  /** The create schema's issues, field by field in declaration order. */
  function CreateIssues(body: Body): seq<string>
  {
    RequiredIssues(body, "price", PriceRule)
    + RequiredIssues(body, "quantity", QuantityRule)
    + RequiredIssues(body, "productId", ProductIdRule)
    + RequiredIssues(body, "customerId", CustomerIdRule)
    + RequiredIssues(body, "sellerId", SellerIdRule)
  }

  /** `createOrderDto.parse(body)`. */
  function ParseCreate(body: Body): (r: ParseOutcome<CreateOrderDto>)
    ensures !r.OtherError?
    ensures r.Parsed? <==> CreateRule(body)
    ensures r.Parsed? ==>
              && r.value.price == body["price"].n && r.value.quantity as real == body["quantity"].n
              && r.value.productId == body["productId"].s && r.value.customerId == body["customerId"].s
              && r.value.sellerId == body["sellerId"].s
              && r.value.price > 0.0 && r.value.quantity > 0
    ensures r.SchemaIssues? ==> |r.messages| >= 1
  {
    var issues := CreateIssues(body);
    if issues == [] then
      Parsed(CreateOrderDto(body["price"].n, body["quantity"].n.Floor, body["productId"].s,
                            body["customerId"].s, body["sellerId"].s))
    else SchemaIssues(issues)
  }

  /** The update rule stated field by field: each present field meets the
      create rule for that field, and a present status names a status. */
  predicate UpdateRule(body: Body)
  {
    && ("status" in body ==> body["status"].JStr? && ParseStatus(body["status"].s).Some?)
    && ("price" in body ==> body["price"].JNum? && body["price"].n > 0.0)
    && ("quantity" in body ==> body["quantity"].JNum? && IsInteger(body["quantity"].n) && body["quantity"].n > 0.0)
    && ("productId" in body ==> body["productId"].JStr? && |body["productId"].s| >= 1)
    && ("customerId" in body ==> body["customerId"].JStr? && |body["customerId"].s| >= 1)
    && ("sellerId" in body ==> body["sellerId"].JStr? && |body["sellerId"].s| >= 1)
  }

  function UpdateIssues(body: Body): seq<string>
  {
    OptionalIssues(body, "status", StatusValue)
    + OptionalIssues(body, "price", PriceRule)
    + OptionalIssues(body, "quantity", QuantityRule)
    + OptionalIssues(body, "productId", ProductIdRule)
    + OptionalIssues(body, "customerId", CustomerIdRule)
    + OptionalIssues(body, "sellerId", SellerIdRule)
  }

  function OptionalText(body: Body, key: string): Option<string>
    requires key in body ==> body[key].JStr?
  {
    if key in body then Some(body[key].s) else None
  }

  /** `updateOrderDto.parse(body)`. */
  function ParseUpdate(body: Body): (r: ParseOutcome<UpdateOrderDto>)
    ensures !r.OtherError?
    ensures r.Parsed? <==> UpdateRule(body)
    ensures r.Parsed? ==>
              && (r.value.status.Some? <==> "status" in body)
              && (r.value.status.Some? ==> StatusName(r.value.status.value) == body["status"].s)
              && (r.value.price.Some? <==> "price" in body)
              && (r.value.price.Some? ==> r.value.price.value == body["price"].n > 0.0)
              && (r.value.quantity.Some? <==> "quantity" in body)
              && (r.value.quantity.Some? ==> r.value.quantity.value as real == body["quantity"].n > 0.0)
              && (r.value.productId.Some? <==> "productId" in body)
              && (r.value.productId.Some? ==> r.value.productId.value == body["productId"].s)
              && (r.value.customerId.Some? <==> "customerId" in body)
              && (r.value.customerId.Some? ==> r.value.customerId.value == body["customerId"].s)
              && (r.value.sellerId.Some? <==> "sellerId" in body)
              && (r.value.sellerId.Some? ==> r.value.sellerId.value == body["sellerId"].s)
    ensures r.SchemaIssues? ==> |r.messages| >= 1
  {
    var issues := UpdateIssues(body);
    if issues == [] then
      Parsed(UpdateOrderDto(
        if "status" in body then ParseStatus(body["status"].s) else None,
        if "price" in body then Some(body["price"].n) else None,
        if "quantity" in body then Some(body["quantity"].n.Floor) else None,
        OptionalText(body, "productId"),
        OptionalText(body, "customerId"),
        OptionalText(body, "sellerId")))
    else SchemaIssues(issues)
  }

  /** An empty update body is valid and changes nothing. */
  lemma EmptyPatchIsValid()
    ensures ParseUpdate(map[]) == Parsed(UpdateOrderDto(None, None, None, None, None, None))
  {
  }

  /** The body with a negative price, a zero quantity and empty ids is refused
      with one issue per field, in field order, and the pipe turns them into
      one Bad Request listing them. */
  lemma InvalidCreateIsRejected()
    ensures var body := map["price" := JNum(-50.0), "quantity" := JNum(0.0), "productId" := JStr(""),
                            "customerId" := JStr(""), "sellerId" := JStr("")];
            var ms := [PriceMessage, QuantityMessage, ProductIdMessage, CustomerIdMessage, SellerIdMessage];
            && ParseCreate(body) == SchemaIssues(ms)
            && Transform(ParseCreate(body)) == Err(BadRequest("Validation failed: " + Strings.Join(ms, ", ")))
  {
    var body := map["price" := JNum(-50.0), "quantity" := JNum(0.0), "productId" := JStr(""),
                    "customerId" := JStr(""), "sellerId" := JStr("")];
    assert IsInteger(0.0);
    assert CreateIssues(body) == [PriceMessage, QuantityMessage, ProductIdMessage, CustomerIdMessage, SellerIdMessage];
  }
}
