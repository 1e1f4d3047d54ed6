/** The event catalog shared by the order and invoice services: the four event
    tags, the string each tag is emitted under, and one payload shape per tag. */
module Events {
  import opened Outcomes

  /** Milliseconds since the epoch; every `new Date()` of the source is an input. */
  type Timestamp = int

  /** The keys of the tag table; `OrderInvoiceEventType` ranges over them. */
  datatype EventType = ORDER_CREATED | INVOICE_UPLOADED | INVOICE_SEND | INVOICE_SENT

  /** Every tag, in the order of the table. */
  const AllEventTypes: seq<EventType> := [ORDER_CREATED, INVOICE_UPLOADED, INVOICE_SEND, INVOICE_SENT]

  /** The string value a tag is emitted under. */
  function Pattern(t: EventType): string
  {
    match t
    case ORDER_CREATED => "ORDER_CREATED"
    case INVOICE_UPLOADED => "INVOICE_UPLOADED"
    case INVOICE_SEND => "INVOICE_SEND"
    case INVOICE_SENT => "INVOICE_SENT"
  }

  /** The key of the table a string names, if any. */
  function KeyOf(s: string): (r: Option<EventType>)
    ensures r.Some? ==> Pattern(r.value) == s
  {
    if s == "ORDER_CREATED" then Some(ORDER_CREATED)
    else if s == "INVOICE_UPLOADED" then Some(INVOICE_UPLOADED)
    else if s == "INVOICE_SEND" then Some(INVOICE_SEND)
    else if s == "INVOICE_SENT" then Some(INVOICE_SENT)
    else None
  }

  /** The table has exactly four entries, each value equal to its key, so the
      value names its key back and no two keys share a value. */
  lemma CatalogIsExact()
    ensures |AllEventTypes| == 4
    ensures forall t: EventType :: t in AllEventTypes
    ensures forall i, j :: 0 <= i < j < |AllEventTypes| ==> AllEventTypes[i] != AllEventTypes[j]
    ensures forall t: EventType :: KeyOf(Pattern(t)) == Some(t)
    ensures forall t, u: EventType :: Pattern(t) == Pattern(u) ==> t == u
  {
    forall t: EventType ensures t in AllEventTypes {
      match t
      case ORDER_CREATED => assert AllEventTypes[0] == t;
      case INVOICE_UPLOADED => assert AllEventTypes[1] == t;
      case INVOICE_SEND => assert AllEventTypes[2] == t;
      case INVOICE_SENT => assert AllEventTypes[3] == t;
    }
    forall t: EventType ensures KeyOf(Pattern(t)) == Some(t) {
      match t
      case ORDER_CREATED =>
      case INVOICE_UPLOADED =>
        assert Pattern(t)[8] != "ORDER_CREATED"[8];
      case INVOICE_SEND =>
        assert Pattern(t)[8] != "ORDER_CREATED"[8];
        assert |Pattern(t)| != |"INVOICE_UPLOADED"|;
      case INVOICE_SENT =>
        assert Pattern(t)[8] != "ORDER_CREATED"[8];
        assert |Pattern(t)| != |"INVOICE_UPLOADED"|;
        assert Pattern(t)[11] != "INVOICE_SEND"[11];
    }
  }

  /** `OrderInvoiceEventType`: a string is a tag key exactly when it is one of
      the four names. */
  lemma EventTypeRange(s: string)
    ensures KeyOf(s).Some? <==> s in {"ORDER_CREATED", "INVOICE_UPLOADED", "INVOICE_SEND", "INVOICE_SENT"}
  {
  }

  /** ORDER_CREATED carries the new order's id and its two parties. */
  datatype OrderCreatedPayload = OrderCreatedPayload(orderId: string, customerId: string, sellerId: string)

  /** INVOICE_UPLOADED and INVOICE_SEND share this shape. */
  datatype InvoiceRef = InvoiceRef(invoiceId: string, orderId: string)
  type InvoiceUploadedPayload = InvoiceRef
  type InvoiceSendPayload = InvoiceRef

  /** INVOICE_SENT adds the moment the invoice was sent. */
  datatype InvoiceSentPayload = InvoiceSentPayload(invoiceId: string, orderId: string, sentAt: Timestamp)

  /** One emitted event: the tag together with its payload. */
  datatype Event =
    | OrderCreated(created: OrderCreatedPayload)
    | InvoiceUploaded(uploaded: InvoiceUploadedPayload)
    | InvoiceSend(send: InvoiceSendPayload)
    | InvoiceSent(sent: InvoiceSentPayload)
  {
    /** The tag the event is emitted under. */
    function Tag(): EventType
    {
      match this
      case OrderCreated(_) => ORDER_CREATED
      case InvoiceUploaded(_) => INVOICE_UPLOADED
      case InvoiceSend(_) => INVOICE_SEND
      case InvoiceSent(_) => INVOICE_SENT
    }
  }

  /** The INVOICE_SEND events of a log that name the given order. */
  function SendsFor(log: seq<Event>, orderId: string): nat
  {
    if |log| == 0 then 0
    else SendsFor(log[..|log| - 1], orderId)
         + (if log[|log| - 1].InvoiceSend? && log[|log| - 1].send.orderId == orderId then 1 else 0)
  }

  /** The INVOICE_SENT events of a log that name the given invoice. */
  function SentFor(log: seq<Event>, invoiceId: string): nat
  {
    if |log| == 0 then 0
    else SentFor(log[..|log| - 1], invoiceId)
         + (if log[|log| - 1].InvoiceSent? && log[|log| - 1].sent.invoiceId == invoiceId then 1 else 0)
  }

  /** Counting INVOICE_SEND events distributes over appending to a log. */
  lemma {:induction false} SendsForAppend(log: seq<Event>, more: seq<Event>, orderId: string)
    ensures SendsFor(log + more, orderId) == SendsFor(log, orderId) + SendsFor(more, orderId)
    decreases |more|
  {
    if |more| == 0 {
      assert log + more == log;
    } else {
      var init := more[..|more| - 1];
      SendsForAppend(log, init, orderId);
      assert (log + more)[..|log + more| - 1] == log + init;
    }
  }

  /** Counting INVOICE_SENT events distributes over appending to a log. */
  lemma {:induction false} SentForAppend(log: seq<Event>, more: seq<Event>, invoiceId: string)
    ensures SentFor(log + more, invoiceId) == SentFor(log, invoiceId) + SentFor(more, invoiceId)
    decreases |more|
  {
    if |more| == 0 {
      assert log + more == log;
    } else {
      var init := more[..|more| - 1];
      SentForAppend(log, init, invoiceId);
      assert (log + more)[..|log + more| - 1] == log + init;
    }
  }
}
