/** The two services talking through their topics: an upload announces
    INVOICE_UPLOADED, the order service answers with INVOICE_SEND once the
    order is shipped, and the invoice service stamps the invoice and
    announces INVOICE_SENT. */
module Choreography {
  import opened Outcomes
  import opened Events
  import OrderDto
  import InvoiceDto
  import OrderService
  import InvoiceService

  /** The whole flow for an order that has shipped before its invoice is
      uploaded: the order service asks for exactly one sending, of the
      uploaded invoice, and the invoice service stamps that invoice and
      announces it once. */
  lemma {:induction false} ShipUploadSend(s: OrderService.OrderState, t: InvoiceService.InvoiceState, orderId: string,
                                          sellerId: string, file: InvoiceService.UploadedFile, stamp: string,
                                          uploadedAt: Timestamp, newId: string, sentAt: Timestamp, announcedAt: Timestamp)
    requires orderId in s.orders && s.orders[orderId].invoiceId == ""
    requires newId !in t.invoices && orderId != "" && sellerId != ""
    ensures var shipped := OrderService.StatusStep(s, orderId, OrderDto.SHIPPED).0;
            var uploaded := InvoiceService.UploadStep(t, InvoiceDto.UploadInvoiceDto(orderId, sellerId), Some(file),
                                                      stamp, uploadedAt, newId, true, true).0;
            var notified := OrderService.UploadedStep(shipped, newId, orderId).0;
            var sent := InvoiceService.SendStep(uploaded, newId, orderId, sentAt, announcedAt).0;
            && shipped.events == s.events
            && uploaded.events == t.events + [InvoiceUploaded(InvoiceRef(newId, orderId))]
            && notified.events == s.events + [OrderService.SendInvoice(newId, orderId)]
            && notified.orders[orderId].invoiceId == newId
            && SendsFor(notified.events, orderId) == SendsFor(s.events, orderId) + 1
            && sent.invoices[newId].sentAt == Some(sentAt)
            && sent.invoices[newId].orderId == orderId
            && sent.events == uploaded.events + [InvoiceSent(InvoiceSentPayload(newId, orderId, announcedAt))]
            && SentFor(sent.events, newId) == SentFor(t.events, newId) + 1
  {
    var shipped := OrderService.StatusStep(s, orderId, OrderDto.SHIPPED).0;
    var uploaded := InvoiceService.UploadStep(t, InvoiceDto.UploadInvoiceDto(orderId, sellerId), Some(file),
                                              stamp, uploadedAt, newId, true, true).0;
    var notified := OrderService.UploadedStep(shipped, newId, orderId).0;
    var sent := InvoiceService.SendStep(uploaded, newId, orderId, sentAt, announcedAt).0;
    assert shipped.events == s.events && shipped.orders[orderId].invoiceId == "";
    assert uploaded.events == t.events + [InvoiceUploaded(InvoiceRef(newId, orderId))];
    assert newId in uploaded.invoices && uploaded.invoices[newId].orderId == orderId;
    var upload := InvoiceUploaded(InvoiceRef(newId, orderId));
    var done := InvoiceSent(InvoiceSentPayload(newId, orderId, announcedAt));
    assert shipped.orders[orderId].status == OrderDto.SHIPPED;
    SendsForAppend(s.events, [OrderService.SendInvoice(newId, orderId)], orderId);
    SentForAppend(t.events, [upload], newId);
    SentForAppend(t.events + [upload], [done], newId);
  }
}
