/** The stored invoice record. */
module InvoiceSchema {
  import opened Outcomes
  import opened Events

  /** A stored invoice. The order id, seller id, file path and upload time are
      required; `sentAt` is not, and stays unset until the invoice is sent. */
  datatype Invoice = Invoice(
    id: string,
    orderId: string,
    sellerId: string,
    pdfPath: string,
    uploadedAt: Timestamp,
    sentAt: Option<Timestamp>)

  /** The store's check of the required fields when a record is created: a
      required string field must not be empty. */
  predicate HasRequiredFields(i: Invoice)
  {
    i.orderId != "" && i.sellerId != "" && i.pdfPath != ""
  }
}
