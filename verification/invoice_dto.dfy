/** The upload request's schema: two non-empty ids. */
module InvoiceDto {
  import opened ValidationPipe
  import opened OrderDto

  const OrderIdMessage := "Order ID is required"
  const SellerIdMessage := "Seller ID is required"

  /** The two fields an upload body carries. */
  datatype UploadInvoiceDto = UploadInvoiceDto(orderId: string, sellerId: string)

  /** `uploadInvoiceDto.parse(body)`: exactly the two declared fields, each a
      non-empty string. */
  function ParseUpload(body: Body): (r: ParseOutcome<UploadInvoiceDto>)
    ensures !r.OtherError?
    ensures r.Parsed? <==>
              && "orderId" in body && body["orderId"].JStr? && |body["orderId"].s| >= 1
              && "sellerId" in body && body["sellerId"].JStr? && |body["sellerId"].s| >= 1
    ensures r.Parsed? ==> r.value == UploadInvoiceDto(body["orderId"].s, body["sellerId"].s)
    ensures r.SchemaIssues? ==> |r.messages| >= 1
  {
    var issues := RequiredIssues(body, "orderId", NonEmptyText(OrderIdMessage))
                  + RequiredIssues(body, "sellerId", NonEmptyText(SellerIdMessage));
    if issues == [] then Parsed(UploadInvoiceDto(body["orderId"].s, body["sellerId"].s))
    else SchemaIssues(issues)
  }

  /** Empty ids are reported with the schema's own messages, order id first. */
  lemma EmptyIdsAreReported()
    ensures ParseUpload(map["orderId" := JStr(""), "sellerId" := JStr("")])
            == SchemaIssues([OrderIdMessage, SellerIdMessage])
  {
  }
}
