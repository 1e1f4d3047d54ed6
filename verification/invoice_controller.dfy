/** The invoice service's request and event entry points: the file checks in
    front of an upload, the mapping of upload failures to Bad Request, the
    lookups, and the INVOICE_SEND consumer. */
module InvoiceController {
  import opened Outcomes
  import opened Events
  import opened InvoiceSchema
  import opened InvoiceDto
  import opened InvoiceService
  import opened Http

  /** The largest accepted upload is below 10 MiB. */
  const MaxFileSize := 10 * 1024 * 1024

  /** Messages of the file checks; the first and the second are the web
      framework's own, the third is set by the controller. */
  const FileRequiredMessage := "File is required"
  const FileTypeMessage := "Validation failed (expected type is pdf)"
  const FileSizeMessage := "File size must not exceed 10MB"
  /** The controller's own check, behind the file checks. */
  const InvoiceFileRequiredMessage := "Invoice file is required"
  const UploadErrorPrefix := "Failed to upload invoice: "

  /** Whether `part` occurs in `text` at some position. */
  predicate Occurs(part: string, text: string)
    decreases |text|
  {
    if |text| < |part| then false
    else text[..|part|] == part || Occurs(part, text[1..])
  }

  /** An occurrence at position `i` is found by `Occurs`. */
  lemma {:induction false} OccursAt(part: string, text: string, i: nat)
    requires i <= |text| - |part| && text[i..][..|part|] == part
    ensures Occurs(part, text)
    decreases i
  {
    if i > 0 {
      assert text[1..][i - 1..] == text[i..];
      OccursAt(part, text[1..], i - 1);
    }
  }

  /** When `Occurs` holds, `part` sits at some position of `text`. */
  lemma {:induction false} OccursSomewhere(part: string, text: string) returns (i: nat)
    requires Occurs(part, text)
    ensures i <= |text| - |part| && text[i..][..|part|] == part
    decreases |text|
  {
    if text[..|part|] == part {
      i := 0;
    } else {
      var j := OccursSomewhere(part, text[1..]);
      assert text[1..][j..] == text[j + 1..];
      i := j + 1;
    }
  }

  /** `Occurs` holds exactly when `part` sits at some position of `text`. */
  lemma OccursIffAtSomePosition(part: string, text: string)
    ensures Occurs(part, text) <==> exists i: nat {:trigger text[i..]} :: i <= |text| - |part| && text[i..][..|part|] == part
  {
    if Occurs(part, text) {
      var i := OccursSomewhere(part, text);
    }
    if exists i: nat {:trigger text[i..]} :: i <= |text| - |part| && text[i..][..|part|] == part {
      var i: nat :| i <= |text| - |part| && text[i..][..|part|] == part;
      OccursAt(part, text, i);
    }
  }

  /** The type check matches "pdf" anywhere in the declared media type. */
  predicate IsPdf(f: UploadedFile)
  {
    Occurs("pdf", f.mimetype)
  }

  /** The file checks, in order: present, of type pdf, below the size limit.
      The first failing one answers with status 400. */
  function FilePipe(file: Option<UploadedFile>): (r: Result<UploadedFile, BadRequest>)
    ensures r.Ok? <==> file.Some? && IsPdf(file.value) && file.value.size < MaxFileSize
    ensures r.Ok? ==> r.value == file.value
    ensures file.None? ==> r == Err(BadRequest(FileRequiredMessage))
    ensures file.Some? && IsPdf(file.value) && file.value.size >= MaxFileSize ==> r == Err(BadRequest(FileSizeMessage))
  {
    if file.None? then Err(BadRequest(FileRequiredMessage))
    else if !IsPdf(file.value) then Err(BadRequest(FileTypeMessage))
    else if file.value.size >= MaxFileSize then Err(BadRequest(FileSizeMessage))
    else Ok(file.value)
  }

  /** A PDF under the limit passes the file checks. */
  lemma PdfIsAccepted(name: string, size: nat)
    ensures FilePipe(Some(UploadedFile(name, "application/pdf", size))).Ok? <==> size < MaxFileSize
  {
    var file := UploadedFile(name, "application/pdf", size);
    var tail := file.mimetype[12..][..3];
    assert tail[0] == 'p' && tail[1] == 'd' && tail[2] == 'f';
    assert tail == "pdf";
    OccursAt("pdf", file.mimetype, 12);
    assert IsPdf(file);
  }

  /** A PNG is refused by the type check, whatever its size. */
  lemma PngIsRefused(name: string, size: nat)
    ensures FilePipe(Some(UploadedFile(name, "image/png", size))) == Err(BadRequest(FileTypeMessage))
  {
    var png := "image/png";
    OccursIffAtSomePosition("pdf", png);
    forall i | 0 <= i <= |png| - 3 ensures png[i..][..3] != "pdf" {
      assert png[i..][..3][1] == png[i + 1];
    }
  }

  /** The handler's own `if (!file)` check. */
  function RequireFile(file: Option<UploadedFile>): (r: Result<UploadedFile, BadRequest>)
    ensures r.Ok? <==> file.Some?
    ensures r.Err? ==> r.error == BadRequest(InvoiceFileRequiredMessage)
  {
    if file.None? then Err(BadRequest(InvoiceFileRequiredMessage)) else Ok(file.value)
  }

  /** The file checks already demand a file, so the handler's own check never
      fires behind them. */
  lemma HandlerFileCheckIsRedundant(file: Option<UploadedFile>)
    ensures FilePipe(file).Ok? ==> RequireFile(file) == Ok(FilePipe(file).value)
  {
  }

  /** A successful upload answers `{ data: invoice }`; a failed one a Bad
      Request naming the service's error. */
  function UploadResponse(result: Result<Invoice, string>): (r: Result<Wrapped<Invoice>, BadRequest>)
    ensures r.Ok? <==> result.Ok?
    ensures r.Ok? ==> r.value.data == result.value
    ensures r.Err? ==> r.error.message == UploadErrorPrefix + result.error
  {
    match result
    case Ok(invoice) => Ok(Wrapped(invoice))
    case Err(message) => Err(BadRequest(UploadErrorPrefix + message))
  }

  /** Every failing upload that passed the file checks reads the same. */
  lemma UploadFailureMessage(s: InvoiceState, dto: UploadInvoiceDto, file: Option<UploadedFile>, stamp: string,
                             uploadedAt: Timestamp, newId: string, writeOk: bool, createOk: bool)
    requires newId !in s.invoices
    requires UploadStep(s, dto, file, stamp, uploadedAt, newId, writeOk, createOk).1.Err?
    ensures UploadResponse(UploadStep(s, dto, file, stamp, uploadedAt, newId, writeOk, createOk).1)
            == Err(BadRequest(UploadErrorPrefix + UploadFailedMessage))
  {
  }

  /** The upload body is not checked against its schema: ids the schema would
      refuse still reach the file write, and only the store's own check of its
      required fields then refuses the record, after the file is written. */
  lemma UploadBodyIsNotValidated(s: InvoiceState, file: UploadedFile, stamp: string, uploadedAt: Timestamp, newId: string)
    requires newId !in s.invoices
    ensures ParseUpload(map["orderId" := OrderDto.JStr(""), "sellerId" := OrderDto.JStr("")]).SchemaIssues?
    ensures SaveFileToStorage(Some(file), "", "", stamp, true) == Ok(StoragePath("", "", stamp, file.originalname))
    ensures UploadStep(s, UploadInvoiceDto("", ""), Some(file), stamp, uploadedAt, newId, true, true)
            == (s, Err(UploadFailedMessage))
  {
  }

  class InvoiceServiceController {
    const service: InvoiceService

    constructor (service: InvoiceService)
      ensures this.service == service
    {
      this.service := service;
    }

    /** POST / — the file checks, then the service; its failure becomes a Bad
        Request. The body goes to the service as it came. */
    method UploadInvoice(file: Option<UploadedFile>, body: UploadInvoiceDto, stamp: string, uploadedAt: Timestamp,
                         newId: string, writeOk: bool, createOk: bool)
      returns (r: Result<Wrapped<Invoice>, BadRequest>)
      requires newId !in service.invoices
      modifies service
      ensures FilePipe(file).Err? ==> r == Err(FilePipe(file).error) && service.State() == old(service.State())
      ensures FilePipe(file).Ok? ==>
                var step := UploadStep(old(service.State()), body, file, stamp, uploadedAt, newId, writeOk, createOk);
                service.State() == step.0 && r == UploadResponse(step.1)
    {
      var piped := FilePipe(file);
      if piped.Err? {
        return Err(piped.error);
      }
      var result := service.UploadInvoice(body, file, stamp, uploadedAt, newId, writeOk, createOk);
      r := UploadResponse(result);
    }

    /** GET /:invoiceId — the service's answer, unwrapped. */
    method FindInvoiceById(id: string) returns (r: Result<Invoice, string>)
      ensures r.Ok? <==> id in service.invoices
      ensures r.Ok? ==> r.value == service.invoices[id]
      ensures r.Err? ==> r.error == NotFoundById(id)
    {
      r := service.FindInvoiceById(id);
    }

    /** GET /order/:orderId — the service's answer, unwrapped. */
    method FindInvoiceByOrderId(orderId: string) returns (r: Result<Invoice, string>)
      ensures r.Ok? <==> ForOrder(service.invoices, orderId) != {}
      ensures r.Ok? ==> r.value in ForOrder(service.invoices, orderId)
      ensures r.Err? ==> r.error == NotFoundForOrder(orderId)
    {
      r := service.FindInvoiceByOrderId(orderId);
    }

    /** The INVOICE_SEND consumer: forward the payload's two ids. */
    method HandleInvoiceSend(data: InvoiceSendPayload, sentAt: Timestamp, announcedAt: Timestamp)
      returns (r: Result<(), string>)
      modifies service
      ensures (service.State(), r) == SendStep(old(service.State()), data.invoiceId, data.orderId, sentAt, announcedAt)
    {
      r := service.SendInvoice(data.invoiceId, data.orderId, sentAt, announcedAt);
    }
  }
}
