/** The invoice aggregate: invoices kept in a keyed store, the uploaded file
    written to a seller- and order-scoped path, changes announced by appending
    events to the service's event stream. */
module InvoiceService {
  import opened Outcomes
  import opened Events
  import opened Strings
  import opened InvoiceSchema
  import opened InvoiceDto

  /** The uploaded file as the service sees it; its bytes are written out
      unchanged and are not modelled. */
  datatype UploadedFile = UploadedFile(originalname: string, mimetype: string, size: nat)

  const UploadDir := "/app/uploads/invoices"

  /** Where a file is stored: under the seller, then the order, named by the
      upload time (an ISO-8601 text) and the original file name. */
  function StoragePath(sellerId: string, orderId: string, stamp: string, originalname: string): (p: string)
    ensures |p| > |UploadDir + "/" + sellerId + "/" + orderId + "/"|
    ensures p[..|UploadDir + "/" + sellerId + "/" + orderId + "/"|] == UploadDir + "/" + sellerId + "/" + orderId + "/"
  {
    UploadDir + "/" + sellerId + "/" + orderId + "/" + stamp + "-" + originalname
  }

  /** When no component contains a slash, the path's components are exactly
      the upload directory, the seller, the order and the file name. Ids that
      are empty, "." or ".." are kept as components here; a normalising join
      would drop them or climb out of the directory. */
  lemma StoragePathIsScoped(sellerId: string, orderId: string, stamp: string, originalname: string)
    requires '/' !in sellerId && '/' !in orderId && '/' !in stamp && '/' !in originalname
    ensures Split(StoragePath(sellerId, orderId, stamp, originalname), '/')
            == ["", "app", "uploads", "invoices", sellerId, orderId, stamp + "-" + originalname]
  {
    var name := stamp + "-" + originalname;
    var parts := ["", "app", "uploads", "invoices", sellerId, orderId, name];
    StoragePathIsJoin(sellerId, orderId, name);
    assert StoragePath(sellerId, orderId, stamp, originalname) == Join(parts, "/");
    SplitJoin(parts, '/');
  }

  /** The storage path is the slash-join of its seven components. */
  lemma StoragePathIsJoin(sellerId: string, orderId: string, name: string)
    ensures Join(["", "app", "uploads", "invoices", sellerId, orderId, name], "/")
            == UploadDir + "/" + sellerId + "/" + orderId + "/" + name
  {
    var rest := [sellerId, orderId, name];
    JoinCons(orderId, [name], "/");
    JoinCons(sellerId, [orderId, name], "/");
    assert Join(rest, "/") == sellerId + "/" + (orderId + "/" + name);
    UploadDirIsJoin(rest);
    assert ["", "app", "uploads", "invoices"] + rest == ["", "app", "uploads", "invoices", sellerId, orderId, name];
  }

  /** The fixed directory segments joined in front of the rest of a path. */
  lemma UploadDirIsJoin(rest: seq<string>)
    requires |rest| >= 1
    ensures Join(["", "app", "uploads", "invoices"] + rest, "/") == UploadDir + "/" + Join(rest, "/")
  {
    JoinFour("", "app", "uploads", "invoices", rest, "/");
    UploadDirSegments();
  }

  /** The upload directory spelled as its segments. */
  lemma UploadDirSegments()
    ensures "" + "/" + "app" + "/" + "uploads" + "/" + "invoices" == UploadDir
  {
    var d := "" + "/" + "app" + "/" + "uploads" + "/" + "invoices";
    assert |d| == 21;
    forall i | 0 <= i < 21 ensures d[i] == UploadDir[i] {}
  }

  /** Why storing a file failed. */
  datatype SaveFailure = NoFileProvided | WriteFailed

  const NoFileMessage := "No file provided"
  const UploadFailedMessage := "Invoice upload failed"

  /** `saveFileToStorage`. A missing file fails before anything is written;
      `writeOk` is the outcome of creating the directory and writing the file. */
  function SaveFileToStorage(file: Option<UploadedFile>, sellerId: string, orderId: string, stamp: string,
                             writeOk: bool): (r: Result<string, SaveFailure>)
    ensures file.None? ==> r == Err(NoFileProvided)
    ensures r.Ok? <==> file.Some? && writeOk
    ensures r.Ok? ==> r.value == StoragePath(sellerId, orderId, stamp, file.value.originalname)
  {
    if file.None? then Err(NoFileProvided)
    else if !writeOk then Err(WriteFailed)
    else Ok(StoragePath(sellerId, orderId, stamp, file.value.originalname))
  }

  /** The store and the events emitted so far. */
  datatype InvoiceState = InvoiceState(invoices: map<string, Invoice>, events: seq<Event>)

  /** `uploadInvoice`: store the file, create the record, announce it, return
      it. Any failure, wherever it happens, is reported as one generic error
      and leaves the store and the stream as they were. */
  function UploadStep(s: InvoiceState, dto: UploadInvoiceDto, file: Option<UploadedFile>, stamp: string,
                      uploadedAt: Timestamp, newId: string, writeOk: bool, createOk: bool)
    : (r: (InvoiceState, Result<Invoice, string>))
    requires newId !in s.invoices
    ensures r.1.Ok? <==> file.Some? && writeOk && createOk && dto.orderId != "" && dto.sellerId != ""
    ensures r.1.Err? ==> r.0 == s && r.1.error == UploadFailedMessage
    ensures r.1.Ok? ==>
              && r.1.value == Invoice(newId, dto.orderId, dto.sellerId,
                                      StoragePath(dto.sellerId, dto.orderId, stamp, file.value.originalname),
                                      uploadedAt, None)
              && r.0.invoices == s.invoices[newId := r.1.value]
              && r.0.events == s.events + [InvoiceUploaded(InvoiceRef(newId, dto.orderId))]
  {
    var saved := SaveFileToStorage(file, dto.sellerId, dto.orderId, stamp, writeOk);
    if saved.Err? then (s, Err(UploadFailedMessage))
    else
      var invoice := Invoice(newId, dto.orderId, dto.sellerId, saved.value, uploadedAt, None);
      if !createOk || !HasRequiredFields(invoice) then (s, Err(UploadFailedMessage))
      else
      (InvoiceState(s.invoices[newId := invoice], s.events + [InvoiceUploaded(InvoiceRef(invoice.id, dto.orderId))]),
       Ok(invoice))
  }

  function NotFoundById(id: string): string
  {
    "Invoice with ID " + id + " not found"
  }

  function NotFoundForOrder(orderId: string): string
  {
    "Invoice for order " + orderId + " not found"
  }

  /** The two lookups fail with messages that can never be confused. */
  lemma NotFoundMessagesDiffer(id: string, orderId: string)
    ensures NotFoundById(id) != NotFoundForOrder(orderId)
  {
    assert NotFoundById(id)[8] == 'w';
    assert NotFoundForOrder(orderId)[8] == 'f';
  }

  /** `sendInvoice`: load the invoice (an error, and nothing changes, when it
      is absent), stamp `sentAt` whatever it held, then announce INVOICE_SENT.
      The stored stamp and the announced one are two separate clock readings. */
  function SendStep(s: InvoiceState, invoiceId: string, orderId: string, sentAt: Timestamp, announcedAt: Timestamp)
    : (r: (InvoiceState, Result<(), string>))
    ensures r.1.Err? <==> invoiceId !in s.invoices
    ensures r.1.Err? ==> r.0 == s && r.1.error == NotFoundById(invoiceId)
    ensures r.1.Ok? ==>
              && r.0.invoices == s.invoices[invoiceId := s.invoices[invoiceId].(sentAt := Some(sentAt))]
              && r.0.events == s.events + [InvoiceSent(InvoiceSentPayload(invoiceId, orderId, announcedAt))]
  {
    if invoiceId !in s.invoices then (s, Err(NotFoundById(invoiceId)))
    else
      var invoice := s.invoices[invoiceId];
      (InvoiceState(s.invoices[invoiceId := invoice.(sentAt := Some(sentAt))],
                    s.events + [InvoiceSent(InvoiceSentPayload(invoiceId, orderId, announcedAt))]),
       Ok(()))
  }

  /** No deduplication: a redelivered INVOICE_SEND overwrites `sentAt` with the
      later stamp and announces INVOICE_SENT a second time. */
  lemma {:induction false} RedeliveredSendOverwritesAndRepeats(s: InvoiceState, invoiceId: string, orderId: string,
                                                               t1: Timestamp, a1: Timestamp, t2: Timestamp, a2: Timestamp)
    requires invoiceId in s.invoices
    ensures var once := SendStep(s, invoiceId, orderId, t1, a1).0;
            var twice := SendStep(once, invoiceId, orderId, t2, a2).0;
            && twice.invoices[invoiceId].sentAt == Some(t2)
            && SentFor(twice.events, invoiceId) == SentFor(s.events, invoiceId) + 2
  {
    var e1 := InvoiceSent(InvoiceSentPayload(invoiceId, orderId, a1));
    var e2 := InvoiceSent(InvoiceSentPayload(invoiceId, orderId, a2));
    var once := SendStep(s, invoiceId, orderId, t1, a1).0;
    var twice := SendStep(once, invoiceId, orderId, t2, a2).0;
    assert twice.events == s.events + [e1, e2];
    SentForAppend(s.events, [e1, e2], invoiceId);
    assert [e1, e2][..1] == [e1] && [e1][..0] == [];
  }

  /** Every stored record meets the schema's required fields. */
  ghost predicate MeetSchema(invoices: map<string, Invoice>)
  {
    forall k :: k in invoices ==> HasRequiredFields(invoices[k])
  }

  /** An upload creates a record with non-empty ids and path, the given
      upload time and no `sentAt`; neither an upload nor a send ever leaves a
      stored record without its required fields. */
  lemma StoredInvoicesMeetSchema(s: InvoiceState, dto: UploadInvoiceDto, file: Option<UploadedFile>, stamp: string,
                                 uploadedAt: Timestamp, newId: string, writeOk: bool, createOk: bool,
                                 invoiceId: string, orderId: string, sentAt: Timestamp, announcedAt: Timestamp)
    requires newId !in s.invoices && MeetSchema(s.invoices)
    ensures var r := UploadStep(s, dto, file, stamp, uploadedAt, newId, writeOk, createOk);
            r.1.Ok? ==> HasRequiredFields(r.1.value) && r.1.value.uploadedAt == uploadedAt && r.1.value.sentAt.None?
    ensures MeetSchema(UploadStep(s, dto, file, stamp, uploadedAt, newId, writeOk, createOk).0.invoices)
    ensures MeetSchema(SendStep(s, invoiceId, orderId, sentAt, announcedAt).0.invoices)
  {
    var r := UploadStep(s, dto, file, stamp, uploadedAt, newId, writeOk, createOk);
    if r.1.Ok? {
      assert HasRequiredFields(r.1.value);
    }
  }

  /** The invoices of one order. */
  function ForOrder(invoices: map<string, Invoice>, orderId: string): set<Invoice>
  {
    set k | k in invoices && invoices[k].orderId == orderId :: invoices[k]
  }

  /** After the first successful upload for an order, the invoice found for
      that order is the one just uploaded, with its id and file path. */
  lemma UploadThenFindByOrder(s: InvoiceState, dto: UploadInvoiceDto, file: Option<UploadedFile>, stamp: string,
                              uploadedAt: Timestamp, newId: string)
    requires newId !in s.invoices && file.Some? && dto.orderId != "" && dto.sellerId != ""
    requires ForOrder(s.invoices, dto.orderId) == {}
    ensures var r := UploadStep(s, dto, file, stamp, uploadedAt, newId, true, true);
            ForOrder(r.0.invoices, dto.orderId) == {r.1.value}
            && r.1.value.id == newId && r.1.value.pdfPath == StoragePath(dto.sellerId, dto.orderId, stamp, file.value.originalname)
  {
    var r := UploadStep(s, dto, file, stamp, uploadedAt, newId, true, true);
    ForOrderInsert(s.invoices, newId, r.1.value);
  }

  /** Adding an invoice under a fresh id adds it to its order's invoices and
      leaves every other order's invoices as they were. */
  lemma ForOrderInsert(invoices: map<string, Invoice>, id: string, invoice: Invoice)
    requires id !in invoices
    ensures forall orderId :: ForOrder(invoices[id := invoice], orderId)
                              == ForOrder(invoices, orderId) + (if invoice.orderId == orderId then {invoice} else {})
  {
    forall orderId
      ensures ForOrder(invoices[id := invoice], orderId)
              == ForOrder(invoices, orderId) + (if invoice.orderId == orderId then {invoice} else {})
    {
      var after := invoices[id := invoice];
      forall x | x in ForOrder(after, orderId)
        ensures x in ForOrder(invoices, orderId) + (if invoice.orderId == orderId then {invoice} else {})
      {
        var k :| k in after && after[k].orderId == orderId && after[k] == x;
        if k != id {
          assert invoices[k] == x;
        }
      }
      forall x | x in ForOrder(invoices, orderId) ensures x in ForOrder(after, orderId) {
        var k :| k in invoices && invoices[k].orderId == orderId && invoices[k] == x;
        assert k != id && after[k] == x;
      }
      if invoice.orderId == orderId {
        assert after[id] == invoice;
      }
    }
  }

  /** The invoice service: a store of invoices and the stream of emitted events. */
  class InvoiceService {
    var invoices: map<string, Invoice>
    var events: seq<Event>

    function State(): InvoiceState
      reads this
    {
      InvoiceState(invoices, events)
    }

    constructor ()
      ensures invoices == map[] && events == []
    {
      invoices := map[];
      events := [];
    }

    /** `uploadInvoice`; the clock readings, the store's fresh id and the
        outcomes of the file write and of the record creation are parameters. */
    method UploadInvoice(dto: UploadInvoiceDto, file: Option<UploadedFile>, stamp: string, uploadedAt: Timestamp,
                         newId: string, writeOk: bool, createOk: bool) returns (r: Result<Invoice, string>)
      requires newId !in invoices
      modifies this
      ensures (State(), r) == UploadStep(old(State()), dto, file, stamp, uploadedAt, newId, writeOk, createOk)
      ensures r.Err? ==> invoices == old(invoices) && events == old(events)
    {
      var saved := SaveFileToStorage(file, dto.sellerId, dto.orderId, stamp, writeOk);
      if saved.Err? {
        return Err(UploadFailedMessage);
      }
      var invoice := Invoice(newId, dto.orderId, dto.sellerId, saved.value, uploadedAt, None);
      if !createOk || !HasRequiredFields(invoice) {
        return Err(UploadFailedMessage);
      }
      invoices := invoices[newId := invoice];
      events := events + [InvoiceUploaded(InvoiceRef(invoice.id, dto.orderId))];
      r := Ok(invoice);
    }

    /** `sendInvoice`. */
    method SendInvoice(invoiceId: string, orderId: string, sentAt: Timestamp, announcedAt: Timestamp)
      returns (r: Result<(), string>)
      modifies this
      ensures (State(), r) == SendStep(old(State()), invoiceId, orderId, sentAt, announcedAt)
      ensures r.Ok? ==> invoices[invoiceId].sentAt == Some(sentAt) && |events| == |old(events)| + 1
    {
      var found := FindInvoiceById(invoiceId);
      if found.Err? {
        return Err(found.error);
      }
      invoices := invoices[invoiceId := found.value.(sentAt := Some(sentAt))];
      events := events + [InvoiceSent(InvoiceSentPayload(invoiceId, orderId, announcedAt))];
      r := Ok(());
    }

    /** `findInvoiceById`. */
    function FindInvoiceById(id: string): (r: Result<Invoice, string>)
      reads this
      ensures r.Ok? <==> id in invoices
      ensures r.Ok? ==> r.value == invoices[id]
      ensures r.Err? ==> r.error == NotFoundById(id)
    {
      if id in invoices then Ok(invoices[id]) else Err(NotFoundById(id))
    }

    /** `findInvoiceByOrderId`: some invoice of the order; which one, when
        there are several, the store decides. */
    method FindInvoiceByOrderId(orderId: string) returns (r: Result<Invoice, string>)
      ensures r.Ok? <==> ForOrder(invoices, orderId) != {}
      ensures r.Ok? ==> r.value in ForOrder(invoices, orderId) && r.value.orderId == orderId
      ensures r.Err? ==> r.error == NotFoundForOrder(orderId)
    {
      var matching := ForOrder(invoices, orderId);
      if matching == {} {
        return Err(NotFoundForOrder(orderId));
      }
      var invoice :| invoice in matching;
      r := Ok(invoice);
    }
  }
}
