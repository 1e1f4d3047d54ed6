# Order / invoice choreography — a Dafny model

This project models the event choreography of an e-commerce demo. It has two
services, and neither reads the other's store:

- The **order service** creates orders and changes their status. It records
  the invoice id that an `INVOICE_UPLOADED` event carries.
- The **invoice service** stores uploaded PDF invoices. It marks an invoice
  as sent when an `INVOICE_SEND` event arrives.

The two talk only through events: `ORDER_CREATED`, `INVOICE_UPLOADED`,
`INVOICE_SEND` and `INVOICE_SENT`.

The order service asks for the invoice to be sent (`INVOICE_SEND`) when two
conditions meet: the order is `SHIPPED` and it has an invoice id. Either
condition can become true last. The central result, `OrderService.Convergence`,
is about an order that is not yet shipped and has no invoice. For such an
order, one `SHIPPED` update and one upload notification lead to the same
state in either order. Either ordering emits exactly one `INVOICE_SEND` for that
order.

The model also proves what the code does **not** guarantee:

- There is no deduplication. A redelivered or repeated trigger asks again
  (`RepeatedUploadSendsAgain`, `RepeatedShipSendsAgain`,
  `ShippedOrderUploadThenShipSendsTwice`).
- Sending is not idempotent. A redelivered `INVOICE_SEND` overwrites `sentAt`
  and announces `INVOICE_SENT` again
  (`RedeliveredSendOverwritesAndRepeats`).

Neither handler deduplicates: a redelivered event is processed again. The
model states this repetition as proved properties.

Layout, one module per source file:

- `events.dfy`: the event catalogue and payloads.
- `envelope.dfy`: the message envelope.
- `kafka_config.dfy`: client configuration from the environment.
- `transport.dfy`: the transport client.
  - `KafkaService` is a class over per-topic logs.
  - The consumer loop is a method proved against `Deliverable`.
- `http.dfy`: the 400 error and the `{ data }` response body.
- `validation_pipe.dfy`, `order_dto.dfy`, `invoice_dto.dfy`: request schemas
  and the validation pipe.
- `order_schema.dfy`, `invoice_schema.dfy`: stored records.
- `order_service.dfy`, `invoice_service.dfy`:
  - pure step functions on a state value (records keyed by id, plus the
    sequence of emitted events);
  - a class whose methods are proved equal to those steps.
- `order_controller.dfy`, `invoice_controller.dfy`: the HTTP and message
  entry points.
- `choreography.dfy`: the full ship → upload → send → sent flow across both
  services.
- `strings.dfy`, `outcomes.dfy`: `split`/`join` with their round trip, and
  `Option`/`Result`.

Values the code obtains from outside are inputs to the model. These are:

- store-generated ids;
- clock readings (`new Date()`);
- the file-system write;
- the store's create outcome;
- the broker's connect, send and disconnect answers.

An empty string stands for an unset `invoiceId`, as in the service tests.

## Model

| member | source | states |
|---|---|---|
| Events.KeyOf | libs/kafka/src/interfaces/order-invoice.interface.ts:29-36 | a string that names a tag is that tag's emitted value |
| Events.CatalogIsExact | libs/kafka/src/interfaces/order-invoice.interface.ts:29-34 | exactly four tags, pairwise distinct, each emitted under its own name, so a name identifies its tag |
| Events.EventTypeRange | libs/kafka/src/interfaces/order-invoice.interface.ts:36 | a string is an event-type key iff it is one of the four names |
| Strings.Split | libs/kafka/src/config/kafka.config.ts:12 | `split(',')` gives at least one piece, no piece holds the separator, and joining the pieces gives back the input |
| Strings.SplitJoin | libs/kafka/src/config/kafka.config.ts:12 | splitting the join of separator-free pieces gives back exactly those pieces |
| KafkaConfig.OrElse | libs/kafka/src/config/kafka.config.ts:13-17 | `env[name] \|\| fallback`: the variable when set and non-empty, else the fallback |
| KafkaConfig.CreateKafkaConfig | libs/kafka/src/config/kafka.config.ts:11-19 | at least one broker; `localhost:9092` when KAFKA_BROKERS is unset, else the comma-free entries that re-join to the variable; client id and both topics are each their variable when set and non-empty, else their default; group id passed through |
| KafkaConfig.BrokersAreTheListedEntries | libs/kafka/src/config/kafka.config.ts:12 | a broker list written as entries joined by commas yields exactly those entries |
| KafkaConfig.EmptyBrokersIsNotDefault | libs/kafka/src/config/kafka.config.ts:12 | an empty KAFKA_BROKERS gives one empty broker, not the default (the split result is a non-empty array) |
| KafkaConfig.EmptyEnvironmentDefaults | libs/kafka/src/config/kafka.config.ts:11-19 | with no variables set, every field has its documented default |
| Transport.Parse | libs/kafka/src/kafka.service.ts:65-67 | parsing succeeds exactly on serialised envelopes |
| Transport.ParseSerialize | libs/kafka/src/kafka.service.ts:37-68 | parsing a serialised envelope gives back the envelope |
| Transport.MessageOf | libs/kafka/src/kafka.service.ts:40-44 | the record is keyed by the event id, stamped with the send time, and its value parses back to the event |
| Transport.OutcomeOf | libs/kafka/src/kafka.service.ts:62-74 | a null value is skipped; an unparsable value is a parse failure; otherwise the handler runs, and the message counts as handled iff the handler completed, as a handler failure iff it did not |
| Transport.Deliverable | libs/kafka/src/kafka.service.ts:61-75 | at most one delivered envelope per record |
| Transport.DeliverableAppend | libs/kafka/src/kafka.service.ts:61-75 | delivery distributes over concatenated logs, so one message's fate never affects another's |
| Transport.PublishedIsDelivered | libs/kafka/src/kafka.service.ts:37-68 | a published envelope is the next envelope delivered from that topic |
| Transport.BadRecordIsPassedOver | libs/kafka/src/kafka.service.ts:63-73 | a null or unparsable record is dropped and its neighbours are still delivered; there is no retry or dead-letter topic |
| Transport.RunEachMessage | libs/kafka/src/kafka.service.ts:61-75 | the run loop delivers exactly `Deliverable(log)` and gives every record the per-message outcome |
| Transport.KafkaService.constructor | libs/kafka/src/kafka.service.ts:12-23 | the client starts with no producer or consumer and no session calls |
| Transport.KafkaService.OnModuleInit | libs/kafka/src/kafka.service.ts:25-35 | creates both clients afresh (unconnected); connects the producer, then the consumer only if the producer connected; afterwards exactly the clients whose connect succeeded are connected; fails if either connect fails |
| Transport.KafkaService.PublishEvent | libs/kafka/src/kafka.service.ts:37-53 | appends the event's record to the topic's log when the client exists, its producer is connected and the broker accepts; otherwise nothing changes and no error escapes |
| Transport.KafkaService.SubscribeToTopic | libs/kafka/src/kafka.service.ts:55-76 | fails without a consumer or once the consumer is running; otherwise starts the run loop and delivers `Deliverable` of the topic's log from its first record, with one outcome per record |
| Transport.SecondSubscriptionIsRefused | libs/kafka/src/kafka.service.ts:55-76 | a started client's second subscription fails, because its consumer is already running |
| Transport.KafkaService.OnModuleDestroy | libs/kafka/src/kafka.service.ts:78-86 | disconnects the producer, then the consumer; a failed producer disconnect skips the consumer's; no error escapes |
| Transport.PublishThenSubscribe | libs/kafka/src/kafka.service.ts:25-76 | a started client that publishes one event to a fresh topic and subscribes to it receives exactly that event |
| ValidationPipe.Transform | libs/validation/src/zod-validation.pipe.ts:8-20 | a parsed value passes unchanged; schema issues become 400 "Validation failed: " plus the messages joined by ", "; any other error becomes 400 "Invalid input" |
| ValidationPipe.SingleIssueMessage | libs/validation/src/zod-validation.pipe.ts:13-16 | a single issue yields "Validation failed: " followed by its message |
| OrderDto.ParseStatus | apps/order-service/src/dto/order.dto.ts:3-9 | a status parsed from a string has that string as its name |
| OrderDto.StatusNamesAreExact | apps/order-service/src/dto/order.dto.ts:3-28 | every status round-trips through its name, and the five statuses are all the values |
| OrderDto.Issues | apps/order-service/src/dto/order.dto.ts:12-16 | a field rule reports no issue iff the value satisfies it |
| OrderDto.RequiredIssues | apps/order-service/src/dto/order.dto.ts:11-17 | a required field reports no issue iff it is present and satisfies its rule |
| OrderDto.OptionalIssues | apps/order-service/src/dto/order.dto.ts:19-38 | an optional field reports no issue iff it is absent or satisfies its rule |
| OrderDto.ParseCreate | apps/order-service/src/dto/order.dto.ts:11-17 | the create body parses iff every field satisfies its rule; the fields come from the body; otherwise at least one message is reported |
| OrderDto.ParseUpdate | apps/order-service/src/dto/order.dto.ts:19-38 | the update body parses iff every present field satisfies its rule; each present field's value comes from the body and absent fields stay unset; otherwise at least one message is reported |
| OrderDto.EmptyPatchIsValid | apps/order-service/src/dto/order.dto.ts:19-38 | an empty update body is valid and sets nothing |
| OrderDto.InvalidCreateIsRejected | apps/order-service/src/dto/order.dto.ts:11-17 | a body with a negative price, zero quantity and empty ids reports the five custom messages in field order, and the pipe turns them into one 400 |
| OrderSchema.StatusCode | apps/order-service/src/schemas/order.schema.ts:4-10 | stored status codes are below 5 |
| OrderSchema.StatusOfCode | apps/order-service/src/schemas/order.schema.ts:4-10 | a code decodes to the status whose code it is |
| OrderSchema.StatusCodesAreExact | apps/order-service/src/schemas/order.schema.ts:4-10 | exactly the codes 0 to 4 decode, and every status round-trips through its code |
| OrderSchema.NewOrder | apps/order-service/src/schemas/order.schema.ts:14-36 | a new order has status CREATED (code 0), no invoice, and the validated fields |
| OrderService.ApplyPatch | apps/order-service/src/order.service.ts:37-39 | each field present in the patch replaces the stored one; the id and invoice id are kept |
| OrderService.CreateStep | apps/order-service/src/order.service.ts:18-27 | stores the new order built from the validated fields (status CREATED, no invoice) under its id and emits one ORDER_CREATED with the order id and the two parties |
| OrderService.PatchStep | apps/order-service/src/order.service.ts:37-39 | a patch never emits; it yields none and changes nothing for an unknown id |
| OrderService.StatusStep | apps/order-service/src/order.service.ts:41-81 | writes the status; emits exactly one INVOICE_SEND with the stored invoice id iff the order exists, the new status is SHIPPED and the invoice id is set |
| OrderService.UploadedStep | apps/order-service/src/order.service.ts:58-81 | an unknown order fails with "Order with ID … not found" and changes nothing; otherwise records the invoice id and emits one INVOICE_SEND iff the order was already SHIPPED |
| OrderService.StepsKeepRecordsKeyed | apps/order-service/src/order.service.ts:18-73 | every operation keeps each record stored under its own id |
| OrderService.Convergence | apps/order-service/src/order.service.ts:41-73 | for an unshipped order without an invoice, SHIPPED then upload and upload then SHIPPED reach the same state, emitting exactly one INVOICE_SEND for the order |
| OrderService.EmptyInvoiceIdDiverges | apps/order-service/src/order.service.ts:47-72 | with an empty invoice id the two orders differ: only ship-then-upload emits |
| OrderService.RepeatedUploadSendsAgain | apps/order-service/src/order.service.ts:58-73 | no dedup: a second upload notification for a shipped order emits INVOICE_SEND again |
| OrderService.RepeatedShipSendsAgain | apps/order-service/src/order.service.ts:41-56 | no dedup: a second SHIPPED update of an invoiced order emits INVOICE_SEND again |
| OrderService.ShippedOrderUploadThenShipSendsTwice | apps/order-service/src/order.service.ts:41-73 | an upload to a shipped order followed by another SHIPPED update emits two INVOICE_SEND events |
| OrderService.OrderService.constructor | apps/order-service/src/order.service.ts:13-16 | the service starts with no orders and no events, every record under its own id (the invariant every method keeps) |
| OrderService.OrderService.CreateOrder | apps/order-service/src/order.service.ts:18-27 | the new state and result are `CreateStep`'s |
| OrderService.OrderService.FindAllOrders | apps/order-service/src/order.service.ts:29-31 | returns exactly the stored orders |
| OrderService.OrderService.FindOrderById | apps/order-service/src/order.service.ts:33-35 | returns the order stored under the id, or none iff there is none; under the invariant, the order found carries the requested id |
| OrderService.OrderService.UpdateOrder | apps/order-service/src/order.service.ts:37-39 | the new state and result are `PatchStep`'s; no event |
| OrderService.OrderService.UpdateOrderStatus | apps/order-service/src/order.service.ts:41-56 | the new state and result are `StatusStep`'s |
| OrderService.OrderService.HandleInvoiceUploaded | apps/order-service/src/order.service.ts:58-73 | the new state and result are `UploadedStep`'s; on failure nothing changes |
| OrderController.Route | apps/order-service/src/order-service.controller.ts:68-75 | a request with a status goes to the status update, otherwise to the field patch |
| OrderController.StatusRequestDropsOtherFields | apps/order-service/src/order-service.controller.ts:68-72 | a request that carries a status changes only the status; its other fields are ignored |
| OrderController.PatchRequestNeverEmits | apps/order-service/src/order-service.controller.ts:73-75 | a request without a status never emits and keeps the status |
| OrderController.OrderServiceController.constructor | apps/order-service/src/order-service.controller.ts:27 | the controller wraps the given service |
| OrderController.OrderServiceController.GetOrderById | apps/order-service/src/order-service.controller.ts:38-42 | `{ data }` holds the stored order, which carries the requested id, or null iff there is none |
| OrderController.OrderServiceController.GetAllOrders | apps/order-service/src/order-service.controller.ts:44-48 | `{ data }` holds all stored orders |
| OrderController.OrderServiceController.CreateOrder | apps/order-service/src/order-service.controller.ts:50-59 | an invalid body is the pipe's 400 and changes nothing; a valid one creates the order as `CreateStep` does |
| OrderController.OrderServiceController.UpdateOrder | apps/order-service/src/order-service.controller.ts:61-78 | an invalid body is the pipe's 400 "Validation failed: …" and changes nothing; a valid one is dispatched on its status field |
| OrderController.OrderServiceController.HandleInvoiceUploaded | apps/order-service/src/order-service.controller.ts:80-83 | forwards the payload's invoice id and order id to the service |
| InvoiceDto.ParseUpload | apps/invoice-service/src/dto/invoice.dto.ts:3-6 | the body parses iff both ids are non-empty strings, and the ids come from the body |
| InvoiceDto.EmptyIdsAreReported | apps/invoice-service/src/dto/invoice.dto.ts:3-6 | empty ids report "Order ID is required" and "Seller ID is required" |
| InvoiceService.StoragePath | apps/invoice-service/src/invoice.service.ts:81-84 | the file path starts with `/app/uploads/invoices/<seller>/<order>/` and names a file below it |
| InvoiceService.StoragePathIsScoped | apps/invoice-service/src/invoice.service.ts:73-87 | for slash-free ids, the path's components are exactly `app`, `uploads`, `invoices`, seller, order and `<stamp>-<name>` |
| InvoiceService.SaveFileToStorage | apps/invoice-service/src/invoice.service.ts:73-87 | no file is "No file provided"; a write succeeds iff the file is there and the write goes through, returning the scoped path |
| InvoiceService.UploadStep | apps/invoice-service/src/invoice.service.ts:17-95 | succeeds iff the file is saved and the store creates the record, which needs non-empty order and seller ids; then stores the invoice and emits one INVOICE_UPLOADED; every failure is "Invoice upload failed" with nothing changed |
| InvoiceService.NotFoundMessagesDiffer | apps/invoice-service/src/invoice.service.ts:44-71 | the by-id and by-order not-found messages never coincide |
| InvoiceService.SendStep | apps/invoice-service/src/invoice.service.ts:44-104 | an unknown invoice fails and changes nothing; otherwise sets `sentAt`, whatever it held, and emits one INVOICE_SENT |
| InvoiceService.RedeliveredSendOverwritesAndRepeats | apps/invoice-service/src/invoice.service.ts:44-55 | a second INVOICE_SEND overwrites `sentAt` with the later time and announces INVOICE_SENT twice |
| InvoiceService.ForOrderInsert | apps/invoice-service/src/invoice.service.ts:65-71 | storing an invoice under a fresh id adds it to its order's invoices only |
| InvoiceService.StoredInvoicesMeetSchema | apps/invoice-service/src/schemas/invoice.schema.ts:6-18 | a record is created only with non-empty order id, seller id and file path, with its upload time set and `sentAt` unset; uploads and sends keep every stored record's required fields |
| InvoiceService.UploadThenFindByOrder | apps/invoice-service/src/invoice.service.ts:17-71 | after the first successful upload for an order (non-empty ids), the lookup by order finds exactly that invoice with its path |
| InvoiceService.InvoiceService.constructor | apps/invoice-service/src/invoice.service.ts:12-15 | the service starts with no invoices and no events |
| InvoiceService.InvoiceService.UploadInvoice | apps/invoice-service/src/invoice.service.ts:17-42 | the new state and result are `UploadStep`'s |
| InvoiceService.InvoiceService.SendInvoice | apps/invoice-service/src/invoice.service.ts:44-55 | the new state and result are `SendStep`'s |
| InvoiceService.InvoiceService.FindInvoiceById | apps/invoice-service/src/invoice.service.ts:57-63 | the stored invoice iff present, else "Invoice with ID … not found" |
| InvoiceService.InvoiceService.FindInvoiceByOrderId | apps/invoice-service/src/invoice.service.ts:65-71 | some invoice of the order iff it has one, else "Invoice for order … not found" |
| InvoiceController.OccursAt | apps/invoice-service/src/invoice-service.controller.ts:40-42 | a match at any position is found by the type check |
| InvoiceController.OccursSomewhere | apps/invoice-service/src/invoice-service.controller.ts:40-42 | a found match sits at some position |
| InvoiceController.OccursIffAtSomePosition | apps/invoice-service/src/invoice-service.controller.ts:40-42 | the type check's substring search holds iff the text occurs at some position |
| InvoiceController.FilePipe | apps/invoice-service/src/invoice-service.controller.ts:38-50 | a file passes iff present, of type pdf and below 10 MiB; a missing file or an oversized PDF gets its own 400 message |
| InvoiceController.PdfIsAccepted | apps/invoice-service/src/invoice-service.controller.ts:40-46 | an `application/pdf` file passes iff it is below the limit |
| InvoiceController.PngIsRefused | apps/invoice-service/src/invoice-service.controller.ts:40-42 | an `image/png` file is refused by the type check |
| InvoiceController.RequireFile | apps/invoice-service/src/invoice-service.controller.ts:55-57 | fails with "Invoice file is required" iff there is no file |
| InvoiceController.HandlerFileCheckIsRedundant | apps/invoice-service/src/invoice-service.controller.ts:38-57 | after the file checks pass, the handler's own file check always passes |
| InvoiceController.UploadResponse | apps/invoice-service/src/invoice-service.controller.ts:59-71 | success is `{ data: invoice }`; failure is 400 "Failed to upload invoice: " plus the service's message |
| InvoiceController.UploadFailureMessage | apps/invoice-service/src/invoice-service.controller.ts:67-71 | every service failure reads "Failed to upload invoice: Invoice upload failed" |
| InvoiceController.UploadBodyIsNotValidated | apps/invoice-service/src/invoice-service.controller.ts:53 | a body the upload schema refuses (empty ids) still reaches the file write, which succeeds, and the store's create, which refuses it: the upload fails with nothing stored |
| InvoiceController.InvoiceServiceController.constructor | apps/invoice-service/src/invoice-service.controller.ts:24 | the controller wraps the given service |
| InvoiceController.InvoiceServiceController.UploadInvoice | apps/invoice-service/src/invoice-service.controller.ts:35-72 | a file-check failure is its 400 and changes nothing; otherwise the service's upload runs and its result is mapped by `UploadResponse` |
| InvoiceController.InvoiceServiceController.FindInvoiceById | apps/invoice-service/src/invoice-service.controller.ts:74-77 | the stored invoice iff present, else the service's not-found error, unwrapped |
| InvoiceController.InvoiceServiceController.FindInvoiceByOrderId | apps/invoice-service/src/invoice-service.controller.ts:79-82 | an invoice of the order iff it has one, else the not-found error, unwrapped |
| InvoiceController.InvoiceServiceController.HandleInvoiceSend | apps/invoice-service/src/invoice-service.controller.ts:84-87 | forwards the payload's ids to the service's send |
| Choreography.ShipUploadSend | apps/order-service/src/order.service.ts:41-73 | across both services, ship then upload gives one INVOICE_SEND for the uploaded invoice; the invoice is stamped and one INVOICE_SENT is announced |

## Left out

- Persistence is a map keyed by id.
  - Mongo's `_id` generation, query mechanics and listing order are not modelled.
  - `FindAllOrders` returns a set.
  - `FindInvoiceByOrderId` returns some invoice of the order, not a specific one.
  - `createOrder` reads the order id from the store's `_id`. The model uses the key the order is stored under.
- Store coercion and schema strictness are not modelled, apart from the invoice store's required-field check (`InvoiceSchema.HasRequiredFields`).
  - The order schema stores `status` as a numeric enum (`OrderSchema.StatusCode`), while requests carry status names.
  - The order schema declares no `invoiceId` field.
  - The order schema requires an `id` field that no request sets; the model uses the key the order is stored under.
  - The invoice schema declares `sentAt` without a property decorator.
  - The model assumes the store keeps every field the services write, as the service tests do.
- InvoiceController.UploadBodyIsNotValidated: the store's refusal is modelled only as the check that the required strings are non-empty. The orphaned file the failed upload leaves behind is not part of the state.
- Transport.KafkaService.SubscribeToTopic: whether the consumer's connect succeeded is not consulted, and shutting the client down does not stop the run loop in the model. A failed connect already fails the start-up.
- `OrderService.Convergence` requires a non-empty invoice id. The update handler tests the id's truthiness; the upload handler does not. `EmptyInvoiceIdDiverges` shows what happens otherwise. Store-generated ids are never empty.
- Asynchrony and concurrency are not modelled.
  - Each service operation is one atomic step.
  - Two deliveries racing inside one service are not modelled.
  - Emitting through the client proxy is an append to the service's event sequence.
- The wire format is not modelled.
  - `JSON.stringify`/`JSON.parse` are modelled as an opaque serialised value (`Transport.Wire`).
  - Handler failure is a boolean answer.
- The message envelope `KafkaMessage` and its metadata are data only; nothing in the core computes over them.
- The legacy `OrderInvoiceEvent` interface (lines 1-5 of the interface file) is unused and not modelled.
- The broker's retry settings, session timeout and heartbeat interval are configuration values with no modelled effect.
- `Transport.KafkaService.SubscribeToTopic` is one run over the topic's current log, from its first record. It does not follow records published later.
- Library-generated validation messages are approximated. These are "Required", the type mismatch and the integer check. The custom messages are exact.
- The framework's own file-check messages are approximated ("File is required" and the pdf type message). The size message is the configured one.
- `InvoiceController.IsPdf` is a substring test on the declared media type. Content sniffing by newer framework versions is not modelled.
- `path.join` is modelled as concatenation with `/`. Normalisation of `.` and `..` in ids is not modelled.
- `mkdir` and `writeFile` are folded into one write outcome.
- Clock readings are inputs.
  - The `sentAt` stored by `sendInvoice` and the `sentAt` it announces are two separate readings.
  - The ISO timestamp in the file name is a separate string input.
- Numbers are `real` (prices) and `int` (quantities). Floating-point rounding is not modelled.
- Logging (`console.log`/`console.error`) is left out.
- Health endpoints, the gateway and the scaffolded per-app services are not part of this model.
