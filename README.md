# E-commerce backend on AWS Lambda: a verified model

This project models the core of a serverless e-commerce backend: a set of Lambda handlers over
DynamoDB tables, an S3 bucket and a WebSocket API.

- **Invoice import lifecycle.** A client opens a WebSocket connection and obtains an upload
  token. The token's transaction record is stored under partition key `#transaction` in the
  invoices table. No code in the repository writes that record: the upload-URL function signs a
  URL and returns. The model therefore takes the record as given, in whatever status it holds;
  the importer acts only on `URL_GENERATED`, the status the transaction layer's enum names first.
  Uploading an invoice file under that token makes the
  importer move the record to `INVOICE_RECEIVED` and then to `INVOICE_PROCESSED` (the invoice is
  stored and the file deleted) or to `NON_VALID_INVOICE_NUMBER`. Each step is reported to the
  client's connection. The client can cancel a token that is still `URL_GENERATED`.
- **Invoice events.** The invoices table's stream feeds a function that writes an
  `INVOICE_CREATED` event to the events table for every inserted invoice.
- **Products.** A products table with create, read, conditional update, delete and batch read,
  plus an admin API and a fetch API over it.
- **Orders.** The orders API prices an order from the products table and stores it only when
  every requested product was found.
- **Order events.** Order events arrive through SNS and are written to the events table, which
  can be queried by e-mail and sort-key prefix.

Each module follows one source file:

- `invoice_types.dfy`: transaction statuses and records, the shared invoices table;
- `invoice_transaction.dfy`, `invoice_repository.dfy`, `invoice_ws_connection.dfy`: the three layers;
- `invoice_bucket.dfy`: the S3 bucket the importer reads;
- `invoice_import.dfy`: the importer;
- `cancel_import.dfy`: the canceller;
- `events_ddb.dfy`: the events table and the ttl arithmetic;
- `invoice_events.dfy`: the invoice-events function;
- `product_repository.dfy`, `products_admin.dfy`, `products_fetch.dfy`: the products;
- `orders.dfy`: the orders;
- `order_event_repository.dfy`, `order_events.dfy`: the order events.

Tables, the bucket and the WebSocket API are classes whose fields the handlers update. The
importer and the canceller are also given as pure functions (`InvoiceImport.Import`,
`CancelImport.Cancel`) on a `World` value, which holds the invoices table, the bucket's objects
and the messages posted so far. The handler methods are proved to produce exactly that world.
The lifecycle properties are proved as lemmas about the functions.

Some behaviour of the code worth noting, which the model reproduces:

- The importer accepts only `URL_GENERATED`. A transaction already `INVOICE_RECEIVED` is answered
  with its status and not imported again.
- The status enum has `CANCEL = 'INVOICE_CANCELLED'`, the misspelt `'TIMOUT'`, and no `NOT_FOUND`.
  The canceller uses `CANCELLED` and `NOT_FOUND`. The model has one status type with all seven
  values, and `NOT_FOUND` travels as the string `"NOT_FOUND"`.
- Nothing reacts to expiry: the stream handler's MODIFY and REMOVE branches are empty.
- Status updates overwrite the field; there is no compare-and-swap.
- The importer's length check is JavaScript's `length`, which counts UTF-16 code units: a
  character outside the Basic Multilingual Plane counts twice (`InvoiceImport.Utf16Length`).

Three defects are listed under "## Findings". The handlers that meet them use the corrected
definitions, and "## Left out" names each one: `ProductsFetch.Handler` answers by the corrected
`ProductsFetch.FetchById`, `InvoiceEvents.Handler` writes the corrected
`InvoiceEvents.CreateEvent`, and both event handlers use the unwrapped `EventsDdb.Ttl`. The
as-written behaviour is modelled beside each one.

## Model

| member | source | states |
|---|---|---|
| InvoiceTypes.Wire | lambda/invoices/layers/invoiceTransaction/nodejs/invoiceTransaction.ts:3-10 | the string a status is stored and sent as; reading it back gives that status |
| InvoiceTypes.FromWireOnlyWire | lambda/invoices/layers/invoiceTransaction/nodejs/invoiceTransaction.ts:3-10 | a stored string is read as a status only if it is exactly that status's string |
| InvoiceTypes.WireInjective | lambda/invoices/layers/invoiceTransaction/nodejs/invoiceTransaction.ts:3-10 | distinct statuses have distinct wire strings (TIMEOUT is `TIMOUT`) |
| InvoiceTypes.ReachTransitive | lambda/invoices/invoiceImportUrlFunction.ts:41-90 | reachability between statuses composes |
| InvoiceTypes.InvoicePk | lambda/invoices/invoiceImportUrlFunction.ts:62 | an invoice partition key starts with `#invoice_` |
| InvoiceTypes.InvoicePkIsNotTransactionPk | lib/invoiceWSApi-stack.ts:143 | no invoice key is a transaction key: invoices and transactions share the table without collisions |
| InvoiceTypes.FindTransaction | lambda/invoices/invoiceImportUrlFunction.ts:39 | the lookup finds a record iff the table holds a transaction under `("#transaction", token)`, and returns that record |
| InvoiceTransactionLayer.PutTransaction | lambda/invoices/layers/invoiceTransaction/nodejs/invoiceTransaction.ts:34-37 | unconditional put: the record sits under its (pk, sk), exactly that key is added, and every other entry is unchanged |
| InvoiceTransactionLayer.WithStatus | lambda/invoices/invoiceImportUrlFunction.ts:43 | only the token's status field changes; an absent token leaves the table unchanged; no key is added or removed |
| InvoiceTransactionLayer.WithStatusOthers | lambda/invoices/cancelImportUrlFunction.ts:32 | updating one token's status leaves every other token's transaction as it was |
| InvoiceTransactionLayer.InvoiceTransactionRepository.CreateInvoiceTransaction | lambda/invoices/layers/invoiceTransaction/nodejs/invoiceTransaction.ts:33-40 | returns its argument unchanged; the table becomes PutTransaction of the old table |
| InvoiceTransactionLayer.InvoiceTransactionRepository.GetInvoiceTransaction | lambda/invoices/cancelImportUrlFunction.ts:28 | returns the stored transaction, or TransactionNotFound iff there is none |
| InvoiceTransactionLayer.InvoiceTransactionRepository.UpdateInvoiceTransaction | lambda/invoices/invoiceImportUrlFunction.ts:43 | reports whether the token exists; the table becomes WithStatus of the old table |
| InvoiceRepositoryLayer.PutInvoice | lambda/invoices/layers/invoiceRepository/nodejs/invoiceRepository.ts:32-35 | unconditional put: the invoice sits under its (pk, sk), overwriting any older one, and every other entry is unchanged |
| InvoiceRepositoryLayer.PutInvoiceKeepsTransactions | lambda/invoices/invoiceImportUrlFunction.ts:61-70 | storing an invoice leaves every transaction record as it was |
| InvoiceRepositoryLayer.InvoiceRepository.Create | lambda/invoices/layers/invoiceRepository/nodejs/invoiceRepository.ts:31-38 | returns its argument unchanged; the table becomes PutInvoice of the old table |
| InvoiceWSConnection.Deliver | lambda/invoices/layers/invoiceWSConnection/nodejs/invoiceWSConnection.ts:10-27 | one message is posted to an open connection; nothing is posted to a closed one |
| InvoiceWSConnection.InvoiceWSService.SendData | lambda/invoices/layers/invoiceWSConnection/nodejs/invoiceWSConnection.ts:10-27 | never fails; true iff the connection exists, and then exactly that message is appended; the set of connections is unchanged |
| InvoiceWSConnection.InvoiceWSService.SendInvoiceStatus | lambda/invoices/invoiceImportUrlFunction.ts:42 | sends `{transactionId, status}` through SendData, with the same result and effect |
| InvoiceBucket.Bucket.GetObject | lambda/invoices/invoiceImportUrlFunction.ts:50-55 | returns the stored object, or NoSuchKey iff the key is absent; the bucket is unchanged |
| InvoiceBucket.Bucket.DeleteObject | lambda/invoices/invoiceImportUrlFunction.ts:72-75 | removes exactly that key |
| InvoiceImport.NewInvoice | lambda/invoices/invoiceImportUrlFunction.ts:61-70 | pk `#invoice_` + customer name, sk the invoice number, transactionId the object key, ttl 0, createdAt the clock, and the file's value, product and quantity |
| InvoiceImport.Utf16Length | lambda/invoices/invoiceImportUrlFunction.ts:60 | `length` in UTF-16 code units: at least the number of characters and at most twice it |
| InvoiceImport.SurrogatePairsCountTwice | lambda/invoices/invoiceImportUrlFunction.ts:60 | `"A😀😀"` has 3 characters but length 5, so it passes the check |
| InvoiceImport.Import | lambda/invoices/invoiceImportUrlFunction.ts:35-95 | one record: the object is kept or exactly the token's object is removed, no table key disappears, and at most two messages are appended to those already posted |
| InvoiceImport.ImportAll | lambda/invoices/invoiceImportUrlFunction.ts:23-33 | a whole event: objects are only removed, never changed, no table key disappears, and at most two messages per record are appended |
| InvoiceImport.AdvancesTransitive | lambda/invoices/invoiceImportUrlFunction.ts:23-33 | "every transaction only moves forward, other fields untouched" composes over successive steps |
| InvoiceImport.ImportOthers | lambda/invoices/invoiceImportUrlFunction.ts:35-95 | processing one object never changes the transaction of another token |
| InvoiceImport.ImportOwn | lambda/invoices/invoiceImportUrlFunction.ts:41-90 | from GENERATED the token ends RECEIVED, PROCESSED or NON_VALID_INVOICE_NUMBER; from any other status the table and the bucket are unchanged; no field but the status ever changes |
| InvoiceImport.ImportWithoutTransaction | lambda/invoices/invoiceImportUrlFunction.ts:39 | without a transaction for the key the lookup throws, the error is caught, and nothing changes or is sent |
| InvoiceImport.ImportNotGenerated | lambda/invoices/invoiceImportUrlFunction.ts:44-47 | any status but GENERATED: exactly one message, carrying the stored status, goes to the stored connection, and nothing else changes |
| InvoiceImport.ImportUnreadable | lambda/invoices/invoiceImportUrlFunction.ts:41-55 | GENERATED but the object is missing or unreadable: the status is RECEIVED, the object stays, no item is added, and only RECEIVED is sent |
| InvoiceImport.ImportValid | lambda/invoices/invoiceImportUrlFunction.ts:41-81 | GENERATED with an invoice number of at least 5 UTF-16 code units: the invoice is stored under its key (the only key added), the object is deleted, the status is PROCESSED, and RECEIVED then PROCESSED are sent |
| InvoiceImport.ImportInvalid | lambda/invoices/invoiceImportUrlFunction.ts:41-90 | GENERATED with a shorter invoice number, or one that has no `length`: no invoice is stored, the object stays, the status is NON_VALID_INVOICE_NUMBER, and RECEIVED then NON_VALID_INVOICE_NUMBER are sent |
| InvoiceImport.ImportAdvances | lambda/invoices/invoiceImportUrlFunction.ts:35-95 | processing one object keeps every transaction present, changes only statuses, and moves each along the lifecycle |
| InvoiceImport.ImportIdempotent | lambda/invoices/invoiceImportUrlFunction.ts:44-48 | redelivering an object leaves the table and the bucket as the first delivery left them |
| InvoiceImport.ImportNotifiesStoredConnection | lambda/invoices/invoiceImportUrlFunction.ts:42-45 | messages are only appended; without a transaction none is sent; each one goes to the stored connectionId, names the token, and carries RECEIVED, PROCESSED, NON_VALID_INVOICE_NUMBER or the stored status |
| InvoiceImport.ImportDeletesOnlyWhenProcessed | lambda/invoices/invoiceImportUrlFunction.ts:60-81 | the object disappears only if the transaction was GENERATED and the invoice number has at least 5 UTF-16 code units; the invoice is then stored and the status is PROCESSED |
| InvoiceImport.ImportAllAdvances | lambda/invoices/invoiceImportUrlFunction.ts:23-33 | a whole S3 event moves every transaction only forward along the lifecycle |
| InvoiceImport.ProcessRecord | lambda/invoices/invoiceImportUrlFunction.ts:35-95 | the table, bucket and posted messages after one record are exactly Import of those before it; failures are caught |
| InvoiceImport.Handler | lambda/invoices/invoiceImportUrlFunction.ts:23-33 | each record processed in turn, with the result ImportAll of the old world; never fails; every transaction only advances |
| CancelImport.Cancel | lambda/invoices/cancelImportUrlFunction.ts:27-41 | the bucket and the table's keys are unchanged; exactly one message about the token is appended, to the requesting connection, when it is open |
| CancelImport.CancelAnswers | lambda/invoices/cancelImportUrlFunction.ts:27-41 | the requester gets exactly one answer: CANCELLED if GENERATED, NOT_FOUND if absent, otherwise the current status; only the GENERATED case changes the table; the bucket is untouched |
| CancelImport.CancelAdvances | lambda/invoices/cancelImportUrlFunction.ts:28-32 | cancel touches no token but its own and moves transactions only forward |
| CancelImport.CancelIdempotent | lambda/invoices/cancelImportUrlFunction.ts:30-36 | a second cancel leaves the table unchanged |
| CancelImport.CancelThenImport | lambda/invoices/cancelImportUrlFunction.ts:30-32 | an upload after a successful cancel stores nothing, deletes nothing and leaves the status CANCELLED |
| CancelImport.ImportThenCancel | lambda/invoices/cancelImportUrlFunction.ts:33-36 | a cancel after the importer has taken the upload changes nothing in the table |
| CancelImport.Handler | lambda/invoices/cancelImportUrlFunction.ts:20-46 | always answers 200 `OK`; the table and the posted messages are exactly what Cancel gives, with replies sent to the requesting connection |
| Ddb.DecimalTextInjective | lambda/orders/orderEventsFunction.ts:38 | `${timestamp}` is injective: different timestamps give different texts |
| Ddb.LabelledKeyInjective | lambda/orders/orderEventsFunction.ts:38 | a sort key `type#timestamp` determines both its type and its timestamp, since the digits hold no `#` |
| Ddb.StringAttr | lambda/invoices/invoiceEventsFunction.ts:55 | `.S` of an attribute is defined iff the attribute exists and is a string, and is then its value |
| Ddb.NumberAttr | lambda/invoices/invoiceEventsFunction.ts:56 | `.N` of an attribute is defined iff the attribute exists and is a number, and is then its text |
| EventsDdb.PutAll | lambda/invoices/invoiceEventsFunction.ts:45-59 | after a run of puts every event's key and every old key are present |
| EventsDdb.PutAllKeys | lambda/invoices/invoiceEventsFunction.ts:45-59 | a run of unconditional puts adds exactly the events' keys, leaves every other entry as it was, and leaves one of the events under each key it wrote |
| EventsDdb.ToInt32 | lambda/invoices/invoiceEventsFunction.ts:43 | `~~` wraps a value into [-2^31, 2^31) and agrees with it modulo 2^32 |
| EventsDdb.Ttl | lambda/orders/orderEventsFunction.ts:34 | the intended ttl is the lifetime added to the second the event was created in; it lies less than one second short of creation time plus the lifetime |
| EventsDdb.TruncatedTtl | lambda/invoices/invoiceEventsFunction.ts:43 | the ttl as written is a signed 32-bit value that agrees with the intended ttl modulo 2^32 |
| EventsDdb.TruncatedTtlAgreesBefore2038 | lambda/invoices/invoiceEventsFunction.ts:43 | the ttl as written equals the intended one while it fits in 31 bits |
| EventsDdb.TruncatedTtlWraps | lambda/invoices/invoiceEventsFunction.ts:43 | whenever the intended ttl lies in [2^31, 2^32) seconds, the ttl as written is the intended one minus 2^32, hence negative |
| EventsDdb.TruncatedTtlIn2038 | lambda/invoices/invoiceEventsFunction.ts:43 | an event created at 2^31 seconds gets ttl -2147480048 instead of 2147487248 |
| InvoiceEvents.Split | lambda/invoices/invoiceEventsFunction.ts:51 | `split` always yields at least one field, more than one iff the separator occurs, and no field contains the separator |
| InvoiceEvents.EmailField | lambda/invoices/invoiceEventsFunction.ts:51 | `split("_")[1]` is defined iff the key contains `_`, and contains no `_` itself |
| InvoiceEvents.SplitNoSeparator | lambda/invoices/invoiceEventsFunction.ts:51 | a string without the separator splits into itself |
| InvoiceEvents.SplitAtFirst | lambda/invoices/invoiceEventsFunction.ts:51 | splitting at the first separator gives the part before it, then the split of the rest |
| InvoiceEvents.EmailOfInvoicePk | lambda/invoices/invoiceEventsFunction.ts:51 | the e-mail of an invoice event is the customer name up to its first `_` |
| InvoiceEvents.InvoiceImage | lambda/invoices/invoiceEventsFunction.ts:48-51 | the stream image of a stored invoice carries string pk and sk |
| InvoiceEvents.TransactionImage | lambda/invoices/invoiceEventsFunction.ts:23 | the stream image of a stored transaction carries string pk and sk |
| InvoiceEvents.CreateEventAsWritten | lambda/invoices/invoiceEventsFunction.ts:41-62 | the event as the code builds it; fails iff the image lacks transactionId or productId |
| InvoiceEvents.CreateEvent | lambda/invoices/invoiceEventsFunction.ts:41-62 | the corrected event; fails iff the image lacks transactionId or productId |
| InvoiceEvents.RecordEvent | lambda/invoices/invoiceEventsFunction.ts:21-33 | a record leads to a write iff it is an INSERT whose pk does not start with `#transaction`, and that write is CreateEvent of the new image |
| InvoiceEvents.TransactionInsertWritesNothing | lambda/invoices/invoiceEventsFunction.ts:22-24 | the insert of a transaction record writes no event |
| InvoiceEvents.ImportedInvoiceEvent | lambda/invoices/invoiceEventsFunction.ts:25-28 | the insert of an invoice writes one INVOICE_CREATED event: pk `#invoice_` + invoice number, sk type#timestamp, ttl one hour on, e-mail from the pk, transactionId and productId copied |
| InvoiceEvents.ProductIdLostAsWritten | lambda/invoices/invoiceEventsFunction.ts:56 | as written, the event's productId is always missing; corrected, it is the invoice's product |
| InvoiceEvents.Written | lambda/invoices/invoiceEventsFunction.ts:18-39 | at most one event per record, all of type INVOICE_CREATED |
| InvoiceEvents.InvoiceInserts | lambda/invoices/invoiceEventsFunction.ts:22-33 | counts at most one per record |
| InvoiceEvents.AnyFailedIff | lambda/invoices/invoiceEventsFunction.ts:36 | a batch fails exactly when the write for one of its records throws |
| InvoiceEvents.WrittenCount | lambda/invoices/invoiceEventsFunction.ts:21-34 | without failures, exactly one event per inserted non-transaction item; MODIFY and REMOVE write nothing |
| InvoiceEvents.Handler | lambda/invoices/invoiceEventsFunction.ts:18-39 | succeeds iff no event fails to build; the events table receives exactly the puts of Written |
| OrderEventRepository.Query | lambda/orders/layers/orderEventsRepositoryLayer/nodejs/orderEventRepository.ts:47-58 | exactly the stored events with that e-mail whose sort key starts with the prefix |
| OrderEventRepository.QueryNarrows | lambda/orders/layers/orderEventsRepositoryLayer/nodejs/orderEventRepository.ts:38-41 | a longer prefix selects a subset |
| OrderEventRepository.QueryAfterPut | lambda/orders/layers/orderEventsRepositoryLayer/nodejs/orderEventRepository.ts:27-32 | after a put, the new event is found iff it matches, and matching events under other keys stay found |
| OrderEventRepository.OrderEventRepository.CreateOrderEvent | lambda/orders/layers/orderEventsRepositoryLayer/nodejs/orderEventRepository.ts:27-32 | stores the event under its (pk, sk); nothing else changes |
| OrderEventRepository.OrderEventRepository.GetOrderEventsByEmail | lambda/orders/layers/orderEventsRepositoryLayer/nodejs/orderEventRepository.ts:34-45 | exactly the events with that e-mail whose sk starts with `ORDER_`; the table is unchanged |
| OrderEventRepository.OrderEventRepository.GetOrderEventsByEmailAndEventType | lambda/orders/layers/orderEventsRepositoryLayer/nodejs/orderEventRepository.ts:47-58 | exactly the events with that e-mail whose sk starts with the event type, so `ORDER_` gives GetOrderEventsByEmail's answer; an `ORDER_…` type selects a subset of it |
| OrderEvents.CreatEvent | lambda/orders/orderEventsFunction.ts:27-52 | pk `#order_` + orderId, sk type#timestamp, ttl five minutes on, createdAt the timestamp, fields and info copied from the message |
| OrderEvents.DistinctOrdersDistinctKeys | lambda/orders/orderEventsFunction.ts:37-38 | events of different orders never overwrite each other |
| OrderEvents.SameOrderKeysCollideIff | lambda/orders/orderEventsFunction.ts:37-38 | two events of one order share a key iff they have the same type and the same millisecond timestamp |
| OrderEvents.OrderEventIsQueried | lambda/orders/orderEventsFunction.ts:36-51 | a stored `ORDER_…` event is returned by the query on its e-mail |
| OrderEvents.Events | lambda/orders/orderEventsFunction.ts:18-20 | exactly one event per SNS record, in order |
| OrderEvents.Handler | lambda/orders/orderEventsFunction.ts:15-25 | the events table receives exactly the puts of Events |
| ProductRepository.FoundInOrder | lambda/products/layers/productsLayer/nodejs/productRepository.ts:101-116 | a batch read returns no more products than were requested |
| ProductRepository.FoundInOrderSpec | lambda/products/layers/productsLayer/nodejs/productRepository.ts:101-116 | only requested stored products, every requested stored product, none twice |
| ProductRepository.ProductRepository.GetAllProducts | lambda/products/layers/productsLayer/nodejs/productRepository.ts:22-29 | every stored product exactly once; nothing changes |
| ProductRepository.ProductRepository.GetProductById | lambda/products/layers/productsLayer/nodejs/productRepository.ts:31-44 | the stored product, or ProductNotFound iff the id is absent |
| ProductRepository.ProductRepository.CreateProduct | lambda/products/layers/productsLayer/nodejs/productRepository.ts:46-60 | the caller's id is replaced by the fresh one; the product is stored under it and returned |
| ProductRepository.ProductRepository.DeleteProduct | lambda/products/layers/productsLayer/nodejs/productRepository.ts:62-76 | removes and returns the stored product; if absent, fails and changes nothing |
| ProductRepository.ProductRepository.UpdateProduct | lambda/products/layers/productsLayer/nodejs/productRepository.ts:78-99 | if absent, the `attribute_exists(id)` condition fails and nothing changes; otherwise the five fields are overwritten and returned with the id |
| ProductRepository.ProductRepository.GetProductsByIds | lambda/products/layers/productsLayer/nodejs/productRepository.ts:101-116 | exactly the requested stored products, absent ids skipped, each once |
| ProductsAdmin.RouteOf | lambda/products/productsAdminFunction.ts:27-40 | `/products` creates whatever the method; `/products/{id}` updates on PUT and deletes on DELETE |
| ProductsAdmin.StatusOf | lambda/products/productsAdminFunction.ts:27-80 | 400 iff the route is bad; 404 iff an update or delete found no product |
| ProductsAdmin.BadRequestIff | lambda/products/productsAdminFunction.ts:27-80 | the answer is 400 iff the resource is neither `/products` nor `/products/{id}` with PUT or DELETE |
| ProductsAdmin.Handler | lambda/products/productsAdminFunction.ts:19-81 | 201 with the stored product; 200 or 404 for update and delete, with the table changed only on 200; 400 otherwise with nothing changed |
| ProductsFetch.FetchById | lambda/products/productsFetchFunction.ts:35-54 | the corrected read: 200 with the product iff it is stored, else 404 `Product not found` |
| ProductsFetch.FetchByIdAsWritten | lambda/products/productsFetchFunction.ts:42 | as written, the read always answers 404 |
| ProductsFetch.StoredProductUnreachableAsWritten | lambda/products/productsFetchFunction.ts:42 | a stored product gets 200 from the corrected read and 404 as written |
| ProductsFetch.Handler | lambda/products/productsFetchFunction.ts:13-63 | GET `/products` gives 200 with every product; `/products/{id}` with any method gives FetchById; everything else 400; the table is never modified |
| Orders.OrderLines | lambda/orders/ordersFunction.ts:111-116 | one line per product, same order, code and price copied |
| Orders.TotalPrice | lambda/orders/ordersFunction.ts:109-112 | the sum of the products' prices; never negative when no price is |
| Orders.BilledTotalIsSumOfLines | lambda/orders/ordersFunction.ts:107-123 | the billed total equals the sum of the order lines' prices |
| Orders.AllFoundIff | lambda/orders/ordersFunction.ts:52 | the batch read returns as many products as requested iff every id is stored and none repeats |
| Orders.BuildOrder | lambda/orders/ordersFunction.ts:107-133 | pk the e-mail, no id or time yet, shipping and payment copied, total the sum of prices (0 when empty), lines from the products |
| Orders.ConvertToOrderResponse | lambda/orders/ordersFunction.ts:79-105 | e-mail from pk, id from sk, creation time, billing, shipping and the lines in order |
| Orders.OrderRepository.CreateOrder | lambda/orders/ordersFunction.ts:54 | stamps the fresh id and the creation time and stores the order under (e-mail, id) |
| Orders.Handler | lambda/orders/ordersFunction.ts:24-77 | POST stores a priced order and answers 201 iff all requested products were found, else 404 with nothing stored; GET and DELETE answer 400; a missing body or query string throws |

## Left out

- AWS SDK clients, X-Ray, environment variables, logging and JSON parsing. Requests arrive
  already parsed. The uploaded object is a parsed invoice file whose invoiceNumber is a string
  (`Document`), one whose invoiceNumber has no `length` at all, i.e. a number, a boolean or an
  object without that property (`InvoiceNumberWithoutLength`: `undefined >= 5` is false, so it
  takes the NON_VALID_INVOICE_NUMBER branch), or a body whose parse or length read throws
  (`Unreadable`: a body that is not JSON, or a null or missing invoiceNumber).
- InvoiceImport.Import: an invoiceNumber that is an array, or an object with a numeric `length`
  property, is not modelled. With a length of 5 or more it takes the valid branch: the object is
  deleted and PROCESSED is sent even though the invoice put then fails on the non-string sort key.
- Concurrency. `Promise.all` runs a record's writes and messages concurrently and runs the
  records of one event concurrently. The model applies them in source order, one after the
  other, which is one of the possible interleavings; the other interleavings are not modelled,
  and the lifecycle lemmas (`ImportAdvances`, `ImportAllAdvances`) hold of this order only. In
  other interleavings posted messages can come in another order; when two uploads name the same
  customer and invoice number, either upload's transactionId can end up on the shared invoice
  item; and when one event carries two records for the same object key, both can read
  `URL_GENERATED`, RECEIVED is sent twice, and one record's RECEIVED update can land after the
  other's PROCESSED update, so the status moves backward to RECEIVED with the object already
  deleted.
- Clocks and uuids. `Date.now()` readings are parameters (`now`, `clock`). Fresh ids are
  parameters with a freshness precondition.
- DynamoDB and S3 failures other than a missing item or key. This covers throttling, a failed
  put, and batch-read limits: more than 100 keys, an empty key list, or duplicate keys, which
  the service rejects. For `Orders.Handler` this means an order with no product ids is answered
  201 with an empty order in the model, while the source's `batchGet` throws; and repeated ids
  are answered 404 in the model (through `AllFoundIff`), while the source's `batchGet` throws.
- Pagination. `scan`, `query` and `batchGet` return one page at a time, and `batchGet` can also
  return `UnprocessedKeys`. Every read is modelled as complete, so the contracts of
  `GetAllProducts` ("every stored product"), `GetOrderEventsByEmail` and
  `GetOrderEventsByEmailAndEventType` ("exactly the events") and `Orders.Handler` (201 whenever
  every requested product is stored) hold only when the answer fits in one page and no key is
  left unprocessed; otherwise the source returns fewer items, and the orders handler answers 404.
- InvoiceWSConnection.InvoiceWSService.SendData: only a closed connection makes it return
  false. A post that fails on an open connection is not modelled.
- `getInvoiceTransaction`, `updateInvoiceTransaction` and `sendInvoiceStatus` are not defined
  in the repository's layer files. Their contracts are inferred from how the handlers use them:
  - get returns the record or fails;
  - update overwrites the status;
  - send goes through `sendData`.
- Orders.OrderRepository.CreateOrder: `orderRespository.ts` declares only the types, so
  `createOrder` is not part of this model's source. Its contract is inferred: a fresh sort key,
  the creation time, and a put.
- ProductRepository.ProductRepository.GetProductsByIds: the batch read returns products in
  request order. The service promises no order. No contract here depends on the order except
  the exact sequence the orders handler's response lists.
- Prices, values and quantities are JavaScript numbers. They are modelled as integers, so
  floating-point rounding in the total price is not modelled.
- The GET branches of the orders handler read the query string but compute nothing. They are
  modelled as the 400 they fall through to.
- `invoiceGetUrlFunction.ts` and the infrastructure stacks under `lib/` are not part of this
  model. The only facts taken from the stacks are the shared invoices table, its (pk, sk) key
  and the `#transaction` partition.
- The `emailIndex` global secondary index is queried but defined in no stack. The queries are
  modelled as filters over the whole events table.
- ProductsFetch.Handler: answers `/products/{id}` by the corrected `FetchById`. As written, every
  such request is answered 404 (`FetchByIdAsWritten`, first finding).
- InvoiceEvents.Handler: writes the corrected `CreateEvent`, whose productId is the invoice's. As
  written, productId is always missing (`CreateEventAsWritten`, second finding). Its ttl is the
  unwrapped `Ttl`.
- OrderEvents.CreatEvent: the ttl is the unwrapped `Ttl`. As written, it goes through `~~` and
  wraps from 2^31 seconds on (`TruncatedTtl`, third finding).
- Expiry by ttl: DynamoDB's background deletion, and the TIMEOUT status it would lead to, are
  not modelled because no code implements them.

## Findings

| source | as written | input that shows it | evidently intended | confidence | as-written member | corrected member |
|---|---|---|---|---|---|---|
| lambda/products/productsFetchFunction.ts:42 | calls `productRepository.getProductbyId`, which does not exist (the repository defines `getProductById`); the TypeError is caught and answered 404 | GET `/products/{id}` for any stored id | 200 with the stored product | not executed | ProductsFetch.FetchByIdAsWritten | ProductsFetch.FetchById |
| lambda/invoices/invoiceEventsFunction.ts:56 | reads `productId.N`, but invoices store productId as a string, so the event's productId is always undefined | the stream insert of any imported invoice | the event carries the invoice's productId (`.S`) | not executed | InvoiceEvents.ProductIdLostAsWritten | InvoiceEvents.ImportedInvoiceEvent |
| lambda/invoices/invoiceEventsFunction.ts:43 | `~~(timestamp / 1000 + 3600)` truncates to a signed 32-bit integer; the same happens in lambda/orders/orderEventsFunction.ts:34 | timestamp 2147483648000 (January 2038) gives ttl -2147480048 | ttl = seconds since the epoch plus the lifetime | not executed | EventsDdb.TruncatedTtlWraps | EventsDdb.Ttl |
