/**
 * The invoice events handler: reads the change stream of the invoices table and writes one
 * INVOICE_CREATED event per inserted invoice. Inserted transactions, modifications and
 * removals write nothing.
 */
module InvoiceEvents {

  import opened Wrappers
  import opened Ddb
  import opened InvoiceTypes
  import opened EventsDdb

  /** One stream record; an insert carries the new image. */
  datatype StreamRecord = Insert(newImage: Image) | Modify | Remove

  datatype EventError = MissingAttribute(name: string)

  const InvoiceCreatedType: string := "INVOICE_CREATED"

  /** Invoice events expire an hour after they are written. */
  const InvoiceEventTtlSeconds: nat := 60 * 60

  /** `s.split(sep)`: the fields between separators, empty ones included. */
  function Split(s: string, sep: char): (parts: seq<string>)
    ensures |parts| >= 1
    ensures |parts| == 1 <==> sep !in s
    ensures forall i :: 0 <= i < |parts| ==> sep !in parts[i]
    decreases |s|
  {
    if s == [] then [[]]
    else
      var rest := Split(s[1..], sep);
      assert s == [s[0]] + s[1..];
      if s[0] == sep then [[]] + rest else [[s[0]] + rest[0]] + rest[1..]
  }

  lemma {:induction false} SplitNoSeparator(s: string, sep: char)
    requires sep !in s
    ensures Split(s, sep) == [s]
    decreases |s|
  {
    if s != [] {
      SplitNoSeparator(s[1..], sep);
      assert [s[0]] + s[1..] == s;
    }
  }

  /** Text before the first separator is the first field; the rest is split on its own. */
  lemma {:induction false} SplitAtFirst(p: string, q: string, sep: char)
    requires sep !in p
    ensures Split(p + [sep] + q, sep) == [p] + Split(q, sep)
    decreases |p|
  {
    var s := p + [sep] + q;
    if p == [] {
      assert s[1..] == q;
    } else {
      assert s[1..] == p[1..] + [sep] + q;
      SplitAtFirst(p[1..], q, sep);
      assert [p[0]] + p[1..] == p;
    }
  }

  /** `pk.split("_")[1]`: undefined when the key has no underscore. */
  function EmailField(pk: string): (r: Option<string>)
    ensures r.Some? <==> '_' in pk
    ensures r.Some? ==> '_' !in r.value
  {
    var parts := Split(pk, '_');
    if |parts| >= 2 then Some(parts[1]) else None
  }

  /** For an invoice key the field is the customer name up to its first underscore. */
  lemma EmailOfInvoicePk(customerName: string)
    ensures EmailField(InvoicePk(customerName)) == Some(Split(customerName, '_')[0])
    ensures '_' !in customerName ==> EmailField(InvoicePk(customerName)) == Some(customerName)
  {
    var head := "#invoice";
    assert '_' !in head;
    assert InvoicePkPrefix == head + ['_'];
    assert InvoicePk(customerName) == InvoicePkPrefix + customerName;
    assert InvoicePk(customerName) == head + ['_'] + customerName;
    SplitAtFirst(head, customerName, '_');
    assert EmailField(InvoicePk(customerName)) == Some(Split(customerName, '_')[0]);
    if '_' !in customerName {
      SplitNoSeparator(customerName, '_');
      assert Split(customerName, '_')[0] == customerName;
    }
  }

  /** A stream image of this table carries its string key attributes. */
  predicate KeyedImage(image: Image)
  {
    && "pk" in image && image["pk"].S?
    && "sk" in image && image["sk"].S?
  }

  predicate WellKeyed(records: seq<StreamRecord>)
  {
    forall i :: 0 <= i < |records| && records[i].Insert? ==> KeyedImage(records[i].newImage)
  }

  /** The stream image of a stored invoice. */
  function InvoiceImage(invoice: Invoice): (image: Image)
    ensures KeyedImage(image)
  {
    map["pk" := S(invoice.pk), "sk" := S(invoice.sk), "totalValue" := N(IntText(invoice.totalValue)),
        "productId" := S(invoice.productId), "quantity" := N(IntText(invoice.quantity)),
        "transactionId" := S(invoice.transactionId), "ttl" := N(IntText(invoice.ttl)),
        "createdAt" := N(IntText(invoice.createdAt))]
  }

  /** The stream image of a stored transaction. */
  function TransactionImage(tx: InvoiceTransaction): (image: Image)
    ensures KeyedImage(image)
  {
    map["pk" := S(tx.pk), "sk" := S(tx.sk), "ttl" := N(IntText(tx.ttl)), "requestId" := S(tx.requestId),
        "timestamp" := N(IntText(tx.timestamp)), "expiresIn" := N(IntText(tx.expiresIn)),
        "connectionId" := S(tx.connectionId), "endpoint" := S(tx.endpoint),
        "transactionsStatus" := S(Wire(tx.transactionsStatus))]
  }

  /**
   * The event written for an inserted invoice image, as the code is written: the ttl goes
   * through `~~` and the product id is read as a number attribute.
   */
  function CreateEventAsWritten(image: Image, eventType: string, timestamp: nat): (r: Result<InvoiceEventDdb, EventError>)
    requires KeyedImage(image)
    ensures r.Err? <==> "transactionId" !in image || "productId" !in image
  {
    if "transactionId" !in image then Err(MissingAttribute("transactionId"))
    else if "productId" !in image then Err(MissingAttribute("productId"))
    else
      Ok(InvoiceEventDdb(
        InvoicePkPrefix + image["sk"].s,
        eventType + "#" + IntText(timestamp),
        TruncatedTtl(timestamp, InvoiceEventTtlSeconds),
        EmailField(image["pk"].s),
        timestamp,
        eventType,
        InvoiceEventInfo(StringAttr(image, "transactionId"), NumberAttr(image, "productId"))))
  }

  /**
   * The event written for an inserted invoice image, corrected: the ttl does not wrap and the
   * product id is read as the string attribute the invoice stores. Reading a missing
   * attribute throws, and nothing is written.
   */
  function CreateEvent(image: Image, eventType: string, timestamp: nat): (r: Result<InvoiceEventDdb, EventError>)
    requires KeyedImage(image)
    ensures r.Err? <==> "transactionId" !in image || "productId" !in image
  {
    if "transactionId" !in image then Err(MissingAttribute("transactionId"))
    else if "productId" !in image then Err(MissingAttribute("productId"))
    else
      Ok(InvoiceEventDdb(
        InvoicePkPrefix + image["sk"].s,
        eventType + "#" + IntText(timestamp),
        Ttl(timestamp, InvoiceEventTtlSeconds),
        EmailField(image["pk"].s),
        timestamp,
        eventType,
        InvoiceEventInfo(StringAttr(image, "transactionId"), StringAttr(image, "productId"))))
  }

  /** What one stream record leads to: no event, or the attempt to write one. */
  function RecordEvent(record: StreamRecord, timestamp: nat): (r: Option<Result<InvoiceEventDdb, EventError>>)
    requires record.Insert? ==> KeyedImage(record.newImage)
    ensures r.None? <==> !record.Insert? || TransactionPk <= record.newImage["pk"].s
    ensures r.Some? ==> r.value == CreateEvent(record.newImage, InvoiceCreatedType, timestamp)
  {
    match record
    case Insert(image) =>
      if TransactionPk <= image["pk"].s then None
      else Some(CreateEvent(image, InvoiceCreatedType, timestamp))
    case Modify => None
    case Remove => None
  }

  /** Inserting a transaction record writes no event. */
  lemma TransactionInsertWritesNothing(tx: InvoiceTransaction, timestamp: nat)
    requires tx.pk == TransactionPk
    ensures RecordEvent(Insert(TransactionImage(tx)), timestamp) == None
  {
  }

  /**
   * Inserting an invoice the importer created writes one INVOICE_CREATED event keyed by the
   * invoice number, expiring an hour later, copying the transaction and product ids.
   */
  lemma ImportedInvoiceEvent(invoice: Invoice, customerName: string, timestamp: nat)
    requires invoice.pk == InvoicePk(customerName)
    ensures RecordEvent(Insert(InvoiceImage(invoice)), timestamp) == Some(Ok(InvoiceEventDdb(
      "#invoice_" + invoice.sk,
      "INVOICE_CREATED#" + IntText(timestamp),
      timestamp / 1000 + 3600,
      Some(Split(customerName, '_')[0]),
      timestamp,
      "INVOICE_CREATED",
      InvoiceEventInfo(Some(invoice.transactionId), Some(invoice.productId)))))
  {
    InvoicePkIsNotTransactionPk(customerName);
    EmailOfInvoicePk(customerName);
    var image := InvoiceImage(invoice);
    assert image["pk"].s == InvoicePk(customerName) && image["sk"].s == invoice.sk;
    assert StringAttr(image, "transactionId") == Some(invoice.transactionId);
    assert StringAttr(image, "productId") == Some(invoice.productId);
    assert Ttl(timestamp, InvoiceEventTtlSeconds) == timestamp / 1000 + 3600;
    assert InvoicePkPrefix + invoice.sk == "#invoice_" + invoice.sk;
    assert InvoiceCreatedType + "#" + IntText(timestamp) == "INVOICE_CREATED#" + IntText(timestamp);
    assert !(TransactionPk <= image["pk"].s);
  }

  /** As written, the product id of every imported invoice is lost from its event. */
  lemma ProductIdLostAsWritten(invoice: Invoice, timestamp: nat)
    ensures CreateEventAsWritten(InvoiceImage(invoice), InvoiceCreatedType, timestamp).Ok?
    ensures CreateEventAsWritten(InvoiceImage(invoice), InvoiceCreatedType, timestamp).value.info.productId == None
    ensures CreateEvent(InvoiceImage(invoice), InvoiceCreatedType, timestamp).value.info.productId == Some(invoice.productId)
  {
  }

  /** The events a batch writes, in record order. */
  function Written(records: seq<StreamRecord>, clock: seq<nat>): (r: seq<EventItem>)
    requires |clock| == |records| && WellKeyed(records)
    ensures |r| <= |records|
    ensures forall e :: e in r ==> e.InvoiceEvent? && e.invoice.eventType == InvoiceCreatedType
    decreases |records|
  {
    if records == [] then []
    else
      var n := |records| - 1;
      var before := Written(records[..n], clock[..n]);
      match RecordEvent(records[n], clock[n])
      case Some(Ok(e)) => before + [InvoiceEvent(e)]
      case _ => before
  }

  /** The record's write was attempted and threw. */
  predicate Fails(record: StreamRecord, timestamp: nat)
    requires record.Insert? ==> KeyedImage(record.newImage)
  {
    RecordEvent(record, timestamp).Some? && RecordEvent(record, timestamp).value.Err?
  }

  /** Some write of the batch failed. */
  predicate AnyFailed(records: seq<StreamRecord>, clock: seq<nat>)
    requires |clock| == |records| && WellKeyed(records)
    decreases |records|
  {
    if records == [] then false
    else
      var n := |records| - 1;
      AnyFailed(records[..n], clock[..n]) || Fails(records[n], clock[n])
  }

  /** A batch failed exactly when one of its records' writes threw. */
  lemma {:induction false} AnyFailedIff(records: seq<StreamRecord>, clock: seq<nat>)
    requires |clock| == |records| && WellKeyed(records)
    ensures AnyFailed(records, clock) <==> exists i :: 0 <= i < |records| && Fails(records[i], clock[i])
    decreases |records|
  {
    if records != [] {
      var n := |records| - 1;
      AnyFailedIff(records[..n], clock[..n]);
      if exists i :: 0 <= i < n && Fails(records[..n][i], clock[..n][i]) {
        var i :| 0 <= i < n && Fails(records[..n][i], clock[..n][i]);
        assert records[..n][i] == records[i] && clock[..n][i] == clock[i];
      }
      if exists i :: 0 <= i < |records| && Fails(records[i], clock[i]) {
        var i :| 0 <= i < |records| && Fails(records[i], clock[i]);
        if i < n {
          assert records[..n][i] == records[i] && clock[..n][i] == clock[i];
        }
      }
    }
  }

  /** Inserts of records outside the transaction partition. */
  function InvoiceInserts(records: seq<StreamRecord>): (n: nat)
    requires WellKeyed(records)
    ensures n <= |records|
    decreases |records|
  {
    if records == [] then 0
    else
      var k := |records| - 1;
      InvoiceInserts(records[..k])
        + (if records[k].Insert? && !(TransactionPk <= records[k].newImage["pk"].s) then 1 else 0)
  }

  /** When no write fails, the batch writes exactly one event per invoice insert. */
  lemma {:induction false} WrittenCount(records: seq<StreamRecord>, clock: seq<nat>)
    requires |clock| == |records| && WellKeyed(records)
    requires !AnyFailed(records, clock)
    ensures |Written(records, clock)| == InvoiceInserts(records)
    decreases |records|
  {
    if records != [] {
      var n := |records| - 1;
      WrittenCount(records[..n], clock[..n]);
    }
  }

  /** Written and AnyFailed of a batch one record longer. */
  lemma WrittenStep(records: seq<StreamRecord>, clock: seq<nat>, i: nat)
    requires |clock| == |records| && WellKeyed(records) && i < |records|
    ensures WellKeyed(records[..i]) && WellKeyed(records[..i + 1])
    ensures Written(records[..i + 1], clock[..i + 1]) ==
      match RecordEvent(records[i], clock[i])
      case Some(Ok(e)) => Written(records[..i], clock[..i]) + [InvoiceEvent(e)]
      case _ => Written(records[..i], clock[..i])
    ensures AnyFailed(records[..i + 1], clock[..i + 1]) == (AnyFailed(records[..i], clock[..i]) || Fails(records[i], clock[i]))
  {
    assert records[..i + 1][..i] == records[..i] && clock[..i + 1][..i] == clock[..i];
  }

  /**
   * Handles a batch of stream records in order. Each write is attempted; the handler fails
   * (`ok` false) when any of them threw.
   */
  method Handler(events: EventsTable, records: seq<StreamRecord>, clock: seq<nat>) returns (ok: bool)
    requires |clock| == |records| && WellKeyed(records)
    modifies events
    ensures ok <==> !AnyFailed(records, clock)
    ensures events.items == PutAll(old(events.items), Written(records, clock))
  {
    ok := true;
    var i := 0;
    while i < |records|
      invariant 0 <= i <= |records|
      invariant ok == !AnyFailed(records[..i], clock[..i])
      invariant events.items == PutAll(old(events.items), Written(records[..i], clock[..i]))
    {
      WrittenStep(records, clock, i);
      var outcome := RecordEvent(records[i], clock[i]);
      match outcome {
        case Some(Ok(e)) =>
          PutAllSnoc(old(events.items), Written(records[..i], clock[..i]), InvoiceEvent(e));
          events.items := events.items[KeyOf(InvoiceEvent(e)) := InvoiceEvent(e)];
        case Some(Err(_)) =>
          ok := false;
        case None =>
      }
      i := i + 1;
    }
    assert records[..i] == records && clock[..i] == clock;
  }
}
