/**
 * The importer: runs once per uploaded object. A transaction still GENERATED moves to
 * RECEIVED, then to PROCESSED (an invoice is stored and the object deleted) or to
 * NON_VALID_INVOICE_NUMBER (the object stays); any other status is only reported back.
 */
module InvoiceImport {

  import opened Wrappers
  import opened Ddb
  import opened InvoiceTypes
  import opened InvoiceTransactionLayer
  import opened InvoiceRepositoryLayer
  import opened InvoiceWSConnection
  import opened InvoiceBucket

  /** One object-created notification: the object key is the transaction token. */
  datatype S3Record = S3Record(key: string, bucketName: string)

  /** Everything the importer and the canceller can change. */
  datatype World = World(items: map<TableKey, Item>, objects: map<string, Payload>, posted: seq<Post>)

  /** The shortest invoice number the importer accepts, in UTF-16 code units. */
  const MinInvoiceNumberLength: nat := 5

  /**
   * JavaScript's `length` of a string: UTF-16 code units, two for a character above U+FFFF
   * (a surrogate pair), one for any other.
   */
  function Utf16Length(s: string): (n: nat)
    ensures |s| <= n <= 2 * |s|
    decreases |s|
  {
    if s == [] then 0
    else
      var k := |s| - 1;
      Utf16Length(s[..k]) + (if s[k] as int > 0xFFFF then 2 else 1)
  }

  /** Two characters outside the Basic Multilingual Plane already make a number of length 5. */
  lemma SurrogatePairsCountTwice()
    ensures |"A\U{1F600}\U{1F600}"| == 3
    ensures Utf16Length("A\U{1F600}\U{1F600}") == 5
  {
    assert "A\U{1F600}\U{1F600}"[..2] == "A\U{1F600}";
    assert "A\U{1F600}"[..1] == "A";
    assert "A"[..0] == "";
  }

  /** The invoice derived from an accepted file. */
  function NewInvoice(file: InvoiceFile, key: string, now: int): (r: Invoice)
    ensures r.pk == InvoicePk(file.customerName) && r.sk == file.invoiceNumber
    ensures r.transactionId == key && r.ttl == 0 && r.createdAt == now
    ensures r.totalValue == file.totalValue && r.productId == file.productId && r.quantity == file.quantity
  {
    Invoice(InvoicePk(file.customerName), file.invoiceNumber, file.totalValue, file.productId,
            file.quantity, key, 0, now)
  }

  /**
   * What processing the object `key` does to the world, `live` being the open connections and
   * `now` the clock reading used as the invoice's creation time.
   */
  function Import(w: World, live: set<string>, key: string, now: int): (r: World)
    ensures r.objects == w.objects || r.objects == w.objects - {key}
    ensures w.items.Keys <= r.items.Keys
    ensures w.posted <= r.posted && |r.posted| <= |w.posted| + 2
  {
    match FindTransaction(w.items, key)
    case None => w
    case Some(tx) =>
      if tx.transactionsStatus != GENERATED then
        w.(posted := Deliver(w.posted, live, tx.connectionId, StatusMessage(key, tx.transactionsStatus)))
      else
        var received := World(WithStatus(w.items, key, RECEIVED), w.objects,
                              Deliver(w.posted, live, tx.connectionId, StatusMessage(key, RECEIVED)));
        if key !in w.objects || w.objects[key].Unreadable? then received
        else
          if w.objects[key].Document? && Utf16Length(w.objects[key].file.invoiceNumber) >= MinInvoiceNumberLength then
            World(WithStatus(PutInvoice(received.items, NewInvoice(w.objects[key].file, key, now)), key, PROCESSED),
                  received.objects - {key},
                  Deliver(received.posted, live, tx.connectionId, StatusMessage(key, PROCESSED)))
          else
            World(WithStatus(received.items, key, NON_VALID_INVOICE_NUMBER), received.objects,
                  Deliver(received.posted, live, tx.connectionId, StatusMessage(key, NON_VALID_INVOICE_NUMBER)))
  }

  /** The world after the records of one event, processed in order. */
  function ImportAll(w: World, live: set<string>, records: seq<S3Record>, clock: seq<int>): (r: World)
    requires |clock| == |records|
    ensures r.objects.Keys <= w.objects.Keys
    ensures forall k :: k in r.objects ==> r.objects[k] == w.objects[k]
    ensures w.items.Keys <= r.items.Keys
    ensures w.posted <= r.posted && |r.posted| <= |w.posted| + 2 * |records|
    decreases |records|
  {
    if records == [] then w
    else
      var n := |records| - 1;
      var before := ImportAll(w, live, records[..n], clock[..n]);
      var after := Import(before, live, records[n].key, clock[n]);
      assert w.posted <= after.posted by {
        assert after.posted[..|before.posted|] == before.posted;
        assert before.posted[..|w.posted|] == w.posted;
      }
      after
  }

  /** Two versions of one transaction that differ at most in status. */
  predicate SameButStatus(a: InvoiceTransaction, b: InvoiceTransaction)
  {
    a.(transactionsStatus := b.transactionsStatus) == b
  }

  /**
   * From `before` to `after` no transaction appeared or vanished, none changed anything but
   * its status, and every status moved along the lifecycle.
   */
  ghost predicate Advances(before: map<TableKey, Item>, after: map<TableKey, Item>)
  {
    forall token ::
      && (FindTransaction(before, token).Some? <==> FindTransaction(after, token).Some?)
      && (FindTransaction(before, token).Some? ==>
            && SameButStatus(FindTransaction(before, token).value, FindTransaction(after, token).value)
            && Reach(FindTransaction(before, token).value.transactionsStatus,
                     FindTransaction(after, token).value.transactionsStatus))
  }

  lemma AdvancesTransitive(a: map<TableKey, Item>, b: map<TableKey, Item>, c: map<TableKey, Item>)
    requires Advances(a, b) && Advances(b, c)
    ensures Advances(a, c)
  {
    forall token | FindTransaction(a, token).Some?
      ensures Reach(FindTransaction(a, token).value.transactionsStatus,
                    FindTransaction(c, token).value.transactionsStatus)
    {
      ReachTransitive(FindTransaction(a, token).value.transactionsStatus,
                      FindTransaction(b, token).value.transactionsStatus,
                      FindTransaction(c, token).value.transactionsStatus);
    }
  }

  /** Processing one object never touches another token's transaction. */
  lemma ImportOthers(w: World, live: set<string>, key: string, now: int, token: string)
    requires token != key
    ensures FindTransaction(Import(w, live, key, now).items, token) == FindTransaction(w.items, token)
  {
    match FindTransaction(w.items, key)
    case None =>
    case Some(tx) =>
      if tx.transactionsStatus == GENERATED {
        var received := WithStatus(w.items, key, RECEIVED);
        WithStatusOthers(w.items, key, RECEIVED, token);
        if key in w.objects && !w.objects[key].Unreadable? {
          if w.objects[key].Document? && Utf16Length(w.objects[key].file.invoiceNumber) >= MinInvoiceNumberLength {
            var file := w.objects[key].file;
            var invoice := NewInvoice(file, key, now);
            PutInvoiceKeepsTransactions(received, invoice, file.customerName, token);
            WithStatusOthers(PutInvoice(received, invoice), key, PROCESSED, token);
          } else {
            WithStatusOthers(received, key, NON_VALID_INVOICE_NUMBER, token);
          }
        }
      }
  }

  /**
   * The token's own transaction keeps everything but its status. A GENERATED one ends
   * RECEIVED, PROCESSED or NON_VALID_INVOICE_NUMBER; any other is left exactly as it was.
   */
  lemma ImportOwn(w: World, live: set<string>, key: string, now: int)
    requires FindTransaction(w.items, key).Some?
    ensures FindTransaction(Import(w, live, key, now).items, key).Some?
    ensures SameButStatus(FindTransaction(w.items, key).value, FindTransaction(Import(w, live, key, now).items, key).value)
    ensures FindTransaction(w.items, key).value.transactionsStatus == GENERATED ==>
      FindTransaction(Import(w, live, key, now).items, key).value.transactionsStatus
        in {RECEIVED, PROCESSED, NON_VALID_INVOICE_NUMBER}
    ensures FindTransaction(w.items, key).value.transactionsStatus != GENERATED ==>
      Import(w, live, key, now).items == w.items && Import(w, live, key, now).objects == w.objects
  {
    var tx := FindTransaction(w.items, key).value;
    if tx.transactionsStatus == GENERATED {
      var received := WithStatus(w.items, key, RECEIVED);
      if key in w.objects && w.objects[key].Document? {
        var file := w.objects[key].file;
        if Utf16Length(file.invoiceNumber) >= MinInvoiceNumberLength {
          PutInvoiceKeepsTransactions(received, NewInvoice(file, key, now), file.customerName, key);
        }
      }
    }
  }

  /** Without a transaction for the key the importer changes nothing and sends nothing. */
  lemma ImportWithoutTransaction(w: World, live: set<string>, key: string, now: int)
    requires FindTransaction(w.items, key).None?
    ensures Import(w, live, key, now) == w
  {
  }

  /** Any status but GENERATED is sent back once, unchanged, to the stored connection, and nothing else happens. */
  lemma ImportNotGenerated(w: World, live: set<string>, key: string, now: int)
    requires FindTransaction(w.items, key).Some?
    requires FindTransaction(w.items, key).value.transactionsStatus != GENERATED
    ensures var tx := FindTransaction(w.items, key).value;
      Import(w, live, key, now)
        == w.(posted := Deliver(w.posted, live, tx.connectionId, StatusMessage(key, tx.transactionsStatus)))
  {
  }

  /** A GENERATED transaction whose object is missing or unreadable stops at RECEIVED and keeps the object. */
  lemma ImportUnreadable(w: World, live: set<string>, key: string, now: int)
    requires StatusOf(w.items, key) == Some(GENERATED)
    requires key !in w.objects || w.objects[key].Unreadable?
    ensures var tx := FindTransaction(w.items, key).value;
      var r := Import(w, live, key, now);
      && StatusOf(r.items, key) == Some(RECEIVED)
      && r.items.Keys == w.items.Keys
      && r.objects == w.objects
      && r.posted == w.posted + Deliver([], live, tx.connectionId, StatusMessage(key, RECEIVED))
  {
  }

  /**
   * A GENERATED transaction whose document has an invoice number of at least 5 code units:
   * the invoice is stored, the object deleted, the status PROCESSED, and RECEIVED then
   * PROCESSED are sent to the stored connection.
   */
  lemma ImportValid(w: World, live: set<string>, key: string, now: int)
    requires StatusOf(w.items, key) == Some(GENERATED)
    requires key in w.objects && w.objects[key].Document?
    requires Utf16Length(w.objects[key].file.invoiceNumber) >= MinInvoiceNumberLength
    ensures var tx := FindTransaction(w.items, key).value;
      var invoice := NewInvoice(w.objects[key].file, key, now);
      var r := Import(w, live, key, now);
      && StatusOf(r.items, key) == Some(PROCESSED)
      && TableKey(invoice.pk, invoice.sk) in r.items
      && r.items[TableKey(invoice.pk, invoice.sk)] == InvoiceItem(invoice)
      && r.items.Keys == w.items.Keys + {TableKey(invoice.pk, invoice.sk)}
      && r.objects == w.objects - {key}
      && r.posted == w.posted + Deliver([], live, tx.connectionId, StatusMessage(key, RECEIVED))
                              + Deliver([], live, tx.connectionId, StatusMessage(key, PROCESSED))
  {
    var file := w.objects[key].file;
    var invoice := NewInvoice(file, key, now);
    PutInvoiceKeepsTransactions(WithStatus(w.items, key, RECEIVED), invoice, file.customerName, key);
    InvoicePkIsNotTransactionPk(file.customerName);
  }

  /**
   * A GENERATED transaction whose document has a shorter invoice number, or one without a
   * `length` at all: the status becomes
   * NON_VALID_INVOICE_NUMBER, no invoice is stored, the object stays, and RECEIVED then
   * NON_VALID_INVOICE_NUMBER are sent to the stored connection.
   */
  lemma ImportInvalid(w: World, live: set<string>, key: string, now: int)
    requires StatusOf(w.items, key) == Some(GENERATED)
    requires key in w.objects
    requires || w.objects[key].InvoiceNumberWithoutLength?
             || (w.objects[key].Document? && Utf16Length(w.objects[key].file.invoiceNumber) < MinInvoiceNumberLength)
    ensures var tx := FindTransaction(w.items, key).value;
      var r := Import(w, live, key, now);
      && StatusOf(r.items, key) == Some(NON_VALID_INVOICE_NUMBER)
      && r.items.Keys == w.items.Keys
      && r.objects == w.objects
      && r.posted == w.posted + Deliver([], live, tx.connectionId, StatusMessage(key, RECEIVED))
                              + Deliver([], live, tx.connectionId, StatusMessage(key, NON_VALID_INVOICE_NUMBER))
  {
  }

  /** Processing one object advances every transaction along the lifecycle. */
  lemma ImportAdvances(w: World, live: set<string>, key: string, now: int)
    ensures Advances(w.items, Import(w, live, key, now).items)
  {
    var after := Import(w, live, key, now).items;
    forall token
      ensures FindTransaction(w.items, token).Some? <==> FindTransaction(after, token).Some?
      ensures FindTransaction(w.items, token).Some? ==>
            && SameButStatus(FindTransaction(w.items, token).value, FindTransaction(after, token).value)
            && Reach(FindTransaction(w.items, token).value.transactionsStatus,
                     FindTransaction(after, token).value.transactionsStatus)
    {
      if token != key {
        ImportOthers(w, live, key, now, token);
      } else if FindTransaction(w.items, key).Some? {
        ImportOwn(w, live, key, now);
      }
    }
  }

  /**
   * Redelivering the same object is idempotent: the second run stores, deletes and updates
   * nothing, and at most reports the status once more.
   */
  lemma ImportIdempotent(w: World, live: set<string>, key: string, now1: int, now2: int)
    ensures Import(Import(w, live, key, now1), live, key, now2).items == Import(w, live, key, now1).items
    ensures Import(Import(w, live, key, now1), live, key, now2).objects == Import(w, live, key, now1).objects
  {
    if FindTransaction(w.items, key).Some? {
      ImportOwn(w, live, key, now1);
      ImportOwn(Import(w, live, key, now1), live, key, now2);
    }
  }

  /** Every message the importer posts goes to the transaction's stored connection and names the token. */
  lemma ImportNotifiesStoredConnection(w: World, live: set<string>, key: string, now: int)
    ensures w.posted <= Import(w, live, key, now).posted
    ensures FindTransaction(w.items, key).None? ==> Import(w, live, key, now).posted == w.posted
    ensures forall i :: |w.posted| <= i < |Import(w, live, key, now).posted| ==>
      && FindTransaction(w.items, key).Some?
      && Import(w, live, key, now).posted[i].connectionId == FindTransaction(w.items, key).value.connectionId
      && Import(w, live, key, now).posted[i].data.transactionId == key
      && Import(w, live, key, now).posted[i].data.status
           in {RECEIVED, PROCESSED, NON_VALID_INVOICE_NUMBER, FindTransaction(w.items, key).value.transactionsStatus}
  {
  }

  /** The object is deleted only together with storing the invoice and reaching PROCESSED. */
  lemma ImportDeletesOnlyWhenProcessed(w: World, live: set<string>, key: string, now: int)
    requires key in w.objects && key !in Import(w, live, key, now).objects
    ensures FindTransaction(w.items, key).Some?
    ensures FindTransaction(w.items, key).value.transactionsStatus == GENERATED
    ensures w.objects[key].Document? && Utf16Length(w.objects[key].file.invoiceNumber) >= MinInvoiceNumberLength
    ensures StatusOf(Import(w, live, key, now).items, key) == Some(PROCESSED)
    ensures var invoice := NewInvoice(w.objects[key].file, key, now);
      Import(w, live, key, now).items[TableKey(invoice.pk, invoice.sk)] == InvoiceItem(invoice)
  {
    var file := w.objects[key].file;
    var received := WithStatus(w.items, key, RECEIVED);
    var invoice := NewInvoice(file, key, now);
    PutInvoiceKeepsTransactions(received, invoice, file.customerName, key);
    InvoicePkIsNotTransactionPk(file.customerName);
  }

  /** A whole event advances every transaction along the lifecycle. */
  lemma {:induction false} ImportAllAdvances(w: World, live: set<string>, records: seq<S3Record>, clock: seq<int>)
    requires |clock| == |records|
    ensures Advances(w.items, ImportAll(w, live, records, clock).items)
    decreases |records|
  {
    if records == [] {
      assert ImportAll(w, live, records, clock) == w;
    } else {
      var n := |records| - 1;
      var mid := ImportAll(w, live, records[..n], clock[..n]);
      ImportAllAdvances(w, live, records[..n], clock[..n]);
      ImportAdvances(mid, live, records[n].key, clock[n]);
      AdvancesTransitive(w.items, mid.items, ImportAll(w, live, records, clock).items);
    }
  }

  /** Processes one record; every failure inside is caught and ends the record's processing. */
  method ProcessRecord(transactions: InvoiceTransactionRepository, invoices: InvoiceRepository,
                       ws: InvoiceWSService, bucket: Bucket, record: S3Record, now: int)
    requires invoices.table == transactions.table
    modifies transactions.table, bucket, ws.api
    ensures ws.api.connections == old(ws.api.connections)
    ensures World(transactions.table.items, bucket.objects, ws.api.posted)
         == Import(old(World(transactions.table.items, bucket.objects, ws.api.posted)),
                   ws.api.connections, record.key, now)
  {
    var key := record.key;
    var found := transactions.GetInvoiceTransaction(key);
    if found.Err? {
      return;
    }
    var tx := found.value;
    var sent, updated;
    if tx.transactionsStatus == GENERATED {
      sent := ws.SendInvoiceStatus(key, tx.connectionId, RECEIVED);
      updated := transactions.UpdateInvoiceTransaction(key, RECEIVED);
    } else {
      sent := ws.SendInvoiceStatus(key, tx.connectionId, tx.transactionsStatus);
      return;
    }
    var obj := bucket.GetObject(key);
    if obj.Err? || obj.value.Unreadable? {
      return;
    }
    if obj.value.Document? && Utf16Length(obj.value.file.invoiceNumber) >= MinInvoiceNumberLength {
      var created := invoices.Create(NewInvoice(obj.value.file, key, now));
      bucket.DeleteObject(key);
      updated := transactions.UpdateInvoiceTransaction(key, PROCESSED);
      sent := ws.SendInvoiceStatus(key, tx.connectionId, PROCESSED);
    } else {
      sent := ws.SendInvoiceStatus(key, tx.connectionId, NON_VALID_INVOICE_NUMBER);
      updated := transactions.UpdateInvoiceTransaction(key, NON_VALID_INVOICE_NUMBER);
    }
  }

  /**
   * Processes every record of an object-created event, one after another; the handler
   * itself never fails. `clock[i]` is the time read while processing `records[i]`.
   */
  method Handler(transactions: InvoiceTransactionRepository, invoices: InvoiceRepository,
                 ws: InvoiceWSService, bucket: Bucket, records: seq<S3Record>, clock: seq<int>)
    requires invoices.table == transactions.table
    requires |clock| == |records|
    modifies transactions.table, bucket, ws.api
    ensures ws.api.connections == old(ws.api.connections)
    ensures World(transactions.table.items, bucket.objects, ws.api.posted)
         == ImportAll(old(World(transactions.table.items, bucket.objects, ws.api.posted)),
                      ws.api.connections, records, clock)
    ensures Advances(old(transactions.table.items), transactions.table.items)
  {
    ghost var w0 := World(transactions.table.items, bucket.objects, ws.api.posted);
    var i := 0;
    while i < |records|
      invariant 0 <= i <= |records|
      invariant ws.api.connections == old(ws.api.connections)
      invariant World(transactions.table.items, bucket.objects, ws.api.posted)
             == ImportAll(w0, ws.api.connections, records[..i], clock[..i])
    {
      assert records[..i + 1][..i] == records[..i] && clock[..i + 1][..i] == clock[..i];
      ProcessRecord(transactions, invoices, ws, bucket, records[i], clock[i]);
      i := i + 1;
    }
    assert records[..i] == records && clock[..i] == clock;
    ImportAllAdvances(w0, ws.api.connections, records, clock);
  }
}
